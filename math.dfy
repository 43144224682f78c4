/** Checked 64-bit stake arithmetic. The helpers' own code is not part of this
    model; they are given by contract: addition reports overflow, and
    subtraction reports underflow and then yields 0. */
module Math {
  import opened Ids

  /** A 64-bit result together with the error flag the helper returns beside it. */
  datatype Checked = Checked(value: uint64, failed: bool)

  /** Adds two weights. On overflow the returned sum is not specified: the
      caller may rely only on the flag. */
  method Add64(a: uint64, b: uint64) returns (sum: uint64, overflow: bool)
    ensures overflow <==> a + b > MaxUint64
    ensures !overflow ==> sum == a + b
  {
    if a + b <= MaxUint64 {
      return a + b, false;
    }
    overflow := true;
    sum :| true;
  }

  /** Subtracts `b` from `a`, yielding 0 and the error flag when `b` is larger. */
  function Sub64(a: uint64, b: uint64): (r: Checked)
    ensures r.failed <==> a < b
    ensures !r.failed ==> r.value + b == a
    ensures r.failed ==> r.value == 0
  {
    if a < b then Checked(0, true) else Checked(a - b, false)
  }
}
