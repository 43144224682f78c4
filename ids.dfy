/** Fixed-width integers and identifiers shared by the poll registry and the
    connectivity awaiter. Widths are subset types of `int`, so an arithmetic
    result that leaves the range has to be handled explicitly: nothing wraps. */
module Ids {

  const MaxUint64: int := 0xFFFF_FFFF_FFFF_FFFF

  type uint32 = x: int | 0 <= x <= 0xFFFF_FFFF
  type uint64 = x: int | 0 <= x <= 0xFFFF_FFFF_FFFF_FFFF

  type byte = bv8

  /** A 20-byte node identity (a validator). */
  type ShortID = s: seq<byte> | |s| == 20 witness seq(20, _ => 0)

  /** A 32-byte identity (a block or vote value). */
  type ID = s: seq<byte> | |s| == 32 witness seq(32, _ => 0)

  /** A set of node identities: the validators a round is sent to. */
  type ShortSet = set<ShortID>

  /** Votes collected by a round, with their multiplicities. */
  type Bag = multiset<ID>
}
