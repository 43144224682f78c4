/** The handler that waits until enough validator stake is connected
    (chains/awaiter.go). It keeps a running total of the weights of connected
    validators and starts its callback whenever a connection brings the total
    to the required weight or overflows it. The code is modelled as written:
    the callback is started again on every such connection, and a
    disconnection subtracts the running total from the validator's weight. */
module Chains {
  import opened Ids
  import Math

  /** The running total after `vdrID` disconnects from a handler holding
      `weight`: unchanged for a validator outside the set; otherwise the
      validator's weight minus the total, or 0 when the total is larger. */
  function DisconnectedWeight(vdrs: map<ShortID, uint64>, weight: uint64, vdrID: ShortID): (w: uint64)
    ensures vdrID !in vdrs ==> w == weight
    ensures vdrID in vdrs && weight <= vdrs[vdrID] ==> w + weight == vdrs[vdrID]
    ensures vdrID in vdrs && weight > vdrs[vdrID] ==> w == 0
  {
    if vdrID in vdrs then Math.Sub64(vdrs[vdrID], weight).value else weight
  }

  /** Whatever the total was, after a validator of the set disconnects the
      total is at most that validator's own weight. */
  lemma DisconnectedAtMostOwnWeight(vdrs: map<ShortID, uint64>, weight: uint64, vdrID: ShortID)
    requires vdrID in vdrs
    ensures DisconnectedWeight(vdrs, weight, vdrID) <= vdrs[vdrID]
  {
  }

  class AwaitConnected {
    const vdrs: map<ShortID, uint64>
    const reqWeight: uint64
    var weight: uint64
    /** How many times the callback has been started. */
    var launched: nat

    /** NewAwaiter (awaiter.go:20-26): the total starts at 0. */
    constructor (vdrs: map<ShortID, uint64>, reqWeight: uint64)
      ensures this.vdrs == vdrs && this.reqWeight == reqWeight
      ensures weight == 0 && launched == 0
    {
      this.vdrs := vdrs;
      this.reqWeight := reqWeight;
      weight := 0;
      launched := 0;
    }

    /** Connected (awaiter.go:28-43). A validator outside the set changes
        nothing. Otherwise its weight is added to the total; the answer is
        true, and the callback is started, exactly when the addition
        overflowed or the new total is at least the required weight. On
        overflow the new total is whatever the addition returned. */
    method Connected(vdrID: ShortID) returns (ok: bool)
      modifies this`weight, this`launched
      ensures vdrID !in vdrs ==> !ok && weight == old(weight)
      ensures vdrID in vdrs ==>
        var total := vdrs[vdrID] + old(weight);
        && (total <= MaxUint64 ==> weight == total)
        && (ok <==> total > MaxUint64 || total >= reqWeight)
      ensures launched == old(launched) + (if ok then 1 else 0)
    {
      if vdrID !in vdrs {
        return false;
      }
      var sum, overflow := Math.Add64(vdrs[vdrID], weight);
      weight := sum;
      if !overflow && weight < reqWeight {
        return false;
      }
      launched := launched + 1;
      return true;
    }

    /** Disconnected (awaiter.go:45-54): never answers true and never starts
        the callback. */
    method Disconnected(vdrID: ShortID) returns (ok: bool)
      modifies this`weight
      ensures !ok
      ensures weight == DisconnectedWeight(vdrs, old(weight), vdrID)
    {
      if vdrID in vdrs {
        weight := Math.Sub64(vdrs[vdrID], weight).value;
      }
      return false;
    }
  }

  /** A client: the required weight is 100, X weighs 60 and Y 50. X connects
      (no), Y connects (yes, total 110), X disconnects (total 0, not 50), Y
      connects (no, total 50), X connects (yes, total 110): the callback has
      been started twice. */
  method ThresholdScenario(x: ShortID, y: ShortID)
    returns (first: bool, second: bool, afterDisconnect: uint64, third: bool, fourth: bool, launches: nat)
    requires x != y
    ensures !first && second && !third && fourth
    ensures afterDisconnect == 0 && launches == 2
  {
    var a := new AwaitConnected(map[x := 60, y := 50], 100);
    first := a.Connected(x);
    second := a.Connected(y);
    var ignored := a.Disconnected(x);
    afterDisconnect := a.weight;
    third := a.Connected(y);
    fourth := a.Connected(x);
    launches := a.launched;
  }

  /** A client: on a new handler, `y` connects, then `x` connects and
      disconnects. When `x` is in the set and its connection did not
      overflow, the total is 0 afterwards, not the weight `y` brought. When
      `x` is outside the set, the total is what `y` left. */
  method ConnectThenDisconnect(vdrs: map<ShortID, uint64>, reqWeight: uint64, y: ShortID, x: ShortID)
    returns (after: uint64)
    ensures x in vdrs && (y in vdrs ==> vdrs[x] + vdrs[y] <= MaxUint64) ==> after == 0
    ensures x !in vdrs ==> after == (if y in vdrs then vdrs[y] else 0)
  {
    var a := new AwaitConnected(vdrs, reqWeight);
    var ignored := a.Connected(y);
    ignored := a.Connected(x);
    ignored := a.Disconnected(x);
    after := a.weight;
  }
}
