/** The registry of in-flight polls of the snowman consensus engine
    (snow/engine/snowman/poll/set.go): outstanding rounds keyed by request ID,
    a pending-polls gauge, and the routing of votes and drops to the addressed
    round, which is removed the moment it reports that it has finished. */
module Poll {
  import opened Ids

  /** What the registry uses and does not implement: the factory that opens a
      round for a set of validators (`Factory.New`), and the round itself,
      which absorbs a vote or a drop, says whether it has finished and yields
      its result (`Poll`). A round's state is the type parameter `P`; a vote
      or a drop yields the round's new state. */
  datatype Behaviour<!P> = Behaviour(
    New: ShortSet -> P,
    Vote: (P, ShortID, ID) -> P,
    Drop: (P, ShortID) -> P,
    Finished: P -> bool,
    Result: P -> Bag)

  /** The registry as a value: outstanding rounds by request ID, and the
      pending-polls gauge, which the code moves up and down on its own. */
  datatype Registry<P> = Registry(polls: map<uint32, P>, numPolls: int)

  /** The gauge agrees with the number of outstanding rounds. */
  predicate GaugeInStep<P>(r: Registry<P>)
  {
    r.numPolls == |r.polls|
  }

  /** Every entry except the one under `requestID` is the same in both maps. */
  ghost predicate OthersUnchanged<P>(before: map<uint32, P>, after: map<uint32, P>, requestID: uint32)
  {
    forall k :: k != requestID ==> (k in after <==> k in before) && (k in before ==> after[k] == before[k])
  }

  /** Add (set.go:72-88): a request ID that is already outstanding is refused
      and nothing changes; otherwise the factory opens a round under that ID
      and the gauge goes up by one. */
  function AddStep<P>(b: Behaviour<P>, r: Registry<P>, requestID: uint32, vdrs: ShortSet): (res: (Registry<P>, bool))
    ensures res.1 <==> requestID !in r.polls
    ensures !res.1 ==> res.0 == r
    ensures res.1 ==> requestID in res.0.polls && res.0.polls[requestID] == b.New(vdrs)
    ensures res.1 ==> |res.0.polls| == |r.polls| + 1 && res.0.numPolls == r.numPolls + 1
    ensures OthersUnchanged(r.polls, res.0.polls, requestID)
  {
    if requestID in r.polls then (r, false)
    else (Registry(r.polls[requestID := b.New(vdrs)], r.numPolls + 1), true)
  }

  /** How a known round that has absorbed an input and is now `p` is settled:
      when `p` has finished, its entry is gone, the gauge and the count of
      rounds fall by one and the answer is `p`'s result; otherwise the entry
      holds `p`, the gauge and the count stay, and the answer is an empty bag. */
  ghost predicate Delivered<P>(b: Behaviour<P>, r: Registry<P>, requestID: uint32, p: P, res: (Registry<P>, Bag, bool))
    requires requestID in r.polls
  {
    && (res.2 <==> b.Finished(p))
    && (res.2 ==> requestID !in res.0.polls && |res.0.polls| == |r.polls| - 1
                  && res.0.numPolls == r.numPolls - 1 && res.1 == b.Result(p))
    && (!res.2 ==> requestID in res.0.polls && res.0.polls[requestID] == p && |res.0.polls| == |r.polls|
                   && res.0.numPolls == r.numPolls && res.1 == multiset{})
  }

  /** The completion handling Vote and Drop share (set.go:111-120, 139-148). */
  function Settle<P>(b: Behaviour<P>, r: Registry<P>, requestID: uint32, p: P): (Registry<P>, Bag, bool)
    requires requestID in r.polls
  {
    if !b.Finished(p) then (Registry(r.polls[requestID := p], r.numPolls), multiset{}, false)
    else (Registry(r.polls - {requestID}, r.numPolls - 1), b.Result(p), true)
  }

  /** Vote (set.go:92-121): a vote for an unknown request ID is ignored; a
      known round absorbs it and is settled. */
  function VoteStep<P>(b: Behaviour<P>, r: Registry<P>, requestID: uint32, vdr: ShortID, vote: ID): (res: (Registry<P>, Bag, bool))
    ensures requestID !in r.polls ==> res == (r, multiset{}, false)
    ensures requestID in r.polls ==> Delivered(b, r, requestID, b.Vote(r.polls[requestID], vdr, vote), res)
    ensures OthersUnchanged(r.polls, res.0.polls, requestID)
  {
    if requestID !in r.polls then (r, multiset{}, false)
    else Settle(b, r, requestID, b.Vote(r.polls[requestID], vdr, vote))
  }

  /** Drop (set.go:125-149): like Vote, but the round is told that `vdr`
      failed to answer. */
  function DropStep<P>(b: Behaviour<P>, r: Registry<P>, requestID: uint32, vdr: ShortID): (res: (Registry<P>, Bag, bool))
    ensures requestID !in r.polls ==> res == (r, multiset{}, false)
    ensures requestID in r.polls ==> Delivered(b, r, requestID, b.Drop(r.polls[requestID], vdr), res)
    ensures OthersUnchanged(r.polls, res.0.polls, requestID)
  {
    if requestID !in r.polls then (r, multiset{}, false)
    else Settle(b, r, requestID, b.Drop(r.polls[requestID], vdr))
  }

  /** Once a call has resolved a round, a later vote or drop for the same
      request ID is treated as unknown: no answer and no change. */
  lemma LateCallIgnored<P>(b: Behaviour<P>, r: Registry<P>, requestID: uint32, vdr: ShortID, vote: ID, lateVdr: ShortID, lateVote: ID)
    requires VoteStep(b, r, requestID, vdr, vote).2 || DropStep(b, r, requestID, vdr).2
    ensures VoteStep(b, r, requestID, vdr, vote).2 ==>
      var after := VoteStep(b, r, requestID, vdr, vote).0;
      VoteStep(b, after, requestID, lateVdr, lateVote) == (after, multiset{}, false)
      && DropStep(b, after, requestID, lateVdr) == (after, multiset{}, false)
    ensures DropStep(b, r, requestID, vdr).2 ==>
      var after := DropStep(b, r, requestID, vdr).0;
      VoteStep(b, after, requestID, lateVdr, lateVote) == (after, multiset{}, false)
      && DropStep(b, after, requestID, lateVdr) == (after, multiset{}, false)
  {
  }

  /** Add does not ask a new round whether it has already finished: a round
      the factory opens finished stays registered until a vote or a drop for
      it arrives. */
  lemma FinishedAtCreationStays<P>(b: Behaviour<P>, r: Registry<P>, requestID: uint32, vdrs: ShortSet)
    requires requestID !in r.polls && b.Finished(b.New(vdrs))
    ensures var after := AddStep(b, r, requestID, vdrs).0;
      requestID in after.polls && b.Finished(after.polls[requestID])
  {
  }

  /** One call to the registry, as a caller issues it. */
  datatype Op =
    | AddOp(requestID: uint32, vdrs: ShortSet)
    | VoteOp(requestID: uint32, vdr: ShortID, vote: ID)
    | DropOp(requestID: uint32, vdr: ShortID)

  /** The registry after one call, whether the call opened a round and
      whether it resolved one. */
  function Step<P>(b: Behaviour<P>, r: Registry<P>, op: Op): (Registry<P>, bool, bool)
  {
    match op
    case AddOp(requestID, vdrs) =>
      var res := AddStep(b, r, requestID, vdrs); (res.0, res.1, false)
    case VoteOp(requestID, vdr, vote) =>
      var res := VoteStep(b, r, requestID, vdr, vote); (res.0, false, res.2)
    case DropOp(requestID, vdr) =>
      var res := DropStep(b, r, requestID, vdr); (res.0, false, res.2)
  }

  /** The registry after a sequence of calls. */
  function Run<P>(b: Behaviour<P>, r: Registry<P>, ops: seq<Op>): Registry<P>
    decreases |ops|
  {
    if ops == [] then r else Run(b, Step(b, r, ops[0]).0, ops[1..])
  }

  /** How many calls in `ops` opened a round under `requestID`. */
  function Opened<P>(b: Behaviour<P>, r: Registry<P>, ops: seq<Op>, requestID: uint32): nat
    decreases |ops|
  {
    if ops == [] then 0
    else
      var s := Step(b, r, ops[0]);
      (if ops[0].requestID == requestID && s.1 then 1 else 0) + Opened(b, s.0, ops[1..], requestID)
  }

  /** How many calls in `ops` resolved a round under `requestID`. */
  function Resolved<P>(b: Behaviour<P>, r: Registry<P>, ops: seq<Op>, requestID: uint32): nat
    decreases |ops|
  {
    if ops == [] then 0
    else
      var s := Step(b, r, ops[0]);
      (if ops[0].requestID == requestID && s.2 then 1 else 0) + Resolved(b, s.0, ops[1..], requestID)
  }

  /** 1 when a round is outstanding under `requestID`, else 0. */
  function Pending<P>(r: Registry<P>, requestID: uint32): nat
  {
    if requestID in r.polls then 1 else 0
  }

  /** Each call moves the gauge exactly as it moves the number of rounds. */
  lemma StepKeepsGauge<P>(b: Behaviour<P>, r: Registry<P>, op: Op)
    requires GaugeInStep(r)
    ensures GaugeInStep(Step(b, r, op).0)
  {
  }

  /** The pending-polls gauge equals the number of outstanding rounds after
      any sequence of calls, when it did before. */
  lemma {:induction false} RunKeepsGauge<P>(b: Behaviour<P>, r: Registry<P>, ops: seq<Op>)
    requires GaugeInStep(r)
    ensures GaugeInStep(Run(b, r, ops))
    decreases |ops|
  {
    if ops != [] {
      StepKeepsGauge(b, r, ops[0]);
      RunKeepsGauge(b, Step(b, r, ops[0]).0, ops[1..]);
    }
  }

  /** A call for one request ID opens a round there only when none is
      outstanding, resolves one only when one is, and never touches another
      request ID's round. */
  lemma StepConservesRound<P>(b: Behaviour<P>, r: Registry<P>, op: Op, requestID: uint32)
    ensures var s := Step(b, r, op);
      Pending(r, requestID) + (if op.requestID == requestID && s.1 then 1 else 0)
      == (if op.requestID == requestID && s.2 then 1 else 0) + Pending(s.0, requestID)
  {
  }

  /** No round is lost and none is resolved twice: over any sequence of calls,
      the rounds outstanding under a request ID at the start plus those opened
      there equal those resolved there plus those still outstanding. */
  lemma {:induction false} RoundsConserved<P>(b: Behaviour<P>, r: Registry<P>, ops: seq<Op>, requestID: uint32)
    ensures Pending(r, requestID) + Opened(b, r, ops, requestID)
         == Resolved(b, r, ops, requestID) + Pending(Run(b, r, ops), requestID)
    decreases |ops|
  {
    if ops != [] {
      StepConservesRound(b, r, ops[0], requestID);
      RoundsConserved(b, Step(b, r, ops[0]).0, ops[1..], requestID);
    }
  }

  /** Once no round is outstanding under `requestID`, calls that do not
      add under that ID resolve nothing there and leave it absent: a
      resolved round answers every later vote or drop as unknown until an
      Add reopens the ID. */
  lemma {:induction false} ClosedStaysClosed<P>(b: Behaviour<P>, r: Registry<P>, ops: seq<Op>, requestID: uint32)
    requires requestID !in r.polls
    requires forall i :: 0 <= i < |ops| ==> !(ops[i].AddOp? && ops[i].requestID == requestID)
    ensures Resolved(b, r, ops, requestID) == 0
    ensures requestID !in Run(b, r, ops).polls
    decreases |ops|
  {
    if ops != [] {
      StepConservesRound(b, r, ops[0], requestID);
      ClosedStaysClosed(b, Step(b, r, ops[0]).0, ops[1..], requestID);
    }
  }

  /** Every outstanding round is unfinished. */
  ghost predicate AllOpen<P>(b: Behaviour<P>, r: Registry<P>)
  {
    forall k :: k in r.polls ==> !b.Finished(r.polls[k])
  }

  /** When the factory never opens a round that is already finished, no
      finished round is ever left registered: Vote and Drop remove a round
      the moment it finishes. */
  lemma {:induction false} RunKeepsOpen<P>(b: Behaviour<P>, r: Registry<P>, ops: seq<Op>)
    requires AllOpen(b, r)
    requires forall vdrs :: !b.Finished(b.New(vdrs))
    ensures AllOpen(b, Run(b, r, ops))
    decreases |ops|
  {
    if ops != [] {
      assert AllOpen(b, Step(b, r, ops[0]).0);
      RunKeepsOpen(b, Step(b, r, ops[0]).0, ops[1..]);
    }
  }

  /** The two metrics the registry registers. */
  datatype Metric = PendingPolls | PollDuration

  /** The registry object: the map is updated in place, and the gauge is
      incremented and decremented beside it. */
  class Set<P> {
    const behaviour: Behaviour<P>
    const hasRegisterer: bool
    var polls: map<uint32, P>
    var numPolls: int

    ghost function State(): Registry<P>
      reads this
    {
      Registry(polls, numPolls)
    }

    ghost predicate Valid()
      reads this
    {
      GaugeInStep(State())
    }

    /** NewSet (set.go:34-67): an empty registry and a zero gauge. */
    constructor (behaviour: Behaviour<P>, hasRegisterer: bool)
      ensures Valid() && State() == Registry(map[], 0)
      ensures this.behaviour == behaviour && this.hasRegisterer == hasRegisterer
    {
      this.behaviour := behaviour;
      this.hasRegisterer := hasRegisterer;
      polls := map[];
      numPolls := 0;
    }

    method Add(requestID: uint32, vdrs: ShortSet) returns (added: bool)
      requires Valid()
      modifies this
      ensures Valid()
      ensures (State(), added) == AddStep(behaviour, old(State()), requestID, vdrs)
    {
      if requestID in polls {
        return false;
      }
      polls := polls[requestID := behaviour.New(vdrs)];
      numPolls := numPolls + 1;
      return true;
    }

    method Vote(requestID: uint32, vdr: ShortID, vote: ID) returns (result: Bag, resolved: bool)
      requires Valid()
      modifies this
      ensures Valid()
      ensures (State(), result, resolved) == VoteStep(behaviour, old(State()), requestID, vdr, vote)
    {
      if requestID !in polls {
        return multiset{}, false;
      }
      var poll := behaviour.Vote(polls[requestID], vdr, vote);
      polls := polls[requestID := poll];
      if !behaviour.Finished(poll) {
        return multiset{}, false;
      }
      assert polls - {requestID} == old(polls) - {requestID};
      polls := polls - {requestID};
      numPolls := numPolls - 1;
      return behaviour.Result(poll), true;
    }

    method Drop(requestID: uint32, vdr: ShortID) returns (result: Bag, resolved: bool)
      requires Valid()
      modifies this
      ensures Valid()
      ensures (State(), result, resolved) == DropStep(behaviour, old(State()), requestID, vdr)
    {
      if requestID !in polls {
        return multiset{}, false;
      }
      var poll := behaviour.Drop(polls[requestID], vdr);
      polls := polls[requestID := poll];
      if !behaviour.Finished(poll) {
        return multiset{}, false;
      }
      assert polls - {requestID} == old(polls) - {requestID};
      polls := polls - {requestID};
      numPolls := numPolls - 1;
      return behaviour.Result(poll), true;
    }

    /** The number of outstanding rounds, which the gauge matches. */
    method Len() returns (n: int)
      requires Valid()
      ensures n == |polls| && n == numPolls
    {
      return |polls|;
    }

    /** Shutdown (set.go:163-173). `gaugeUnregistered` and
        `histogramUnregistered` are the answers the metrics registerer gives
        when asked to unregister each metric; `calls` lists the requests made,
        in order. */
    method Shutdown(gaugeUnregistered: bool, histogramUnregistered: bool) returns (failed: bool, calls: seq<Metric>)
      ensures !hasRegisterer ==> !failed && calls == []
      ensures hasRegisterer ==> (failed <==> !(gaugeUnregistered && histogramUnregistered))
      ensures hasRegisterer ==> calls == if gaugeUnregistered then [PendingPolls, PollDuration] else [PendingPolls]
    {
      if !hasRegisterer {
        return false, [];
      }
      calls := [PendingPolls];
      if gaugeUnregistered {
        calls := calls + [PollDuration];
        if histogramUnregistered {
          return false, calls;
        }
      }
      return true, calls;
    }
  }

  /** An illustrative round that finishes once every queried validator has
      voted or been dropped; its result is the bag of votes. */
  datatype WaitAll = WaitAll(waiting: ShortSet, votes: Bag)

  function WaitAllNew(vdrs: ShortSet): WaitAll
  {
    WaitAll(vdrs, multiset{})
  }

  function WaitAllVote(p: WaitAll, vdr: ShortID, vote: ID): WaitAll
  {
    if vdr in p.waiting then WaitAll(p.waiting - {vdr}, p.votes + multiset{vote}) else p
  }

  function WaitAllDrop(p: WaitAll, vdr: ShortID): WaitAll
  {
    if vdr in p.waiting then WaitAll(p.waiting - {vdr}, p.votes) else p
  }

  predicate WaitAllFinished(p: WaitAll)
  {
    p.waiting == {}
  }

  function WaitAllResult(p: WaitAll): Bag
  {
    p.votes
  }

  function WaitAllBehaviour(): Behaviour<WaitAll>
  {
    Behaviour(WaitAllNew, WaitAllVote, WaitAllDrop, WaitAllFinished, WaitAllResult)
  }

  /** A client of the registry: round 7 is sent to A, B and C; a second Add
      of 7 is refused; the first vote leaves it open; the third resolves it
      with all three votes; a late vote for 7 is ignored. */
  method RoundSevenScenario(a: ShortID, b: ShortID, c: ShortID, v: ID)
    returns (added: bool, duplicate: bool, firstResolved: bool, result: Bag, resolved: bool, lateResolved: bool, pending: int)
    requires a != b && b != c && a != c
    ensures added && !duplicate && !firstResolved
    ensures resolved && result == multiset{v, v, v}
    ensures !lateResolved && pending == 0
  {
    var s := new Set(WaitAllBehaviour(), true);
    added := s.Add(7, {a, b, c});
    duplicate := s.Add(7, {a});
    assert s.polls[7] == WaitAll({a, b, c}, multiset{});
    var ignored;
    assert WaitAllVote(WaitAll({a, b, c}, multiset{}), a, v) == WaitAll({b, c}, multiset{v}) by {
      assert {a, b, c} - {a} == {b, c};
      assert multiset{} + multiset{v} == multiset{v};
    }
    ignored, firstResolved := s.Vote(7, a, v);
    assert WaitAllVote(WaitAll({b, c}, multiset{v}), b, v) == WaitAll({c}, multiset{v, v}) by {
      assert {b, c} - {b} == {c};
      assert multiset{v} + multiset{v} == multiset{v, v};
    }
    ignored, resolved := s.Vote(7, b, v);
    assert WaitAllVote(WaitAll({c}, multiset{v, v}), c, v) == WaitAll({}, multiset{v, v, v}) by {
      assert {c} - {c} == {};
      assert multiset{v, v} + multiset{v} == multiset{v, v, v};
    }
    result, resolved := s.Vote(7, c, v);
    ignored, lateResolved := s.Vote(7, a, v);
    pending := s.Len();
  }
}
