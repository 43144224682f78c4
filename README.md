# Poll registry and connectivity awaiter of the avalanchego consensus engine

This project models two small stateful components of the snowman consensus
engine and proves properties of them in Dafny.

- **The poll registry** (`set` in `snow/engine/snowman/poll/set.go`, module
  `Poll`). It is a map from a 32-bit request ID to an in-flight poll, plus a
  "pending polls" gauge. `Add` opens a round through the poll factory and
  refuses a request ID that is already outstanding. `Vote` and `Drop` pass
  input to the addressed round. When that round reports that it has finished,
  they remove it and return its result. Unknown or already-resolved request
  IDs are ignored. `Len` counts the rounds, and `Shutdown` unregisters the two
  metrics.
- **The connectivity awaiter** (`awaitConnected` in `chains/awaiter.go`,
  module `Chains`). It keeps a running 64-bit total of the stake of connected
  validators. `Connected` adds a validator's weight with overflow checking. It
  answers true, and starts the callback, when the addition overflowed or the
  total reached the required weight. `Disconnected` sets the total to the
  validator's weight minus the total, clamped to 0 (see below).

Shared types are in `Ids` (`ids.dfy`). The checked 64-bit helpers
`Add64`/`Sub64` are in `Math` (`math.dfy`) and are given by contract.

The poll and the factory are capabilities whose code is not part of this
model. They are the function values of `Poll.Behaviour`, over a round state
`P`: `New`, `Vote`, `Drop`, `Finished` and `Result`. The registry is stated
twice:

- as values: `Registry`, with `AddStep`, `VoteStep` and `DropStep`, plus the
  sequence-of-calls functions `Step`, `Run`, `Opened` and `Resolved`;
- as the class `Poll.Set`, whose `polls` map and `numPolls` gauge are updated
  in place. `Add`, `Vote` and `Drop` are each proved equal to the matching
  step function. `Len` and `Shutdown` have no step function: their contracts
  state their results directly.

The awaiter is the class `Chains.AwaitConnected`. Its `weight` field is
overwritten by each call. `launched` counts how many times the callback was
started. The validator set is an immutable map from node ID to weight.

## Where the code does something a reader may not expect

The model follows the code in each of these cases.

- A reader may expect the callback to fire once. It has no once-only guard:
  every `Connected` call that meets the condition starts it again (`awaiter.go:37-42`). `ThresholdScenario` shows
  it being started twice.
- `Disconnected` computes `Sub64(vdr.Weight(), a.weight)`: the validator's
  weight minus the running total (`awaiter.go:51`). The comment at
  `awaiter.go:47-50` suggests the total minus the validator's weight. As
  written, the total becomes 0 whenever it exceeded the validator's weight
  (`DisconnectedWeight`). It is never more than that validator's weight
  (`DisconnectedAtMostOwnWeight`). A connect that does not overflow, followed
  by a disconnect of the same validator, leaves 0 (`ConnectThenDisconnect`).
- `Add` does not ask a new round whether it has already finished. A round the
  factory creates finished stays registered until a vote or drop arrives for
  it (`FinishedAtCreationStays`). When the factory never creates a finished
  round, no finished round is ever left registered, after any sequence of
  calls (`RunKeepsOpen`).
- A request ID is free again once its round is resolved. A later `Add` with
  that ID opens a new round (`AddStep`). Until such an `Add`, every vote or
  drop for that ID is ignored (`ClosedStaysClosed`).

## Model

| member | source | states |
|---|---|---|
| Math.Add64 | chains/awaiter.go:33-37 | The overflow flag is set exactly when the true sum exceeds 2^64-1. Without overflow the result is the sum. On overflow the value is left unspecified. |
| Math.Sub64 | chains/awaiter.go:47-51 | The error flag is set exactly when `a < b`, and the value is then 0. Otherwise value + b == a. |
| Poll.AddStep | snow/engine/snowman/poll/set.go:72-88 | Refused exactly when the ID is outstanding, and then nothing changes. Otherwise the ID maps to `New(vdrs)`, the round count and the gauge each rise by one, and other entries are unchanged. |
| Poll.VoteStep | snow/engine/snowman/poll/set.go:92-121 | Unknown ID: (same registry, empty bag, false). Known ID: the answer is true exactly when the updated round is finished. Then its key is removed, count and gauge fall by one, and the result is `Result(p)`. Otherwise the key holds the updated round, count and gauge stay, and the bag is empty. Other entries never change. |
| Poll.DropStep | snow/engine/snowman/poll/set.go:125-149 | As `VoteStep`, but the round is updated with `Drop(vdr)`. |
| Poll.LateCallIgnored | snow/engine/snowman/poll/set.go:97-149 | After a vote or drop has resolved a round, the next vote or drop for that ID, made on the registry the resolving call left, returns (same registry, empty bag, false). |
| Poll.FinishedAtCreationStays | snow/engine/snowman/poll/set.go:82-87 | A fresh ID whose new round is already finished is still registered after `Add`, holding that finished round. |
| Poll.StepKeepsGauge | snow/engine/snowman/poll/set.go:86-147 | If the gauge equals the number of rounds, it still does after any one Add, Vote or Drop. |
| Poll.RunKeepsGauge | snow/engine/snowman/poll/set.go:86-152 | If the gauge equals the number of rounds, it still does after any sequence of calls. |
| Poll.StepConservesRound | snow/engine/snowman/poll/set.go:72-149 | A call opens a round under an ID only when none is outstanding there. It resolves one only when one is. It leaves every other ID's membership alone. |
| Poll.RoundsConserved | snow/engine/snowman/poll/set.go:72-149 | Over any sequence of calls and for any ID: rounds outstanding at the start + rounds opened = rounds resolved + rounds outstanding at the end. So no round is lost and none is resolved twice. |
| Poll.ClosedStaysClosed | snow/engine/snowman/poll/set.go:97-149 | When no round is outstanding under an ID, any sequence of calls with no `Add` for that ID resolves nothing there and leaves the ID absent. So after a round is resolved, every later vote or drop for its ID is ignored until an `Add` reopens it. |
| Poll.RunKeepsOpen | snow/engine/snowman/poll/set.go:82-148 | If every outstanding round is unfinished and the factory never creates a finished round, then after any sequence of calls every outstanding round is still unfinished. |
| Poll.Set.constructor | snow/engine/snowman/poll/set.go:34-67 | A new registry has no rounds and a zero gauge, and keeps the given factory and registerer. |
| Poll.Set.Add | snow/engine/snowman/poll/set.go:72-88 | The in-place map and gauge end as `AddStep` says, and the gauge stays equal to the number of rounds. |
| Poll.Set.Vote | snow/engine/snowman/poll/set.go:92-121 | The in-place map, gauge and answer are as `VoteStep` says, and the gauge stays equal to the number of rounds. |
| Poll.Set.Drop | snow/engine/snowman/poll/set.go:125-149 | The in-place map, gauge and answer are as `DropStep` says, and the gauge stays equal to the number of rounds. |
| Poll.Set.Len | snow/engine/snowman/poll/set.go:152 | Returns the number of outstanding rounds, which equals the gauge. |
| Poll.Set.Shutdown | snow/engine/snowman/poll/set.go:163-173 | With no registerer: success and no unregister call. Otherwise the histogram is unregistered only if the gauge was. The call fails unless both succeed. |
| Poll.RoundSevenScenario | snow/engine/snowman/poll/set.go:72-121 | With a round that waits for all three of A, B and C: `Add(7)` succeeds and a second `Add(7)` is refused. The first vote does not resolve. The third resolves with the three votes, and a late vote is ignored. |
| Chains.DisconnectedWeight | chains/awaiter.go:45-54 | An unknown validator leaves the total unchanged. For a known one the new total is its weight minus the old total, or 0 when the old total is larger. |
| Chains.DisconnectedAtMostOwnWeight | chains/awaiter.go:46-51 | After a known validator disconnects, the total is at most its weight. |
| Chains.AwaitConnected.constructor | chains/awaiter.go:20-26 | The total starts at 0 and the callback has not been started. The validator set and required weight are kept; they are constants and never change. |
| Chains.AwaitConnected.Connected | chains/awaiter.go:28-43 | Unknown validator: false and the total is unchanged. Known validator: without overflow the total becomes old total + weight. The answer is true exactly when the addition overflowed or the sum is at least the required weight. The callback is started once per true answer and never otherwise. |
| Chains.AwaitConnected.Disconnected | chains/awaiter.go:45-54 | Always false. The total becomes `DisconnectedWeight` of the old total, and the callback is not started. |
| Chains.ThresholdScenario | chains/awaiter.go:28-54 | Required weight 100, X = 60, Y = 50. X connects (false), then Y (true). X disconnects, leaving 0 rather than 50. Y connects (false), then X (true). The callback has been started twice. |
| Chains.ConnectThenDisconnect | chains/awaiter.go:28-54 | On a new awaiter, after `y` connects and `x` connects and then disconnects: if `x` is in the set and its connection did not overflow, the total is 0, not `y`'s weight. If `x` is outside the set, the total is what `y` left. |

## Left out

- Metrics are not modelled: Prometheus registration at construction (`set.go:40-57`), the duration histogram, `Observe` and `time.Now()` (`set.go:84, 118, 146`). They are foreign calls, a wall clock and a float conversion. The gauge is kept as the integer field `numPolls`, and registration failures, which are only logged, are ignored.
- `NewSet` with a nil registerer would fail in Go, because it calls `Register` on it (`set.go:45`). The constructor does not model that failure. It accepts either, so `Shutdown`'s nil branch is reachable in the model.
- Logging calls in both files are not modelled. They are diagnostics only.
- `String()` (`set.go:154-161`) is not modelled. It formats the map in Go's unspecified iteration order.
- The goroutine `go a.connected()` is not modelled as concurrency. It is the `launched` counter: one increment per start of the callback.
- The internals of `Poll`, `Factory`, `validators.Set`, `ids.Bag` and the math helpers are not part of this model. They appear only as the function values of `Behaviour`, an immutable weight map, a multiset and the contracts of `Math`.
- A round is updated as a value that is written back under its key. The Go code mutates the round through its interface, so aliasing of a round outside the registry is not captured.
- `WaitAll` is only an illustrative round used by `RoundSevenScenario`. It is not the engine's own poll implementation.
- Math.Add64: the value returned on overflow is left unspecified, because the helper's code is not part of this model.
