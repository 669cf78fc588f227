# Kasync in Dafny

This project models Kasync, a Swift toolkit of suspension-based
synchronisation primitives, and proves properties of that model. It covers:

- `Gate`, the many-to-many matching channel:
  - producers offer supplies and consumers post demands carrying a `Spec`;
  - a matching pass opens transmissions from supplies to demands, under one of three
    queue modes (cumulative, retainable, transient) and four delivery schemes
    (unicast, broadcast, multicast, anycast);
  - a producer is resumed with the aggregate of its consumers' replies;
  - `seal`, discard, cancel, attach and detach are modelled too.
- The counting `Semaphore`, the cyclic `Barrier` and the admission `Sluice`.
- The `Spec` predicate combinators.
- The array and optional helpers of `Utils.swift`.
- The retry-with-backoff `Fuse`.

Each critical section that the code runs under the instance's lock is a step
from one state to the next. Where a public operation takes the lock more than
once, the model merges its sections into one step (see "## Left out"):

- The state is a datatype (`GateState`, `SemaphoreState`, `BarrierState`,
  `SluiceState`).
- Each step is a function (`ProduceStep`, `AwaitStep`, `EnterStep`, …).
- Each Swift class becomes a Dafny class that updates its fields in place. Its
  methods are proved to take exactly those steps:
  `ensures State() == Step(old(State()))`.

A suspended party is a continuation. In the model:

- The continuation dictionaries become sets of pending ids; arrays of
  continuations become sequences of ids.
- Resuming a continuation appends an event to a `log` field, so the log records
  which parties were resumed, in order and with what.
- The properties are lemmas about the step functions.

Where Swift iterates a dictionary, the order is unspecified. The method then
chooses an order and returns it as a ghost out-parameter, with
`Enumerates(order, keys)`. The step function takes that order as an argument.

Module layout, one per Swift file:

| module | file | contents |
|---|---|---|
| `Utils` | `utils.dfy` | array and optional helpers |
| `Specs` | `spec.dfy` | spec combinators |
| `Suspension` | `suspension.dfy` | the shared errors, results and resume events |
| `Semaphores` | `semaphore.dfy` | the semaphore |
| `Barriers` | `barrier.dfy` | the barrier |
| `Sluices` | `sluice.dfy` | the sluice |
| `Retry` | `fuse.dfy` | the fuse |
| `GateModel` | `gate_model.dfy` | the Gate's state and steps |
| `GateProperties` | `gate_properties.dfy` | the Gate's lemmas |
| `Gates` | `gates.dfy` | the `Gate` class |

## Model

| member | source | states |
|---|---|---|
| Utils.FirstIndex | Sources/Kasync/Utils.swift:56 | the index found satisfies the predicate and no earlier element does; none is found exactly when no element satisfies it |
| Utils.PopFirst | Sources/Kasync/Utils.swift:47-53 | nil exactly on an empty array, which is left unchanged; otherwise the head is returned and the tail remains |
| Utils.RemoveFirstWhere | Sources/Kasync/Utils.swift:55-58 | nil exactly when no element satisfies the predicate, with the array unchanged; otherwise the first satisfying element is returned and removed, and everything else stays in order |
| Utils.RemoveFirstWhereMultiset | Sources/Kasync/Utils.swift:55-58 | removal loses nothing: the old contents are the new contents plus the removed element |
| Utils.RemoveFirstWhereSubseq | Sources/Kasync/Utils.swift:55-58 | what remains after a removal is a subsequence of the array |
| Utils.Remove | Sources/Kasync/Utils.swift:35-41 | returns true exactly when the element occurs; then its first occurrence is removed (as a multiset the array loses exactly one copy), otherwise the array is unchanged |
| Utils.LetNotNil | Sources/Kasync/Utils.swift:15-18 | nil stays nil; otherwise the result is the operation applied to the unwrapped value |
| Utils.LetNotNilInout | Sources/Kasync/Utils.swift:21-24 | the caller's optional is left as it was (the operation mutates a copy); the result is nil for nil and otherwise the operation's result |
| Utils.LetNotNilOr | Sources/Kasync/Utils.swift:27-30 | the default for nil, otherwise the operation applied to the unwrapped value |
| Utils.Partition | Sources/Kasync/Gate.swift:466 | `partition(by:)`: a permutation of the input whose first part fails the predicate and whose second part satisfies it |
| Utils.PartitionInPlace | Sources/Kasync/Gate.swift:466 | the two-index swapping loop of `partition(by:)` on an array leaves exactly `Partition`'s result and returns its pivot |
| Utils.PartitionParts | Sources/Kasync/Gate.swift:732 | the two parts together hold the input's elements; an element is in the first part iff it fails the predicate, in the second iff it satisfies it |
| Utils.PartitionReordersSecondPart | Sources/Kasync/Gate.swift:466 | the partition is not stable: `[1, 2, 3]` split on `x != 3` becomes `[3, 2, 1]` with pivot 1, reversing the second part |
| Specs.Spec.And | Sources/Kasync/Spec.swift:23-25 | the conjunction holds exactly where both specs hold |
| Specs.Spec.Or | Sources/Kasync/Spec.swift:27-29 | the disjunction holds exactly where either spec holds |
| Specs.Spec.Not | Sources/Kasync/Spec.swift:31-33 | the negation holds exactly where the spec does not |
| Specs.TSpecEvaluatesClosure | Sources/Kasync/Spec.swift:37-50 | a closure spec evaluates exactly its closure |
| Specs.ConstantSpecs | Sources/Kasync/Spec.swift:76-90 | `TrueSpec` accepts every value and `FalseSpec` rejects every value |
| Specs.DoubleNegation | Sources/Kasync/Spec.swift:68-74 | negating twice is satisfied by the same values |
| Specs.DeMorgan | Sources/Kasync/Spec.swift:52-74 | `a.and(b).not()` and `a.not().or(b.not())` agree on every value |
| Suspension.ResolveAll | Sources/Kasync/Semaphore.swift:95-97 | resuming a queue resumes each id in queue order with the same result |
| Suspension.ResumeEach | Sources/Kasync/Barrier.swift:54-56 | the loop resuming every stored continuation produces exactly the in-order resumptions of the queue |
| Semaphores.ResolveReleasesOldestFirst | Sources/Kasync/Semaphore.swift:106-112 | releasing is FIFO: exactly the first min(queue length, free permits) waiters are resumed successfully, in order, one permit each |
| Semaphores.ResolveSettles | Sources/Kasync/Semaphore.swift:106-112 | after releasing, either nobody waits or no permit is free, and the queue shrank by the number released |
| Semaphores.AwaitPassesWithFreePermit | Sources/Kasync/Semaphore.swift:62-73 | an enabled semaphore with a free permit and no waiters lets `await` through at once, consuming one permit |
| Semaphores.AwaitSuspendsWithoutPermit | Sources/Kasync/Semaphore.swift:62-73 | without a free permit an enabled `await` only joins the tail of the queue |
| Semaphores.DisabledAwaitResumesTwice | Sources/Kasync/Semaphore.swift:65-66 | on a disabled semaphore with a free permit the same waiter's continuation is resumed twice, first with `disabledSemaphore`, then by the release; a checked continuation traps on that second resume |
| Semaphores.DisabledAwaitStaysQueued | Sources/Kasync/Semaphore.swift:65-66 | a disabled `await` without a permit leaves the already failed waiter queued, so a later release or reset resumes its continuation a second time, which traps |
| Semaphores.SignalAddsPermits | Sources/Kasync/Semaphore.swift:75-89 | `signal(permits: n)` adds n permits and then releases the oldest waiters the new count allows |
| Semaphores.StepsKeepSettled | Sources/Kasync/Semaphore.swift:62-112 | `await`, `signal` and `reset` each leave no waiter queued while a permit is free |
| Semaphores.Semaphore.constructor | Sources/Kasync/Semaphore.swift:40-44 | starts with the initial permits, no waiters and the given enabled flag |
| Semaphores.Semaphore.Await | Sources/Kasync/Semaphore.swift:62-73 | takes exactly the `await` step and keeps the semaphore settled |
| Semaphores.Semaphore.CancelAwait | Sources/Kasync/Semaphore.swift:68-70 | cancellation resets the whole semaphore with `resetSemaphore` |
| Semaphores.Semaphore.Signal | Sources/Kasync/Semaphore.swift:75-81 | one more permit then a release, or `disabledSemaphore` with nothing changed |
| Semaphores.Semaphore.SignalPermits | Sources/Kasync/Semaphore.swift:83-89 | n more permits then a release, or `disabledSemaphore` with nothing changed |
| Semaphores.Semaphore.Reset | Sources/Kasync/Semaphore.swift:91-100 | every waiter fails with the error, the queue empties, and the permits and enabled flag are restored |
| Semaphores.Semaphore.ResolveContinuations | Sources/Kasync/Semaphore.swift:106-112 | the release loop takes exactly the release step |
| Barriers.StepsKeepBalanced | Sources/Kasync/Barrier.swift:34-82 | every step keeps the countdown equal to the number of queued waiters and below the party count |
| Barriers.AwaitReleasesAllAtThreshold | Sources/Kasync/Barrier.swift:34-43 | the `await` that reaches the party count releases every waiter (itself last) at once and disables a manual barrier; any other `await` only queues |
| Barriers.SinglePartyPassesThrough | Sources/Kasync/Barrier.swift:70-82 | with one party every `await` is released as soon as it registers |
| Barriers.ManualReleaseDisables | Sources/Kasync/Barrier.swift:70-82 | after a manual release later `await`s pass without queuing, until a reset re-enables the barrier |
| Barriers.SignalReleasesEveryone | Sources/Kasync/Barrier.swift:45-50 | `signal` releases every queued waiter and restarts the count |
| Barriers.Barrier.constructor | Sources/Kasync/Barrier.swift:29-32 | starts enabled with no waiters and a zero countdown |
| Barriers.Barrier.Await | Sources/Kasync/Barrier.swift:34-43 | a disabled barrier returns at once; otherwise the waiter registers and the countdown is dispatched |
| Barriers.Barrier.CancelAwait | Sources/Kasync/Barrier.swift:37-39 | cancellation resets the whole barrier with a cancellation error |
| Barriers.Barrier.Signal | Sources/Kasync/Barrier.swift:45-50 | forces the count to the threshold and dispatches |
| Barriers.Barrier.Reset | Sources/Kasync/Barrier.swift:52-61 | fails every waiter with the error, restarts the count and enables |
| Barriers.Barrier.AddContinuation | Sources/Kasync/Barrier.swift:63-68 | appends the waiter and counts it |
| Barriers.Barrier.DispatchCountdown | Sources/Kasync/Barrier.swift:70-82 | at the threshold releases everyone, restarts the count and disables a manual barrier |
| Sluices.DispatchAdmitsOldestOnly | Sources/Kasync/Sluice.swift:79-87 | a dispatch admits the oldest queued caller, exactly when there is room and that caller still waits, and admits nobody else |
| Sluices.StepsKeepBounded | Sources/Kasync/Sluice.swift:32-99 | no step lets more callers in than the capacity |
| Sluices.DispatchKeepsResumedAtMostOnce | Sources/Kasync/Sluice.swift:79-87 | a dispatch resumes no caller twice |
| Sluices.StepsKeepResumedAtMostOnce | Sources/Kasync/Sluice.swift:32-52 | every caller is resumed at most once, whether admitted or cancelled, given fresh enter ids |
| Sluices.CancelledPassStrandsNextCaller | Sources/Kasync/Sluice.swift:79-87 | a cancelled caller's pass stays queued; the `exit` that reaches it admits nobody, although a live caller waits behind it with room free |
| Sluices.Sluice.constructor | Sources/Kasync/Sluice.swift:22-24 | starts empty with the given capacity |
| Sluices.Sluice.Enter | Sources/Kasync/Sluice.swift:32-47 | stores the continuation, queues the pass and dispatches |
| Sluices.Sluice.CancelEnter | Sources/Kasync/Sluice.swift:38-40 | removes and fails the caller's continuation; its pass stays queued |
| Sluices.Sluice.Exit | Sources/Kasync/Sluice.swift:49-52 | decrements the counter and dispatches |
| Sluices.Sluice.DispatchPass | Sources/Kasync/Sluice.swift:79-87 | takes exactly the dispatch step |
| Sluices.Sluice.Synchronized | Sources/Kasync/Sluice.swift:106-111 | a failed enter is rethrown without `exit`; otherwise the closure's outcome is returned and `exit` runs |
| Retry.Fuse.Fibonacci | Sources/Kasync/Fuse.swift:62-71 | the loop returns the n-th Fibonacci number |
| Retry.Fuse.Timeout | Sources/Kasync/Fuse.swift:51-60 | the delay after attempt n is `factor` (linear), `factor * fib(n)` (Fibonacci) or `factor * e^n` (exponential) |
| Retry.Fuse.Protected | Sources/Kasync/Fuse.swift:35-49 | runs at least once and at most `max(tryLimit, 1)` times; stops on success, on a cancellation error or at the limit; every earlier attempt failed with a non-cancellation error, and each one is followed by its backoff delay |
| GateModel.EndTransmissionsSplits | Sources/Kasync/Gate.swift:464-472 | ending a producer's transmissions splits them by producer and loses none |
| GateModel.CollectRepliesSplits | Sources/Kasync/Gate.swift:730-738 | collecting replies splits them by consumer and loses none |
| GateModel.DiscardProducerStep | Sources/Kasync/Gate.swift:313-321 | drops the producer's first queued supply and, if the producer is pending, fails it once with `discardedProducer`; nothing else changes |
| GateModel.Evict | Sources/Kasync/Gate.swift:696-700 | eviction ends below capacity, keeps the survivors in order and touches only the queue, the pending producers and the log; nothing is evicted when there is room |
| GateModel.EnqueueSupplyStep | Sources/Kasync/Gate.swift:694-703 | the new supply is queued last, the queue stays within capacity and the survivors keep their order |
| GateModel.DemandLoop | Sources/Kasync/Gate.swift:563-579 | the demand loop changes only demands, pending consumers, transmissions and log; it only removes demands and only appends transmissions |
| GateModel.PassOne | Sources/Kasync/Gate.swift:541-582 | handling one dequeued supply keeps the queue's order, only appends transmissions and leaves replies, attachments, discard flags and the seal alone |
| GateModel.Requeue | Sources/Kasync/Gate.swift:584-586 | re-enqueuing the retained supplies keeps the queue within capacity and only appends them when they fit |
| GateModel.Pass | Sources/Kasync/Gate.swift:537-588 | a whole pass leaves the queue within capacity, only appends transmissions and leaves replies, attachments, discard flags and the seal alone |
| GateModel.Aggregate | Sources/Kasync/Gate.swift:599-621 | the producer fails exactly when some reply failed, and then with the first failure; otherwise it gets the first output (unicast, anycast), or the combined or last output (multicast, broadcast) |
| GateModel.CollectedFor | Sources/Kasync/Gate.swift:595-597 | a producer whose replies are all ready has at least one reply to aggregate |
| GateModel.ReadyProducerHasReplies | Sources/Kasync/Gate.swift:628-636 | `allRepliesAreReady` guarantees that the collected replies are not empty, so the forced unwraps of the first or last output are safe |
| GateModel.ResolveProducerStep | Sources/Kasync/Gate.swift:594-622 | a ready producer is removed and resumed once with the aggregate of its consumers' replies; only transmissions and replies change besides |
| GateModel.FinishOne | Sources/Kasync/Gate.swift:592-623 | a round resumes a producer only if it is pending and ready, and removes it; otherwise it changes nothing |
| GateModel.AddReplyStep | Sources/Kasync/Gate.swift:450-456 | a reply is recorded only for a consumer with an open transmission, otherwise ignored |
| GateProperties.EvictFailsOnlyEvictedProducers | Sources/Kasync/Gate.swift:694-703 | eviction only appends `discardedProducer` failures, each of a pending producer it removes |
| GateProperties.EvictFailsOldestFirst | Sources/Kasync/Gate.swift:696-700 | on a full queue the oldest supply's pending producer is the first one failed |
| GateProperties.DemandLoopTransmits | Sources/Kasync/Gate.swift:563-579 | each new transmission comes from the supply's producer and goes to a pending consumer (under unicast, the producer's namesake), and is matched in order by that consumer's resumption with the input |
| GateProperties.DemandLoopConsumes | Sources/Kasync/Gate.swift:563-582 | the supply counts as consumed exactly when a transmission opened; unicast and anycast open at most one; without a transmission nobody is resumed |
| GateProperties.DemandLoopHonoursDemands | Sources/Kasync/Gate.swift:684-692 | every consumer transmitted to had a queued demand accepting the supply |
| GateProperties.MulticastConsumesEveryAcceptingDemand | Sources/Kasync/Gate.swift:575-576 | under multicast and broadcast no queued demand accepting the supply survives the loop |
| GateProperties.SingleCastTakesEarliestDemand | Sources/Kasync/Gate.swift:572-574 | under unicast and anycast the earliest accepting demand's pending consumer alone receives the supply, and only that demand leaves the queue |
| GateProperties.ModeRules | Sources/Kasync/Gate.swift:542-562 | cumulative retains a supply nobody accepts; retainable discards its producer; transient discards it unless an accepting consumer has no open transmission; under broadcast a supply past that check (every mode) is retained until every accepting consumer has a demand queued |
| GateProperties.TransientIsStricter | Sources/Kasync/Gate.swift:644-662 | a nontransmitting accepting consumer is an accepting consumer, so transient admits no more than retainable |
| GateProperties.PassOneRetainsOrSpends | Sources/Kasync/Gate.swift:541-582 | a retained supply resumed nobody and opened nothing; a spent one either discarded its producer or opened a transmission |
| GateProperties.PassKeepsRelativeOrder | Sources/Kasync/Gate.swift:537-588 | after a pass the queue is a subsequence of the retained supplies followed by the queue: nothing is duplicated or reordered |
| GateProperties.RequeueKeepsOrder | Sources/Kasync/Gate.swift:584-586 | re-enqueuing keeps the queue a subsequence of the old queue followed by the retained supplies |
| GateProperties.StartTransmissionsKeepsOrder | Sources/Kasync/Gate.swift:537-588 | a matching pass never grows the supply queue and keeps its survivors in order; on a queue within capacity the queue afterwards is exactly the supplies the pass kept |
| GateProperties.PassRequeuesKept | Sources/Kasync/Gate.swift:537-588 | when the retained supplies and the rest of the queue fit the capacity, the queue after the pass is exactly the kept supplies, in dequeue order |
| GateProperties.KeptInQueueOrder | Sources/Kasync/Gate.swift:542-582 | the supplies a pass keeps are taken from the retained ones and the queue in order, each at most once |
| GateModel.Kept | Sources/Kasync/Gate.swift:542-582 | the supplies a pass keeps start with the already retained ones and number at most those plus the queue |
| GateProperties.RepliesBackedWhenTransmissionsGrow | Sources/Kasync/Gate.swift:458-462 | opening transmissions keeps every reply backed by an open transmission |
| GateProperties.ResolveProducerEndsItsTransmissions | Sources/Kasync/Gate.swift:594-597 | resolving a producer ends exactly its transmissions and takes exactly the replies of its consumers |
| GateProperties.ResolveProducerKeepsRepliesBacked | Sources/Kasync/Gate.swift:594-597 | after a resolution every remaining reply still has an open transmission |
| GateProperties.FinishStepsKeepConsistent | Sources/Kasync/Gate.swift:590-626 | finishing producers in any order keeps the gate consistent and leaves the supply queue alone |
| GateProperties.ProduceKeepsConsistent | Sources/Kasync/Gate.swift:415-428 | `produce` keeps the queue within capacity and every reply backed |
| GateProperties.ConsumeKeepsConsistent | Sources/Kasync/Gate.swift:430-448 | `consume` keeps the queue within capacity and every reply backed |
| GateProperties.RespondKeepsConsistent | Sources/Kasync/Gate.swift:450-456 | `respond` keeps the gate consistent whatever order the producers are visited in |
| GateProperties.DiscardKeepsConsistent | Sources/Kasync/Gate.swift:313-334 | discarding a producer or a consumer keeps the gate consistent |
| GateProperties.CancelKeepsConsistent | Sources/Kasync/Gate.swift:422-444 | cancelling a producer or a consumer keeps the gate consistent |
| GateProperties.AttachmentKeepsConsistent | Sources/Kasync/Gate.swift:493-504 | attaching and detaching keep the gate consistent |
| GateProperties.SealKeepsConsistent | Sources/Kasync/Gate.swift:291-307 | sealing keeps the gate consistent |
| GateProperties.RespondWithoutTransmissionIgnored | Sources/Kasync/Gate.swift:450-456 | a reply from a consumer without an open transmission changes nothing |
| GateProperties.FinishResolvesOnlyReadyProducers | Sources/Kasync/Gate.swift:590-626 | finishing only appends producer resumptions, each of a pending producer that it removes, so each is resumed at most once |
| GateProperties.SealFailsEveryPendingParty | Sources/Kasync/Gate.swift:291-307 | sealing records the error, clears every queue and fails each pending consumer and producer exactly once with it |
| GateProperties.SealedGateRejects | Sources/Kasync/Gate.swift:740-746 | after a seal, `produce` and `consume` throw the seal error and change nothing |
| GateProperties.DiscardPendingConsumer | Sources/Kasync/Gate.swift:323-334 | discarding a pending consumer fails it with `discardedConsumer` and drops its first demand, without flagging it |
| GateProperties.DiscardFlagFailsNextConsumeOnce | Sources/Kasync/Gate.swift:434-438 | an attached consumer that is not waiting is flagged by a discard; its next `consume` fails once with `discardedConsumer` and clears the flag |
| GateProperties.DetachClearsFlag | Sources/Kasync/Gate.swift:499-504 | detaching removes the attachment and the discard flag |
| Gates.Gate.constructor | Sources/Kasync/Gate.swift:276-279 | an empty, unsealed gate with the given mode and scheme |
| Gates.Gate.Seal | Sources/Kasync/Gate.swift:291-307 | takes the seal step, failing the pending parties in the dictionaries' order |
| Gates.Gate.FailConsumers | Sources/Kasync/Gate.swift:297-300 | fails every pending consumer once with the error |
| Gates.Gate.FailProducers | Sources/Kasync/Gate.swift:301-304 | fails every pending producer once with the error |
| Gates.Gate.DiscardProducer | Sources/Kasync/Gate.swift:313-321 | takes exactly the discard step for producers |
| Gates.Gate.DiscardConsumer | Sources/Kasync/Gate.swift:323-334 | takes exactly the discard step for consumers |
| Gates.Gate.Produce | Sources/Kasync/Gate.swift:415-428 | throws the seal error, or registers the producer, enqueues its supply and runs a matching pass |
| Gates.Gate.Consume | Sources/Kasync/Gate.swift:430-448 | throws the seal error, fails a flagged consumer once, or registers the consumer, enqueues its demand and runs a matching pass |
| Gates.Gate.CancelProducer | Sources/Kasync/Gate.swift:422-424 | fails a pending producer with `canceledProducer` |
| Gates.Gate.CancelConsumer | Sources/Kasync/Gate.swift:442-444 | fails a pending consumer with `canceledConsumer` |
| Gates.Gate.Respond | Sources/Kasync/Gate.swift:450-456 | records the reply of a transmitting consumer and finishes whatever producers are ready |
| Gates.Gate.AddReply | Sources/Kasync/Gate.swift:723-728 | stores the reply, then finishes the ready producers |
| Gates.Gate.Attach | Sources/Kasync/Gate.swift:493-497 | records the consumer's input spec |
| Gates.Gate.Detach | Sources/Kasync/Gate.swift:499-504 | removes the attachment and one discard flag |
| Gates.Gate.EnqueueSupply | Sources/Kasync/Gate.swift:694-703 | the eviction loop followed by the append takes exactly the enqueue step |
| Gates.Gate.StartTransmissions | Sources/Kasync/Gate.swift:537-588 | the matching loops take exactly the pass step |
| Gates.Gate.TransmitOrRetain | Sources/Kasync/Gate.swift:542-582 | the body of the outer loop takes exactly the one-supply step |
| Gates.Gate.RunDemandLoop | Sources/Kasync/Gate.swift:563-579 | the demand loop takes exactly the demand-loop step |
| Gates.Gate.FinishTransmissions | Sources/Kasync/Gate.swift:590-626 | visits every pending producer once, in the dictionary's order, resolving the ready ones |
| Gates.Gate.ResolveProducer | Sources/Kasync/Gate.swift:594-622 | takes exactly the resolution step of one ready producer |
| Gates.Gate.AggregateReplies | Sources/Kasync/Gate.swift:599-621 | the reply loop returns exactly the aggregate: the first failure, or the scheme's choice of outputs |

## Left out

- Locking, threads and `[weak self]`:
  - every locked operation is one atomic step;
  - a continuation resumed through a released instance is not modelled;
  - the race between a cancellation handler and a resolution elsewhere is not
    modelled. Handlers are separate steps (`CancelAwait`, `CancelEnter`,
    `CancelProducer`, `CancelConsumer`).
- Suspension and `withCancellableCheckedThrowingContinuation` itself. A
  suspension is its registration, and a resumption is a log entry.
- Random ids. `Sluice.enter` draws a random `UInt64` id, and the Gate's wrappers
  use caller-supplied ids. In the model every id is a parameter.
- Locks taken more than once per operation. The model merges each of these into
  one atomic step, and the lemmas named hold only for that merged step:
  - `Barrier.await` checks `enabled` under the lock (Barrier.swift:35), then
    adds the continuation and dispatches the countdown in separate sections
    (40-41). A `reset` in between queues a waiter on a disabled barrier, and
    several waiters may be added before one dispatch, so the countdown can
    exceed the party count. `Barriers.ManualReleaseDisables` and
    `Barriers.StepsKeepBalanced` do not cover those interleavings.
  - `Sluice.enter` adds the continuation, queues the pass and dispatches in
    three sections (Sluice.swift:42-44); `exit` decrements and dispatches in two
    (50-51). `Sluices.StepsKeepBounded` and `Sluices.StepsKeepResumedAtMostOnce`
    are stated for the merged steps.
  - The Gate's `produce` and `consume` call `checkSeal()` (Gate.swift:416, 431)
    in a section of its own before the transaction. A `seal` in between
    registers a party on a sealed gate, which `GateProperties.SealedGateRejects`
    does not cover.
- Integer width. Permits, counters and countdowns are unbounded integers; Swift's
  `Int` overflow trap is not modelled.
- `Retry.Fuse.Fibonacci`: the Swift loop computes in `Int`, which traps once
  fib(n) passes `Int.max` (from n = 93); the model's integers are unbounded.
- `Retry.Fuse.Protected`: the delay is converted with
  `UInt64(timeout * 1000_000_000)` (Fuse.swift:46), which traps once the delay
  is negative (a negative `factor`) or exceeds about 1.8e10 seconds (for Fibonacci backoff with factor 1, from about
  n = 51); the model keeps the delay as an exact real.
- Floating point, `exp` and sleeping in `Fuse.swift`:
  - delays are exact reals;
  - the exponential backoff is the symbolic `FactorTimesExp(factor, n)`;
  - `Task.sleep` is not performed, so the sleeps become the returned list of delays;
  - a cancellation thrown by the sleep itself is not modelled.
- `Retry.Fuse.Protected`: the block is modelled by its outcome on each attempt
  (`block(k)`), not by running an async closure.
- `Utils.LetNotNil`, `Utils.LetNotNilInout` and `Utils.LetNotNilOr`:
  - an operation that throws (the `rethrows` path) is not modelled;
  - the `default:` autoclosure is a plain value.
- `GateModel.Aggregate`: the replies reach it in the order `partition(by:)`
  leaves them, which is not the order they were given. `Utils.Partition` models
  the standard library's swapping algorithm exactly, so the model's "first
  failure" and "last output" are those of that order. The algorithm is the
  standard library's, not part of Kasync.
- The Gate's public wrappers are not modelled:
  - `send`, `process`, `receive`, the streaming `sender`/`processor`/`receiver`
    and the `Confined*` types;
  - the `Source`/`Drain` extensions and `debugDescription`.

  Their core (`produce`, `consume`, `respond`, `attachConsumerId`,
  `detachConsumerId`) is modelled.
- Unused Gate helpers: `dequeueSupply(spec:)` and `hasConsumerContinuation` are
  never called by the modelled operations.
- The Semaphore and Barrier query helpers are not modelled: `availablePermits`,
  `awaitingParties`, `isEnabled` and `withTransaction`.
- Other source files are not part of this model: `Mutex.swift`, `Misc.swift`,
  `Atomic.swift`, `AtomicReference.swift`, `UncheckedReference.swift` and
  `AnyAsyncSequence.swift`. `Mutex` calls a `restricted` method that
  `Sluice.swift` does not define.
- Gate capacity. `Gates.Gate.constructor` requires `capacity >= 1`: with a
  smaller capacity `enqueueSupply` loops forever popping an empty queue.
- Cancellation in the Gate: the code fails the cancelled party but leaves its
  supply or demand queued. A later pass drops the dead demand and may still
  transmit the orphaned supply.
- Disabled semaphore: `Semaphores.Semaphore.Await` follows the code. A disabled
  semaphore fails the waiter and still queues it, so its continuation can be
  resumed a second time (`DisabledAwaitResumesTwice`, `DisabledAwaitStaysQueued`).
  The continuation is a `CheckedContinuation`, and a second resume traps at run
  time; the model records both resumptions in the log and does not model the trap.
- Reused party ids in the Gate: registering a producer or consumer id that is
  already pending overwrites the stored continuation (Gate.swift:482, 526), so
  the earlier caller is never resumed. The model keeps pending parties as sets
  of ids (`producers + {pid}`, `consumers + {cid}`), which merges the two callers
  into one and does not show the stranded one.
- `Sluices.Sluice.Synchronized` takes the outcome of `enter` as a parameter.
  `enter` ends with `Task.checkCancellation()`, so a caller that is admitted and
  then observes cancellation throws without `exit`. The model covers this only
  as an `entered` error; it does not tie that error to the admission step.
- Cancelled sluice pass: `Sluices.Sluice.CancelEnter` follows the code. The
  cancelled caller's pass stays queued, and `dispatchPass` drops it without trying
  the next one (`CancelledPassStrandsNextCaller`).
- Passes not re-run: discard, attach and detach do not start a matching pass in
  the code, and the model does not add one.
