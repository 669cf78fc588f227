/*
 * The matching engine of `Gate` (Sources/Kasync/Gate.swift), as a state
 * record and one function per lock-guarded step.
 *
 * Producers offer supplies, consumers post demands carrying a spec; a
 * matching pass hands each supply to the consumers whose demand accepts
 * it (a transmission), and a producer is resumed once every consumer it
 * transmitted to has replied. The continuation dictionaries become the
 * sets `producers` and `consumers` of pending ids; resuming one of them
 * appends a `GateEvent` to `log`.
 */
module GateModel {
  import opened Utils
  import opened Specs
  import opened Suspension

  /** How unmatched supplies are treated; each mode carries the supply queue's capacity. */
  datatype Mode = Cumulative(capacity: int) | Retainable(capacity: int) | Transient(capacity: int)

  /** Who receives a supply, and how several replies are combined. */
  datatype Scheme<!Output> =
    | Unicast
    | Broadcast(combiner: Option<seq<Output> -> Output>)
    | Multicast(combiner: Option<seq<Output> -> Output>)
    | Anycast
  {
    /** Unicast and anycast hand a supply to one consumer at most. */
    predicate SingleCast()
    {
      Unicast? || Anycast?
    }
  }

  datatype Demand<!Input(!new)> = Demand(consumerId: Id, inputSpec: Spec<Input>)
  datatype Supply<Input> = Supply(producerId: Id, input: Input)
  datatype Reply<Output> = Reply(consumerId: Id, result: Result<Output>)
  datatype Transmission = Transmission(producerId: Id, consumerId: Id)

  /** Resumption of a pending producer (with its output) or consumer (with its input). */
  datatype GateEvent<Input, Output> =
    | ProducerResolved(producerId: Id, output: Result<Output>)
    | ConsumerResolved(consumerId: Id, input: Result<Input>)

  /** The fields of a `Gate` guarded by its lock. */
  datatype GateState<!Input(!new), Output> = GateState(
    producers: set<Id>,
    consumers: set<Id>,
    attached: map<Id, Spec<Input>>,
    discarded: seq<Id>,
    demands: seq<Demand<Input>>,
    supplies: seq<Supply<Input>>,
    replies: seq<Reply<Output>>,
    transmissions: seq<Transmission>,
    sealError: Option<Error>,
    log: seq<GateEvent<Input, Output>>)

  function InitialState<Input(!new), Output>(): GateState<Input, Output>
  {
    GateState({}, {}, map[], [], [], [], [], [], None, [])
  }

  /** Every reply belongs to a consumer that has an open transmission. */
  ghost predicate RepliesBacked<Input(!new), Output>(s: GateState<Input, Output>)
  {
    forall j :: 0 <= j < |s.replies| ==> Transmitting(s, s.replies[j].consumerId)
  }

  /** What holds of a gate between calls. */
  ghost predicate Consistent<Input(!new), Output>(mode: Mode, s: GateState<Input, Output>)
  {
    mode.capacity >= 1 && |s.supplies| <= mode.capacity && RepliesBacked(s)
  }

  /** `order` lists every id of `ids` exactly once. */
  ghost predicate Enumerates(order: seq<Id>, ids: set<Id>)
  {
    (forall i, j :: 0 <= i < j < |order| ==> order[i] != order[j])
    && (forall id :: id in order <==> id in ids)
  }

  // ---------------------------------------------------------------- queries

  /** Some open transmission goes to `cid`. */
  predicate Transmitting<Input(!new), Output>(s: GateState<Input, Output>, cid: Id)
  {
    exists i :: 0 <= i < |s.transmissions| && s.transmissions[i].consumerId == cid
  }

  /** The attached consumer `cid` accepts `supply`; under unicast it must also be the producer's namesake. */
  predicate Eligible<Input(!new), Output>(scheme: Scheme<Output>, s: GateState<Input, Output>, cid: Id, supply: Supply<Input>)
  {
    cid in s.attached && s.attached[cid].IsSatisfiedBy(supply.input)
    && (scheme.Unicast? ==> cid == supply.producerId)
  }

  /** `hasConsumerFor(supply:)`. */
  predicate HasConsumerFor<Input(!new), Output>(scheme: Scheme<Output>, s: GateState<Input, Output>, supply: Supply<Input>)
  {
    exists cid :: cid in s.attached && Eligible(scheme, s, cid, supply)
  }

  /** `hasNontransmittingConsumerFor(supply:)`. */
  predicate HasNontransmittingConsumerFor<Input(!new), Output>(scheme: Scheme<Output>, s: GateState<Input, Output>, supply: Supply<Input>)
  {
    exists cid :: cid in s.attached && Eligible(scheme, s, cid, supply) && !Transmitting(s, cid)
  }

  /** `allConsumersAreReadyFor(input:)`: every attached consumer accepting `input` has a queued demand accepting it. */
  predicate AllConsumersAreReadyFor<Input(!new), Output>(s: GateState<Input, Output>, input: Input)
  {
    forall cid :: cid in s.attached && s.attached[cid].IsSatisfiedBy(input) ==>
      exists j :: 0 <= j < |s.demands| && s.demands[j].consumerId == cid && s.demands[j].inputSpec.IsSatisfiedBy(input)
  }

  /** `allRepliesAreReady(producerId:)`: the producer has a transmission, and each has a reply from its consumer. */
  predicate AllRepliesAreReady<Input(!new), Output>(s: GateState<Input, Output>, pid: Id)
  {
    (exists i :: 0 <= i < |s.transmissions| && s.transmissions[i].producerId == pid)
    && forall i :: 0 <= i < |s.transmissions| && s.transmissions[i].producerId == pid ==>
      exists j :: 0 <= j < |s.replies| && s.replies[j].consumerId == s.transmissions[i].consumerId
  }

  /** A demand that may take `supply` (the predicate of `dequeueDemand(supply:)`). */
  predicate Accepts<Input(!new), Output>(scheme: Scheme<Output>, supply: Supply<Input>, d: Demand<Input>)
  {
    (scheme.Unicast? ==> d.consumerId == supply.producerId) && d.inputSpec.IsSatisfiedBy(supply.input)
  }

  // ------------------------------------------------------- queue helpers

  /** `dequeueSupply(producerId:)`. */
  function DequeueSupplyOf<Input>(supplies: seq<Supply<Input>>, pid: Id): (r: (seq<Supply<Input>>, Option<Supply<Input>>))
  {
    RemoveFirstWhere(supplies, (sup: Supply<Input>) => sup.producerId == pid)
  }

  /** `dequeueDemand(consumerId:)`. */
  function DequeueDemandOf<Input(!new)>(demands: seq<Demand<Input>>, cid: Id): (r: (seq<Demand<Input>>, Option<Demand<Input>>))
  {
    RemoveFirstWhere(demands, (d: Demand<Input>) => d.consumerId == cid)
  }

  /** `dequeueDemand(supply:)`: the earliest demand that accepts the supply. */
  function DequeueDemandFor<Input(!new), Output>(scheme: Scheme<Output>, demands: seq<Demand<Input>>, supply: Supply<Input>)
    : (r: (seq<Demand<Input>>, Option<Demand<Input>>))
  {
    RemoveFirstWhere(demands, (d: Demand<Input>) => Accepts(scheme, supply, d))
  }

  /**
   * `endTransactions(producerId:)`: partition the transmissions by whether
   * they are the producer's; the others stay, the producer's are returned.
   */
  function EndTransmissions(ts: seq<Transmission>, pid: Id): (r: (seq<Transmission>, seq<Transmission>))
  {
    var (b, k) := Partition(ts, (t: Transmission) => t.producerId == pid);
    (b[..k], b[k..])
  }

  /** `endTransactions` splits the transmissions by producer, losing none. */
  lemma EndTransmissionsSplits(ts: seq<Transmission>, pid: Id)
    ensures forall t :: t in EndTransmissions(ts, pid).0 <==> t in ts && t.producerId != pid
    ensures forall t :: t in EndTransmissions(ts, pid).1 <==> t in ts && t.producerId == pid
  {
    PartitionParts(ts, (t: Transmission) => t.producerId == pid);
  }

  function ConsumerIds(ts: seq<Transmission>): (r: seq<Id>)
    ensures |r| == |ts| && forall i :: 0 <= i < |ts| ==> r[i] == ts[i].consumerId
  {
    seq(|ts|, i requires 0 <= i < |ts| => ts[i].consumerId)
  }

  /**
   * `collectReplies(consumerIds:)`: partition the replies by whether they
   * come from `cids`; the others stay, those of `cids` are returned.
   */
  function CollectReplies<Output>(rs: seq<Reply<Output>>, cids: seq<Id>): (r: (seq<Reply<Output>>, seq<Reply<Output>>))
  {
    var (b, k) := Partition(rs, (x: Reply<Output>) => x.consumerId in cids);
    (b[..k], b[k..])
  }

  /** `collectReplies` splits the replies by consumer, losing none. */
  lemma CollectRepliesSplits<Output>(rs: seq<Reply<Output>>, cids: seq<Id>)
    ensures forall i :: 0 <= i < |CollectReplies(rs, cids).0| ==>
      CollectReplies(rs, cids).0[i] in rs && CollectReplies(rs, cids).0[i].consumerId !in cids
    ensures forall i :: 0 <= i < |CollectReplies(rs, cids).1| ==>
      CollectReplies(rs, cids).1[i] in rs && CollectReplies(rs, cids).1[i].consumerId in cids
    ensures forall i :: 0 <= i < |rs| ==> rs[i] in (if rs[i].consumerId in cids then CollectReplies(rs, cids).1 else CollectReplies(rs, cids).0)
  {
    PartitionParts(rs, (x: Reply<Output>) => x.consumerId in cids);
    var (others, collected) := CollectReplies(rs, cids);
    assert forall i :: 0 <= i < |others| ==> others[i] in others;
    assert forall i :: 0 <= i < |collected| ==> collected[i] in collected;
  }

  // ---------------------------------------------------------------- steps

  /** `discardProducer(producerId:)`: drop its first queued supply and fail it if pending. */
  function DiscardProducerStep<Input(!new), Output>(s: GateState<Input, Output>, pid: Id): (r: GateState<Input, Output>)
    ensures Subseq(r.supplies, s.supplies) && |r.supplies| <= |s.supplies|
    ensures r.producers == s.producers - {pid}
    ensures r.log == s.log + (if pid in s.producers then [ProducerResolved(pid, Err(DiscardedProducer))] else [])
    ensures r == s.(supplies := r.supplies, producers := r.producers, log := r.log)
  {
    RemoveFirstWhereSubseq(s.supplies, (sup: Supply<Input>) => sup.producerId == pid);
    var t := s.(supplies := DequeueSupplyOf(s.supplies, pid).0);
    if pid in t.producers then
      t.(producers := t.producers - {pid}, log := t.log + [ProducerResolved(pid, Err(DiscardedProducer))])
    else t
  }

  /**
   * The eviction loop of `enqueueSupply`: while the queue is full, pop
   * the oldest supply and discard its producer. Each eviction fails a
   * pending producer with `discardedProducer` and removes it.
   */
  function Evict<Input(!new), Output>(mode: Mode, s: GateState<Input, Output>): (r: GateState<Input, Output>)
    requires mode.capacity >= 1
    ensures |r.supplies| < mode.capacity
    ensures Subseq(r.supplies, s.supplies)
    ensures |s.supplies| < mode.capacity ==> r == s
    ensures r.producers <= s.producers
    ensures r == s.(supplies := r.supplies, producers := r.producers, log := r.log)
    decreases |s.supplies|
  {
    if |s.supplies| < mode.capacity then
      SubseqRefl(s.supplies);
      s
    else
      var head := s.supplies[0];
      var t := DiscardProducerStep(s.(supplies := s.supplies[1..]), head.producerId);
      SubseqCons(t.supplies, head, s.supplies[1..]);
      assert [head] + s.supplies[1..] == s.supplies;
      var r := Evict(mode, t);
      SubseqTrans(r.supplies, t.supplies, s.supplies);
      r
  }

  /** `enqueueSupply`: evict while full, then append the new supply last. */
  function EnqueueSupplyStep<Input(!new), Output>(mode: Mode, s: GateState<Input, Output>, supply: Supply<Input>)
    : (r: GateState<Input, Output>)
    requires mode.capacity >= 1
    ensures 1 <= |r.supplies| <= mode.capacity
    ensures r.supplies[|r.supplies| - 1] == supply
    ensures Subseq(r.supplies[..|r.supplies| - 1], s.supplies)
    ensures |s.supplies| < mode.capacity ==> r == s.(supplies := s.supplies + [supply])
    ensures r.producers <= s.producers
    ensures r == s.(supplies := r.supplies, producers := r.producers, log := r.log)
  {
    var e := Evict(mode, s);
    assert (e.supplies + [supply])[..|e.supplies|] == e.supplies;
    e.(supplies := e.supplies + [supply])
  }

  /**
   * The `demandLoop` of `startTransmissionsIfRequired` for one supply:
   * take the earliest accepting demand; if its consumer is still pending,
   * resume it with the input and open a transmission, stopping there
   * under unicast and anycast; a demand whose consumer has gone is
   * dropped and the loop goes on.
   */
  function DemandLoop<Input(!new), Output>(scheme: Scheme<Output>, s: GateState<Input, Output>, supply: Supply<Input>, consumed: bool)
    : (r: (GateState<Input, Output>, bool))
    ensures r.0 == s.(demands := r.0.demands, consumers := r.0.consumers, transmissions := r.0.transmissions, log := r.0.log)
    ensures |r.0.demands| <= |s.demands|
    ensures |s.transmissions| <= |r.0.transmissions| && r.0.transmissions[..|s.transmissions|] == s.transmissions
    decreases |s.demands|
  {
    var (rest, found) := DequeueDemandFor(scheme, s.demands, supply);
    if found.None? then (s, consumed)
    else
      var demand := found.value;
      var t := s.(demands := rest);
      if demand.consumerId in t.consumers then
        var u := t.(consumers := t.consumers - {demand.consumerId},
                    log := t.log + [ConsumerResolved(demand.consumerId, Ok(supply.input))],
                    transmissions := t.transmissions + [Transmission(supply.producerId, demand.consumerId)]);
        if scheme.SingleCast() then (u, true)
        else
          var r := DemandLoop(scheme, u, supply, true);
          assert r.0.transmissions[..|u.transmissions|] == u.transmissions;
          r
      else DemandLoop(scheme, t, supply, consumed)
  }

  /**
   * One iteration of the outer loop of `startTransmissionsIfRequired`
   * for a dequeued `supply`: the mode rules, the broadcast readiness rule,
   * then the demand loop. The boolean tells whether the supply is retained.
   */
  function PassOne<Input(!new), Output>(mode: Mode, scheme: Scheme<Output>, s: GateState<Input, Output>, supply: Supply<Input>)
    : (r: (GateState<Input, Output>, bool))
    ensures Subseq(r.0.supplies, s.supplies) && |r.0.supplies| <= |s.supplies|
    ensures |s.transmissions| <= |r.0.transmissions| && r.0.transmissions[..|s.transmissions|] == s.transmissions
    ensures r.0.replies == s.replies && r.0.attached == s.attached && r.0.discarded == s.discarded
    ensures r.0.sealError == s.sealError
  {
    SubseqRefl(s.supplies);
    if mode.Cumulative? && !HasConsumerFor(scheme, s, supply) then (s, true)
    else if (mode.Retainable? && !HasConsumerFor(scheme, s, supply))
         || (mode.Transient? && !HasNontransmittingConsumerFor(scheme, s, supply)) then
      (DiscardProducerStep(s, supply.producerId), false)
    else if scheme.Broadcast? && !AllConsumersAreReadyFor(s, supply.input) then (s, true)
    else
      var (t, consumed) := DemandLoop(scheme, s, supply, false);
      (t, !consumed)
  }

  /** The closing `for retainedSupply in retainedSupplies { enqueueSupply(...) }`. */
  function Requeue<Input(!new), Output>(mode: Mode, s: GateState<Input, Output>, retained: seq<Supply<Input>>)
    : (r: GateState<Input, Output>)
    requires mode.capacity >= 1 && |s.supplies| <= mode.capacity
    ensures |r.supplies| <= mode.capacity
    ensures |s.supplies| + |retained| <= mode.capacity ==> r == s.(supplies := s.supplies + retained)
    ensures r == s.(supplies := r.supplies, producers := r.producers, log := r.log)
    decreases |retained|
  {
    if retained == [] then
      assert s.supplies + retained == s.supplies;
      s
    else
      var t := EnqueueSupplyStep(mode, s, retained[0]);
      assert s.supplies + retained == (s.supplies + [retained[0]]) + retained[1..];
      Requeue(mode, t, retained[1..])
  }

  /** `startTransmissionsIfRequired`, from the point where `retained` has been set aside. */
  function Pass<Input(!new), Output>(mode: Mode, scheme: Scheme<Output>, s: GateState<Input, Output>, retained: seq<Supply<Input>>)
    : (r: GateState<Input, Output>)
    requires mode.capacity >= 1
    ensures |r.supplies| <= mode.capacity
    ensures |s.transmissions| <= |r.transmissions| && r.transmissions[..|s.transmissions|] == s.transmissions
    ensures r.replies == s.replies && r.attached == s.attached && r.discarded == s.discarded
    ensures r.sealError == s.sealError
    decreases |s.supplies|
  {
    if s.supplies == [] then Requeue(mode, s, retained)
    else
      var supply := s.supplies[0];
      var (t, keep) := PassOne(mode, scheme, s.(supplies := s.supplies[1..]), supply);
      var r := Pass(mode, scheme, t, if keep then retained + [supply] else retained);
      assert r.transmissions[..|t.transmissions|] == t.transmissions;
      r
  }

  /**
   * The supplies a pass sets aside, in the order it dequeues them:
   * `retained`, then every later supply for which `PassOne` answers keep.
   */
  function Kept<Input(!new), Output>(mode: Mode, scheme: Scheme<Output>, s: GateState<Input, Output>, retained: seq<Supply<Input>>)
    : (r: seq<Supply<Input>>)
    ensures |retained| <= |r| <= |retained| + |s.supplies| && r[..|retained|] == retained
    decreases |s.supplies|
  {
    if s.supplies == [] then retained
    else
      var supply := s.supplies[0];
      var (t, keep) := PassOne(mode, scheme, s.(supplies := s.supplies[1..]), supply);
      var r := Kept(mode, scheme, t, if keep then retained + [supply] else retained);
      assert keep ==> r[..|retained|] == r[..|retained| + 1][..|retained|];
      r
  }

  /** `startTransmissionsIfRequired`. */
  function StartTransmissions<Input(!new), Output>(mode: Mode, scheme: Scheme<Output>, s: GateState<Input, Output>)
    : (r: GateState<Input, Output>)
    requires mode.capacity >= 1
  {
    Pass(mode, scheme, s, [])
  }

  /** The outputs of replies that all succeeded, in order. */
  function Outputs<Output>(rs: seq<Reply<Output>>): (r: seq<Output>)
    requires forall i :: 0 <= i < |rs| ==> rs[i].result.Ok?
    ensures |r| == |rs| && forall i :: 0 <= i < |rs| ==> r[i] == rs[i].result.value
  {
    seq(|rs|, i requires 0 <= i < |rs| && rs[i].result.Ok? => rs[i].result.value)
  }

  /**
   * The `replyLoop` and the resumption of `finishTransmissionsIfRequired`:
   * the first failure in the collected order, or else the first output
   * (unicast, anycast) or the combined or last output (multicast, broadcast).
   */
  function Aggregate<Output>(scheme: Scheme<Output>, rs: seq<Reply<Output>>): (r: Result<Output>)
    requires |rs| > 0
    ensures r.Err? <==> exists i :: 0 <= i < |rs| && rs[i].result.Err?
    ensures r.Err? ==> exists i :: 0 <= i < |rs| && rs[i].result == r && forall j :: 0 <= j < i ==> rs[j].result.Ok?
    ensures r.Ok? && scheme.SingleCast() ==> r == rs[0].result
    ensures r.Ok? && !scheme.SingleCast() && scheme.combiner.None? ==> r == rs[|rs| - 1].result
    ensures r.Ok? && !scheme.SingleCast() && scheme.combiner.Some? ==> r == Ok(scheme.combiner.value(Outputs(rs)))
  {
    match FirstIndex(rs, (x: Reply<Output>) => x.result.Err?)
    case Some(i) => Err(rs[i].result.error)
    case None =>
      var outputs := Outputs(rs);
      if scheme.SingleCast() then Ok(outputs[0])
      else if scheme.combiner.Some? then Ok(scheme.combiner.value(outputs))
      else Ok(outputs[|outputs| - 1])
  }

  /** The replies collected for `pid`: those of the consumers it transmitted to; a ready producer has some. */
  function CollectedFor<Input(!new), Output>(s: GateState<Input, Output>, pid: Id): (r: seq<Reply<Output>>)
    ensures AllRepliesAreReady(s, pid) ==> |r| > 0
  {
    var r := CollectReplies(s.replies, ConsumerIds(EndTransmissions(s.transmissions, pid).1)).1;
    if AllRepliesAreReady(s, pid) then ReadyProducerHasReplies(s, pid); r else r
  }

  /** The replies left once those of `pid`'s consumers are collected. */
  function UncollectedFor<Input(!new), Output>(s: GateState<Input, Output>, pid: Id): seq<Reply<Output>>
  {
    CollectReplies(s.replies, ConsumerIds(EndTransmissions(s.transmissions, pid).1)).0
  }

  /** A producer whose replies are all ready has at least one to collect. */
  lemma ReadyProducerHasReplies<Input(!new), Output>(s: GateState<Input, Output>, pid: Id)
    requires AllRepliesAreReady(s, pid)
    ensures |CollectReplies(s.replies, ConsumerIds(EndTransmissions(s.transmissions, pid).1)).1| > 0
  {
    var i :| 0 <= i < |s.transmissions| && s.transmissions[i].producerId == pid;
    var j :| 0 <= j < |s.replies| && s.replies[j].consumerId == s.transmissions[i].consumerId;
    var ending := EndTransmissions(s.transmissions, pid).1;
    EndTransmissionsSplits(s.transmissions, pid);
    CollectRepliesSplits(s.replies, ConsumerIds(ending));
    assert s.transmissions[i] in ending;
    var k :| 0 <= k < |ending| && ending[k] == s.transmissions[i];
    assert s.replies[j].consumerId in ConsumerIds(ending) by {
      assert ConsumerIds(ending)[k] == s.replies[j].consumerId;
    }
  }

  /**
   * The body of `finishTransmissionsIfRequired` for a ready producer:
   * remove it, end its transmissions, collect its consumers' replies and
   * resume it with their aggregate.
   */
  function ResolveProducerStep<Input(!new), Output>(scheme: Scheme<Output>, s: GateState<Input, Output>, pid: Id)
    : (r: GateState<Input, Output>)
    requires AllRepliesAreReady(s, pid)
    ensures r.producers == s.producers - {pid}
    ensures r.log == s.log + [ProducerResolved(pid, Aggregate(scheme, CollectedFor(s, pid)))]
    ensures r == s.(producers := r.producers, transmissions := r.transmissions, replies := r.replies, log := r.log)
  {
    s.(producers := s.producers - {pid}, transmissions := EndTransmissions(s.transmissions, pid).0,
       replies := UncollectedFor(s, pid), log := s.log + [ProducerResolved(pid, Aggregate(scheme, CollectedFor(s, pid)))])
  }

  /** One round of the `for producerId in producerContinuations.keys` loop. */
  function FinishOne<Input(!new), Output>(scheme: Scheme<Output>, s: GateState<Input, Output>, pid: Id)
    : (r: GateState<Input, Output>)
    ensures r.log != s.log ==> pid in s.producers && AllRepliesAreReady(s, pid) && pid !in r.producers
    ensures r.log == s.log ==> r == s
  {
    if pid in s.producers && AllRepliesAreReady(s, pid) then ResolveProducerStep(scheme, s, pid) else s
  }

  /** `finishTransmissionsIfRequired`, visiting the pending producers in `order`. */
  function FinishSteps<Input(!new), Output>(scheme: Scheme<Output>, s: GateState<Input, Output>, order: seq<Id>)
    : (r: GateState<Input, Output>)
    decreases |order|
  {
    if order == [] then s
    else FinishOne(scheme, FinishSteps(scheme, s, order[..|order| - 1]), order[|order| - 1])
  }

  /** `addReply`, reached through `respond` only for a consumer with an open transmission. */
  function AddReplyStep<Input(!new), Output>(s: GateState<Input, Output>, cid: Id, result: Result<Output>)
    : (r: GateState<Input, Output>)
    ensures Transmitting(s, cid) ==> r.replies == s.replies + [Reply(cid, result)]
    ensures !Transmitting(s, cid) ==> r == s
    ensures r == s.(replies := r.replies)
  {
    if Transmitting(s, cid) then s.(replies := s.replies + [Reply(cid, result)]) else s
  }

  /** `respond(consumerId:result:)`: record the reply, then finish the producers in `order`. */
  function RespondStep<Input(!new), Output>(scheme: Scheme<Output>, s: GateState<Input, Output>, cid: Id, result: Result<Output>, order: seq<Id>)
    : (r: GateState<Input, Output>)
  {
    if Transmitting(s, cid) then FinishSteps(scheme, AddReplyStep(s, cid, result), order) else s
  }

  function ConsumerFailures<Input, Output>(order: seq<Id>, e: Error): (r: seq<GateEvent<Input, Output>>)
    ensures |r| == |order| && forall i :: 0 <= i < |order| ==> r[i] == ConsumerResolved(order[i], Err(e))
  {
    seq(|order|, i requires 0 <= i < |order| => ConsumerResolved(order[i], Err(e)))
  }

  function ProducerFailures<Input, Output>(order: seq<Id>, e: Error): (r: seq<GateEvent<Input, Output>>)
    ensures |r| == |order| && forall i :: 0 <= i < |order| ==> r[i] == ProducerResolved(order[i], Err(e))
  {
    seq(|order|, i requires 0 <= i < |order| => ProducerResolved(order[i], Err(e)))
  }

  /**
   * `seal(_:)`: record the error, clear the queues, fail the pending
   * consumers (in `consumerOrder`) and then the pending producers (in
   * `producerOrder`), and clear the transmissions.
   */
  function SealStep<Input(!new), Output>(s: GateState<Input, Output>, e: Error, consumerOrder: seq<Id>, producerOrder: seq<Id>)
    : (r: GateState<Input, Output>)
  {
    GateState({}, {}, s.attached, s.discarded, [], [], [], [], Some(e),
              s.log + ConsumerFailures(consumerOrder, e) + ProducerFailures(producerOrder, e))
  }

  /** `produce`: fail with the seal error, or register, enqueue the supply and run a pass. */
  function ProduceStep<Input(!new), Output>(mode: Mode, scheme: Scheme<Output>, s: GateState<Input, Output>, pid: Id, input: Input)
    : (r: (GateState<Input, Output>, Option<Error>))
    requires mode.capacity >= 1
  {
    if s.sealError.Some? then (s, s.sealError)
    else
      var t := EnqueueSupplyStep(mode, s.(producers := s.producers + {pid}), Supply(pid, input));
      (StartTransmissions(mode, scheme, t), None)
  }

  /**
   * `consume`: fail with the seal error; or, for a flagged consumer, clear
   * the flag and fail it with `discardedConsumer`; or register, queue the
   * demand and run a pass.
   */
  function ConsumeStep<Input(!new), Output>(mode: Mode, scheme: Scheme<Output>, s: GateState<Input, Output>, cid: Id, spec: Spec<Input>)
    : (r: (GateState<Input, Output>, Option<Error>))
    requires mode.capacity >= 1
  {
    if s.sealError.Some? then (s, s.sealError)
    else if cid in s.discarded then
      (s.(discarded := Remove(s.discarded, cid).0, log := s.log + [ConsumerResolved(cid, Err(DiscardedConsumer))]), None)
    else
      var t := s.(consumers := s.consumers + {cid}, demands := s.demands + [Demand(cid, spec)]);
      (StartTransmissions(mode, scheme, t), None)
  }

  /** The `onCancel` closure of `produce`; the supply stays queued. */
  function CancelProducerStep<Input(!new), Output>(s: GateState<Input, Output>, pid: Id): (r: GateState<Input, Output>)
  {
    if pid in s.producers then
      s.(producers := s.producers - {pid}, log := s.log + [ProducerResolved(pid, Err(CanceledProducer))])
    else s
  }

  /** The `onCancel` closure of `consume`; the demand stays queued. */
  function CancelConsumerStep<Input(!new), Output>(s: GateState<Input, Output>, cid: Id): (r: GateState<Input, Output>)
  {
    if cid in s.consumers then
      s.(consumers := s.consumers - {cid}, log := s.log + [ConsumerResolved(cid, Err(CanceledConsumer))])
    else s
  }

  /**
   * `discardConsumer(consumerId:)`: drop its first demand; fail it if
   * pending, or else flag it if attached.
   */
  function DiscardConsumerStep<Input(!new), Output>(s: GateState<Input, Output>, cid: Id): (r: GateState<Input, Output>)
  {
    var t := s.(demands := DequeueDemandOf(s.demands, cid).0);
    if cid in t.consumers then
      t.(consumers := t.consumers - {cid}, log := t.log + [ConsumerResolved(cid, Err(DiscardedConsumer))])
    else if cid in t.attached then t.(discarded := t.discarded + [cid])
    else t
  }

  /** `attachConsumerId`. */
  function AttachStep<Input(!new), Output>(s: GateState<Input, Output>, cid: Id, spec: Spec<Input>): (r: GateState<Input, Output>)
  {
    s.(attached := s.attached[cid := spec])
  }

  /** `detachConsumerId`: also removes one discard flag. */
  function DetachStep<Input(!new), Output>(s: GateState<Input, Output>, cid: Id): (r: GateState<Input, Output>)
  {
    s.(attached := s.attached - {cid}, discarded := Remove(s.discarded, cid).0)
  }
}
