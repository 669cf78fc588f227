/*
 * The `Gate` class (Sources/Kasync/Gate.swift): its lock-guarded fields
 * and the methods that update them, each proved to perform the step
 * function of the same name in GateModel.
 */
module Gates {
  import opened Utils
  import opened Specs
  import opened Suspension
  import opened GateModel
  import opened GateProperties

  class Gate<Input(!new), Output> {
    const mode: Mode
    const scheme: Scheme<Output>
    var producerContinuations: set<Id>
    var consumerContinuations: set<Id>
    var attachedConsumerIds: map<Id, Spec<Input>>
    var discardedConsumerIds: seq<Id>
    var demandQueue: seq<Demand<Input>>
    var supplyQueue: seq<Supply<Input>>
    var replyCollection: seq<Reply<Output>>
    var transmissions: seq<Transmission>
    var sealError: Option<Error>
    var log: seq<GateEvent<Input, Output>>

    function State(): GateState<Input, Output>
      reads this
    {
      GateState(producerContinuations, consumerContinuations, attachedConsumerIds, discardedConsumerIds,
                demandQueue, supplyQueue, replyCollection, transmissions, sealError, log)
    }

    ghost predicate Valid()
      reads this
    {
      Consistent(mode, State())
    }

    /** `init(mode:scheme:)`; a capacity below 1 would make `enqueueSupply` loop forever. */
    constructor(mode: Mode, scheme: Scheme<Output>)
      requires mode.capacity >= 1
      ensures Valid()
      ensures this.mode == mode && this.scheme == scheme
      ensures State() == InitialState()
    {
      this.mode := mode;
      this.scheme := scheme;
      producerContinuations := {};
      consumerContinuations := {};
      attachedConsumerIds := map[];
      discardedConsumerIds := [];
      demandQueue := [];
      supplyQueue := [];
      replyCollection := [];
      transmissions := [];
      sealError := None;
      log := [];
    }

    /** `isSealed`. */
    predicate IsSealed()
      reads this
    {
      sealError.Some?
    }

    /** `seal(_:)`. */
    method Seal(e: Error) returns (ghost consumerOrder: seq<Id>, ghost producerOrder: seq<Id>)
      requires Valid()
      modifies this
      ensures Valid()
      ensures Enumerates(consumerOrder, old(consumerContinuations)) && Enumerates(producerOrder, old(producerContinuations))
      ensures State() == SealStep(old(State()), e, consumerOrder, producerOrder)
    {
      sealError := Some(e);
      demandQueue := [];
      supplyQueue := [];
      replyCollection := [];
      consumerOrder := FailConsumers(e);
      ghost var afterConsumers := log;
      consumerContinuations := {};
      producerOrder := FailProducers(e);
      producerContinuations := {};
      transmissions := [];
      assert log == old(log) + ConsumerFailures(consumerOrder, e) + ProducerFailures(producerOrder, e) by {
        assert afterConsumers == old(log) + ConsumerFailures(consumerOrder, e);
      }
    }

    /** `consumerContinuations.values.forEach { $0.resume(throwing: e) }`, in the dictionary's order. */
    method FailConsumers(e: Error) returns (ghost order: seq<Id>)
      modifies this
      ensures Enumerates(order, consumerContinuations)
      ensures log == old(log) + ConsumerFailures(order, e)
      ensures State() == old(State()).(log := log)
    {
      var pending := consumerContinuations;
      order := [];
      while pending != {}
        invariant pending <= consumerContinuations
        invariant forall id :: id in order <==> id in consumerContinuations && id !in pending
        invariant forall i, j :: 0 <= i < j < |order| ==> order[i] != order[j]
        invariant log == old(log) + ConsumerFailures(order, e)
        invariant State() == old(State()).(log := log)
        decreases pending
      {
        var cid :| cid in pending;
        pending := pending - {cid};
        assert ConsumerFailures<Input, Output>(order + [cid], e) == ConsumerFailures(order, e) + [ConsumerResolved(cid, Err(e))];
        log := log + [ConsumerResolved(cid, Err(e))];
        order := order + [cid];
      }
    }

    /** `producerContinuations.values.forEach { $0.resume(throwing: e) }`, in the dictionary's order. */
    method FailProducers(e: Error) returns (ghost order: seq<Id>)
      modifies this
      ensures Enumerates(order, producerContinuations)
      ensures log == old(log) + ProducerFailures(order, e)
      ensures State() == old(State()).(log := log)
    {
      var pending := producerContinuations;
      order := [];
      while pending != {}
        invariant pending <= producerContinuations
        invariant forall id :: id in order <==> id in producerContinuations && id !in pending
        invariant forall i, j :: 0 <= i < j < |order| ==> order[i] != order[j]
        invariant log == old(log) + ProducerFailures(order, e)
        invariant State() == old(State()).(log := log)
        decreases pending
      {
        var pid :| pid in pending;
        pending := pending - {pid};
        assert ProducerFailures<Input, Output>(order + [pid], e) == ProducerFailures(order, e) + [ProducerResolved(pid, Err(e))];
        log := log + [ProducerResolved(pid, Err(e))];
        order := order + [pid];
      }
    }

    /** `discardProducer(producerId:)`. */
    method DiscardProducer(pid: Id)
      modifies this
      ensures old(Valid()) ==> Valid()
      ensures State() == DiscardProducerStep(old(State()), pid)
    {
      supplyQueue := DequeueSupplyOf(supplyQueue, pid).0;
      if pid in producerContinuations {
        producerContinuations := producerContinuations - {pid};
        log := log + [ProducerResolved(pid, Err(DiscardedProducer))];
      }
      if old(Valid()) {
        DiscardKeepsConsistent(mode, old(State()), pid);
      }
    }

    /** `discardConsumer(consumerId:)`. */
    method DiscardConsumer(cid: Id)
      requires Valid()
      modifies this
      ensures Valid()
      ensures State() == DiscardConsumerStep(old(State()), cid)
    {
      demandQueue := DequeueDemandOf(demandQueue, cid).0;
      if cid in consumerContinuations {
        consumerContinuations := consumerContinuations - {cid};
        log := log + [ConsumerResolved(cid, Err(DiscardedConsumer))];
        DiscardKeepsConsistent(mode, old(State()), cid);
        return;
      }
      if cid in attachedConsumerIds {
        discardedConsumerIds := discardedConsumerIds + [cid];
      }
      DiscardKeepsConsistent(mode, old(State()), cid);
    }

    /** `produce(_:producerId:)` up to the suspension; `err` is the seal error it throws. */
    method Produce(pid: Id, input: Input) returns (err: Option<Error>)
      requires Valid()
      modifies this
      ensures Valid()
      ensures (State(), err) == ProduceStep(mode, scheme, old(State()), pid, input)
    {
      if sealError.Some? {
        return sealError;
      }
      producerContinuations := producerContinuations + {pid};
      EnqueueSupply(Supply(pid, input));
      StartTransmissions();
      err := None;
      ProduceKeepsConsistent(mode, scheme, old(State()), pid, input);
    }

    /** `consume(_:consumerId:)` up to the suspension; `err` is the seal error it throws. */
    method Consume(cid: Id, spec: Spec<Input>) returns (err: Option<Error>)
      requires Valid()
      modifies this
      ensures Valid()
      ensures (State(), err) == ConsumeStep(mode, scheme, old(State()), cid, spec)
    {
      if sealError.Some? {
        return sealError;
      }
      err := None;
      if cid in discardedConsumerIds {
        discardedConsumerIds := Remove(discardedConsumerIds, cid).0;
        log := log + [ConsumerResolved(cid, Err(DiscardedConsumer))];
        ConsumeKeepsConsistent(mode, scheme, old(State()), cid, spec);
        return;
      }
      consumerContinuations := consumerContinuations + {cid};
      demandQueue := demandQueue + [Demand(cid, spec)];
      StartTransmissions();
      ConsumeKeepsConsistent(mode, scheme, old(State()), cid, spec);
    }

    /** The `onCancel` closure of `produce`. */
    method CancelProducer(pid: Id)
      requires Valid()
      modifies this
      ensures Valid()
      ensures State() == CancelProducerStep(old(State()), pid)
    {
      if pid in producerContinuations {
        producerContinuations := producerContinuations - {pid};
        log := log + [ProducerResolved(pid, Err(CanceledProducer))];
      }
      CancelKeepsConsistent(mode, old(State()), pid);
    }

    /** The `onCancel` closure of `consume`. */
    method CancelConsumer(cid: Id)
      requires Valid()
      modifies this
      ensures Valid()
      ensures State() == CancelConsumerStep(old(State()), cid)
    {
      if cid in consumerContinuations {
        consumerContinuations := consumerContinuations - {cid};
        log := log + [ConsumerResolved(cid, Err(CanceledConsumer))];
      }
      CancelKeepsConsistent(mode, old(State()), cid);
    }

    /** `respond(consumerId:result:)`; `order` is the order in which the pending producers were visited. */
    method Respond(cid: Id, result: Result<Output>) returns (ghost order: seq<Id>)
      requires Valid()
      modifies this
      ensures Valid()
      ensures Transmitting(old(State()), cid) ==> Enumerates(order, old(producerContinuations))
      ensures State() == RespondStep(scheme, old(State()), cid, result, order)
    {
      order := [];
      if Transmitting(State(), cid) {
        order := AddReply(Reply(cid, result));
      }
      RespondKeepsConsistent(mode, scheme, old(State()), cid, result, order);
    }

    /** `addReply`: store the reply, then finish whatever transmissions are complete. */
    method AddReply(reply: Reply<Output>) returns (ghost order: seq<Id>)
      modifies this
      ensures Enumerates(order, old(producerContinuations))
      ensures State() == FinishSteps(scheme, old(State()).(replies := old(replyCollection) + [reply]), order)
    {
      replyCollection := replyCollection + [reply];
      order := FinishTransmissions();
    }

    /** `attachConsumerId(_:inputSpec:)`. */
    method Attach(cid: Id, spec: Spec<Input>)
      requires Valid()
      modifies this
      ensures Valid()
      ensures State() == AttachStep(old(State()), cid, spec)
    {
      attachedConsumerIds := attachedConsumerIds[cid := spec];
      AttachmentKeepsConsistent(mode, old(State()), cid, spec);
    }

    /** `detachConsumerId(_:)`. */
    method Detach(cid: Id)
      requires Valid()
      modifies this
      ensures Valid()
      ensures State() == DetachStep(old(State()), cid)
    {
      attachedConsumerIds := attachedConsumerIds - {cid};
      discardedConsumerIds := Remove(discardedConsumerIds, cid).0;
      AttachmentKeepsConsistent(mode, old(State()), cid, TrueSpec);
    }

    /** `enqueueSupply(_:)`: evict the oldest supplies while the queue is full, then append. */
    method EnqueueSupply(supply: Supply<Input>)
      requires mode.capacity >= 1
      modifies this
      ensures State() == EnqueueSupplyStep(mode, old(State()), supply)
    {
      while |supplyQueue| >= mode.capacity
        invariant Evict(mode, State()) == Evict(mode, old(State()))
        decreases |supplyQueue|
      {
        var evicted := PopFirst(supplyQueue);
        supplyQueue := evicted.0;
        DiscardProducer(evicted.1.value.producerId);
      }
      supplyQueue := supplyQueue + [supply];
    }

    /** `startTransmissionsIfRequired`. */
    method StartTransmissions()
      requires mode.capacity >= 1
      modifies this
      ensures State() == GateModel.StartTransmissions(mode, scheme, old(State()))
    {
      var retained: seq<Supply<Input>> := [];
      while supplyQueue != []
        invariant Pass(mode, scheme, State(), retained) == Pass(mode, scheme, old(State()), [])
        decreases |supplyQueue|
      {
        var dequeued := PopFirst(supplyQueue);
        var supply := dequeued.1.value;
        supplyQueue := dequeued.0;
        var keep := TransmitOrRetain(supply);
        if keep {
          retained := retained + [supply];
        }
      }
      for i := 0 to |retained|
        invariant |supplyQueue| <= mode.capacity
        invariant Requeue(mode, State(), retained[i..]) == Pass(mode, scheme, old(State()), [])
      {
        assert retained[i..][1..] == retained[i + 1..];
        EnqueueSupply(retained[i]);
      }
    }

    /**
     * The body of the outer loop of `startTransmissionsIfRequired` for a
     * dequeued supply; `keep` tells that it is retained.
     */
    method TransmitOrRetain(supply: Supply<Input>) returns (keep: bool)
      modifies this
      ensures (State(), keep) == PassOne(mode, scheme, old(State()), supply)
    {
      if mode.Cumulative? && !HasConsumerFor(scheme, State(), supply) {
        return true;
      }
      if (mode.Retainable? && !HasConsumerFor(scheme, State(), supply))
         || (mode.Transient? && !HasNontransmittingConsumerFor(scheme, State(), supply)) {
        DiscardProducer(supply.producerId);
        return false;
      }
      if scheme.Broadcast? && !AllConsumersAreReadyFor(State(), supply.input) {
        return true;
      }
      var consumed := RunDemandLoop(supply);
      keep := !consumed;
    }

    /** The `demandLoop` of `startTransmissionsIfRequired`; `consumed` tells that some consumer took the supply. */
    method RunDemandLoop(supply: Supply<Input>) returns (consumed: bool)
      modifies this
      ensures (State(), consumed) == DemandLoop(scheme, old(State()), supply, false)
    {
      ghost var s := State();
      var queue, pending, resolved, started := demandQueue, consumerContinuations, log, transmissions;
      consumed := false;
      while true
        modifies {}
        invariant DemandLoop(scheme, s.(demands := queue, consumers := pending, log := resolved, transmissions := started), supply, consumed)
               == DemandLoop(scheme, s, supply, false)
        decreases |queue|
      {
        var dequeued := DequeueDemandFor(scheme, queue, supply);
        if dequeued.1.None? {
          break;
        }
        var demand := dequeued.1.value;
        queue := dequeued.0;
        if demand.consumerId in pending {
          pending := pending - {demand.consumerId};
          resolved := resolved + [ConsumerResolved(demand.consumerId, Ok(supply.input))];
          started := started + [Transmission(supply.producerId, demand.consumerId)];
          consumed := true;
          if scheme.SingleCast() {
            break;
          }
        }
      }
      demandQueue, consumerContinuations, log, transmissions := queue, pending, resolved, started;
    }

    /**
     * `finishTransmissionsIfRequired`: visit the pending producers, in the
     * dictionary's order, and resolve each one whose replies are ready.
     */
    method FinishTransmissions() returns (ghost order: seq<Id>)
      modifies this
      ensures Enumerates(order, old(producerContinuations))
      ensures State() == FinishSteps(scheme, old(State()), order)
    {
      var keys := producerContinuations;
      order := [];
      while keys != {}
        invariant keys <= old(producerContinuations)
        invariant forall id :: id in order <==> id in old(producerContinuations) && id !in keys
        invariant forall i, j :: 0 <= i < j < |order| ==> order[i] != order[j]
        invariant State() == FinishSteps(scheme, old(State()), order)
        decreases keys
      {
        var pid :| pid in keys;
        keys := keys - {pid};
        if AllRepliesAreReady(State(), pid) && pid in producerContinuations {
          ResolveProducer(pid);
        }
        assert (order + [pid])[..|order|] == order;
        order := order + [pid];
      }
    }

    /** The resolution of one ready producer inside `finishTransmissionsIfRequired`. */
    method ResolveProducer(pid: Id)
      requires AllRepliesAreReady(State(), pid)
      modifies this
      ensures State() == ResolveProducerStep(scheme, old(State()), pid)
    {
      ghost var s := State();
      ReadyProducerHasReplies(s, pid);
      var ended := EndTransmissions(transmissions, pid);
      var collected := CollectReplies(replyCollection, ConsumerIds(ended.1));
      assert collected.1 == CollectedFor(s, pid) && collected.0 == UncollectedFor(s, pid);
      var output := AggregateReplies(collected.1);
      producerContinuations := producerContinuations - {pid};
      transmissions := ended.0;
      replyCollection := collected.0;
      log := log + [ProducerResolved(pid, output)];
      assert State() == s.(producers := s.producers - {pid}, transmissions := EndTransmissions(s.transmissions, pid).0,
                           replies := UncollectedFor(s, pid), log := s.log + [ProducerResolved(pid, Aggregate(scheme, CollectedFor(s, pid)))]);
    }

    /** The `replyLoop` and the resumption of the producer in `finishTransmissionsIfRequired`. */
    method AggregateReplies(rs: seq<Reply<Output>>) returns (r: Result<Output>)
      requires |rs| > 0
      ensures r == Aggregate(scheme, rs)
    {
      var outputs: seq<Output> := [];
      for i := 0 to |rs|
        invariant forall k :: 0 <= k < i ==> rs[k].result.Ok?
        invariant |outputs| == i && forall k :: 0 <= k < i ==> outputs[k] == rs[k].result.value
      {
        if rs[i].result.Err? {
          assert FirstIndex(rs, (x: Reply<Output>) => x.result.Err?) == Some(i);
          return Err(rs[i].result.error);
        }
        outputs := outputs + [rs[i].result.value];
      }
      assert FirstIndex(rs, (x: Reply<Output>) => x.result.Err?) == None;
      assert outputs == Outputs(rs);
      if scheme.SingleCast() {
        r := Ok(outputs[0]);
      } else if scheme.combiner.Some? {
        r := Ok(scheme.combiner.value(outputs));
      } else {
        r := Ok(outputs[|outputs| - 1]);
      }
    }
  }
}
