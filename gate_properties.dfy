/*
 * What the steps of the `Gate` matching engine guarantee
 * (Sources/Kasync/Gate.swift).
 */
module GateProperties {
  import opened Utils
  import opened Specs
  import opened Suspension
  import opened GateModel

  // ----------------------------------------------------------- eviction

  /**
   * From `s` to `r` the log only grows, and each entry appended fails,
   * with `discardedProducer`, a producer that was pending in `s` and is
   * no longer pending in `r`.
   */
  ghost predicate OnlyFailsDiscarded<Input(!new), Output>(s: GateState<Input, Output>, r: GateState<Input, Output>)
  {
    |s.log| <= |r.log| && r.log[..|s.log|] == s.log
    && forall i :: |s.log| <= i < |r.log| ==>
      r.log[i].ProducerResolved? && r.log[i].output == Err(DiscardedProducer) && r.log[i].producerId in s.producers - r.producers
  }

  lemma OnlyFailsDiscardedTrans<Input(!new), Output>(s: GateState<Input, Output>, t: GateState<Input, Output>, r: GateState<Input, Output>)
    requires OnlyFailsDiscarded(s, t) && OnlyFailsDiscarded(t, r)
    requires r.producers <= t.producers <= s.producers
    ensures OnlyFailsDiscarded(s, r)
  {
    assert r.log[..|s.log|] == r.log[..|t.log|][..|s.log|];
    forall i | |s.log| <= i < |r.log|
      ensures r.log[i].ProducerResolved? && r.log[i].output == Err(DiscardedProducer)
      ensures r.log[i].producerId in s.producers - r.producers
    {
      if i < |t.log| {
        assert r.log[..|t.log|][i] == t.log[i];
      }
    }
  }

  /** Eviction only appends failures of producers it removes. */
  lemma {:induction false} EvictFailsOnlyEvictedProducers<Input(!new), Output>(mode: Mode, s: GateState<Input, Output>)
    requires mode.capacity >= 1
    ensures OnlyFailsDiscarded(s, Evict(mode, s))
    decreases |s.supplies|
  {
    if |s.supplies| >= mode.capacity {
      var head := s.supplies[0];
      var t := DiscardProducerStep(s.(supplies := s.supplies[1..]), head.producerId);
      assert OnlyFailsDiscarded(s, t) by {
        assert t.log[..|s.log|] == s.log;
      }
      EvictFailsOnlyEvictedProducers(mode, t);
      assert Evict(mode, s) == Evict(mode, t);
      OnlyFailsDiscardedTrans(s, t, Evict(mode, t));
    } else {
      assert s.log[..|s.log|] == s.log;
    }
  }

  /** When the queue is full, the oldest supply's pending producer is the first one failed. */
  lemma EvictFailsOldestFirst<Input(!new), Output>(mode: Mode, s: GateState<Input, Output>)
    requires mode.capacity >= 1 && |s.supplies| >= mode.capacity
    requires s.supplies[0].producerId in s.producers
    ensures var r := Evict(mode, s);
      |r.log| > |s.log| && r.log[|s.log|] == ProducerResolved(s.supplies[0].producerId, Err(DiscardedProducer))
      && s.supplies[0].producerId !in r.producers
  {
    var head := s.supplies[0];
    var t := DiscardProducerStep(s.(supplies := s.supplies[1..]), head.producerId);
    assert t.log == s.log + [ProducerResolved(head.producerId, Err(DiscardedProducer))];
    EvictFailsOnlyEvictedProducers(mode, t);
    var r := Evict(mode, t);
    assert r.log[..|t.log|] == t.log;
    assert r.log[|s.log|] == t.log[|s.log|];
  }

  // -------------------------------------------------------- demand loop

  /**
   * Every transmission from `s` to `r` past the old ones comes from the
   * supply's producer and goes to a consumer that was pending (under
   * unicast: the producer's namesake), and is matched, in the same order,
   * by that consumer's resumption with the input.
   */
  ghost predicate OpensInOrder<Input(!new), Output>(
    scheme: Scheme<Output>, s: GateState<Input, Output>, r: GateState<Input, Output>, supply: Supply<Input>)
  {
    |s.transmissions| <= |r.transmissions| && r.transmissions[..|s.transmissions|] == s.transmissions
    && r.consumers <= s.consumers
    && |r.log| == |s.log| + |r.transmissions| - |s.transmissions| && r.log[..|s.log|] == s.log
    && forall i :: |s.transmissions| <= i < |r.transmissions| ==>
      r.transmissions[i].producerId == supply.producerId
      && r.transmissions[i].consumerId in s.consumers - r.consumers
      && r.log[|s.log| + i - |s.transmissions|] == ConsumerResolved(r.transmissions[i].consumerId, Ok(supply.input))
      && (scheme.Unicast? ==> r.transmissions[i].consumerId == supply.producerId)
  }

  lemma OpensInOrderRefl<Input(!new), Output>(scheme: Scheme<Output>, s: GateState<Input, Output>, supply: Supply<Input>)
    ensures OpensInOrder(scheme, s, s, supply)
  {
    assert s.log[..|s.log|] == s.log;
    assert s.transmissions[..|s.transmissions|] == s.transmissions;
  }

  /** Prepending one transmission to `cid`, a pending consumer, keeps `OpensInOrder`. */
  lemma {:induction false} OpensInOrderCons<Input(!new), Output>(
    scheme: Scheme<Output>, s: GateState<Input, Output>, u: GateState<Input, Output>, r: GateState<Input, Output>,
    supply: Supply<Input>, cid: Id)
    requires cid in s.consumers && (scheme.Unicast? ==> cid == supply.producerId)
    requires u.consumers == s.consumers - {cid}
    requires u.log == s.log + [ConsumerResolved(cid, Ok(supply.input))]
    requires u.transmissions == s.transmissions + [Transmission(supply.producerId, cid)]
    requires OpensInOrder(scheme, u, r, supply)
    ensures OpensInOrder(scheme, s, r, supply)
  {
    assert r.log[..|s.log|] == s.log by {
      assert r.log[..|s.log|] == r.log[..|u.log|][..|s.log|];
    }
    assert r.transmissions[|s.transmissions|] == Transmission(supply.producerId, cid) by {
      assert r.transmissions[..|u.transmissions|] == u.transmissions;
    }
    assert r.transmissions[..|s.transmissions|] == s.transmissions by {
      assert r.transmissions[..|s.transmissions|] == r.transmissions[..|u.transmissions|][..|s.transmissions|];
    }
    assert r.log[|s.log|] == ConsumerResolved(cid, Ok(supply.input)) by {
      assert r.log[..|u.log|] == u.log;
    }
  }

  /** Dropping a demand opens nothing: `OpensInOrder` only looks at transmissions, consumers and the log. */
  lemma OpensInOrderSkip<Input(!new), Output>(
    scheme: Scheme<Output>, s: GateState<Input, Output>, t: GateState<Input, Output>, r: GateState<Input, Output>,
    supply: Supply<Input>)
    requires t.transmissions == s.transmissions && t.consumers == s.consumers && t.log == s.log
    requires OpensInOrder(scheme, t, r, supply)
    ensures OpensInOrder(scheme, s, r, supply)
  {
  }

  /** The demand loop opens transmissions only as `OpensInOrder` describes. */
  lemma {:induction false} DemandLoopTransmits<Input(!new), Output>(
    scheme: Scheme<Output>, s: GateState<Input, Output>, supply: Supply<Input>, consumed: bool)
    ensures OpensInOrder(scheme, s, DemandLoop(scheme, s, supply, consumed).0, supply)
    decreases |s.demands|
  {
    var (rest, found) := DequeueDemandFor(scheme, s.demands, supply);
    if found.Some? {
      var demand := found.value;
      assert Accepts(scheme, supply, demand);
      var t := s.(demands := rest);
      if demand.consumerId in t.consumers {
        var u := t.(consumers := t.consumers - {demand.consumerId},
                    log := t.log + [ConsumerResolved(demand.consumerId, Ok(supply.input))],
                    transmissions := t.transmissions + [Transmission(supply.producerId, demand.consumerId)]);
        if !scheme.SingleCast() {
          assert |u.demands| < |s.demands|;
          DemandLoopTransmits(scheme, u, supply, true);
          var r := DemandLoop(scheme, u, supply, true).0;
          assert DemandLoop(scheme, s, supply, consumed).0 == r;
          OpensInOrderCons(scheme, s, u, r, supply, demand.consumerId);
        } else {
          assert DemandLoop(scheme, s, supply, consumed).0 == u;
          OpensInOrderRefl(scheme, u, supply);
          OpensInOrderCons(scheme, s, u, u, supply, demand.consumerId);
        }
      } else {
        assert |t.demands| < |s.demands|;
        DemandLoopTransmits(scheme, t, supply, consumed);
        assert DemandLoop(scheme, s, supply, consumed).0 == DemandLoop(scheme, t, supply, consumed).0;
        OpensInOrderSkip(scheme, s, t, DemandLoop(scheme, t, supply, consumed).0, supply);
      }
    } else {
      OpensInOrderRefl(scheme, s, supply);
    }
  }

  /**
   * The demand loop reports the supply consumed exactly when it was
   * already or a transmission opened; under unicast and anycast it opens
   * at most one; and when it opens none, nobody is resumed.
   */
  lemma {:induction false} DemandLoopConsumes<Input(!new), Output>(
    scheme: Scheme<Output>, s: GateState<Input, Output>, supply: Supply<Input>, consumed: bool)
    ensures DemandLoop(scheme, s, supply, consumed).1
      <==> consumed || |DemandLoop(scheme, s, supply, consumed).0.transmissions| > |s.transmissions|
    ensures scheme.SingleCast() ==> |DemandLoop(scheme, s, supply, consumed).0.transmissions| <= |s.transmissions| + 1
    ensures |DemandLoop(scheme, s, supply, consumed).0.transmissions| == |s.transmissions| ==>
      DemandLoop(scheme, s, supply, consumed).0.consumers == s.consumers && DemandLoop(scheme, s, supply, consumed).0.log == s.log
    decreases |s.demands|
  {
    var (rest, found) := DequeueDemandFor(scheme, s.demands, supply);
    if found.Some? {
      var demand := found.value;
      var t := s.(demands := rest);
      if demand.consumerId in t.consumers {
        var u := t.(consumers := t.consumers - {demand.consumerId},
                    log := t.log + [ConsumerResolved(demand.consumerId, Ok(supply.input))],
                    transmissions := t.transmissions + [Transmission(supply.producerId, demand.consumerId)]);
        if scheme.SingleCast() {
          assert DemandLoop(scheme, s, supply, consumed) == (u, true);
        } else {
          assert |u.demands| < |s.demands|;
          DemandLoopConsumes(scheme, u, supply, true);
          assert DemandLoop(scheme, s, supply, consumed) == DemandLoop(scheme, u, supply, true);
          assert |u.transmissions| == |s.transmissions| + 1;
        }
      } else {
        assert |t.demands| < |s.demands|;
        DemandLoopConsumes(scheme, t, supply, consumed);
        assert DemandLoop(scheme, s, supply, consumed) == DemandLoop(scheme, t, supply, consumed);
      }
    }
  }

  /** Every consumer transmitted to between `s` and `r` had a demand queued in `s` accepting the supply. */
  ghost predicate HonoursDemands<Input(!new), Output>(
    scheme: Scheme<Output>, s: GateState<Input, Output>, r: GateState<Input, Output>, supply: Supply<Input>)
  {
    forall i :: |s.transmissions| <= i < |r.transmissions| ==> DemandedBy(scheme, s, r.transmissions[i].consumerId, supply)
  }

  /** A demand of consumer `cid` accepting the supply is queued in `s`. */
  ghost predicate DemandedBy<Input(!new), Output>(scheme: Scheme<Output>, s: GateState<Input, Output>, cid: Id, supply: Supply<Input>)
  {
    exists d :: d in s.demands && d.consumerId == cid && Accepts(scheme, supply, d)
  }

  /** Honouring composes: demands of the middle state all come from the first. */
  lemma {:induction false} HonoursDemandsTrans<Input(!new), Output>(
    scheme: Scheme<Output>, s: GateState<Input, Output>, u: GateState<Input, Output>, r: GateState<Input, Output>,
    supply: Supply<Input>)
    requires |s.transmissions| <= |u.transmissions| <= |r.transmissions|
    requires r.transmissions[..|u.transmissions|] == u.transmissions
    requires forall d :: d in u.demands ==> d in s.demands
    requires HonoursDemands(scheme, s, u, supply) && HonoursDemands(scheme, u, r, supply)
    ensures HonoursDemands(scheme, s, r, supply)
  {
    forall i | |s.transmissions| <= i < |r.transmissions|
      ensures DemandedBy(scheme, s, r.transmissions[i].consumerId, supply)
    {
      if i < |u.transmissions| {
        assert r.transmissions[i] == u.transmissions[i];
      } else {
        assert DemandedBy(scheme, u, r.transmissions[i].consumerId, supply);
        var d :| d in u.demands && d.consumerId == r.transmissions[i].consumerId && Accepts(scheme, supply, d);
        assert d in s.demands;
      }
    }
  }

  /** The demand loop transmits only to consumers with a queued demand accepting the supply. */
  lemma {:induction false} DemandLoopHonoursDemands<Input(!new), Output>(
    scheme: Scheme<Output>, s: GateState<Input, Output>, supply: Supply<Input>, consumed: bool)
    ensures HonoursDemands(scheme, s, DemandLoop(scheme, s, supply, consumed).0, supply)
    decreases |s.demands|
  {
    var (rest, found) := DequeueDemandFor(scheme, s.demands, supply);
    if found.Some? {
      var demand := found.value;
      assert demand in s.demands && Accepts(scheme, supply, demand);
      assert forall d :: d in rest ==> d in s.demands;
      var t := s.(demands := rest);
      if demand.consumerId in t.consumers {
        var u := t.(consumers := t.consumers - {demand.consumerId},
                    log := t.log + [ConsumerResolved(demand.consumerId, Ok(supply.input))],
                    transmissions := t.transmissions + [Transmission(supply.producerId, demand.consumerId)]);
        assert HonoursDemands(scheme, s, u, supply) by {
          assert u.transmissions[|s.transmissions|].consumerId == demand.consumerId;
          assert DemandedBy(scheme, s, demand.consumerId, supply);
        }
        if !scheme.SingleCast() {
          assert |u.demands| < |s.demands|;
          DemandLoopHonoursDemands(scheme, u, supply, true);
          assert DemandLoop(scheme, s, supply, consumed) == DemandLoop(scheme, u, supply, true);
          HonoursDemandsTrans(scheme, s, u, DemandLoop(scheme, u, supply, true).0, supply);
        } else {
          assert DemandLoop(scheme, s, supply, consumed).0 == u;
        }
      } else {
        assert |t.demands| < |s.demands|;
        DemandLoopHonoursDemands(scheme, t, supply, consumed);
        assert DemandLoop(scheme, s, supply, consumed) == DemandLoop(scheme, t, supply, consumed);
        HonoursDemandsTrans(scheme, s, t, DemandLoop(scheme, t, supply, consumed).0, supply);
      }
    }
  }

  /** Under multicast and broadcast the demand loop leaves no queued demand that accepts the supply. */
  lemma {:induction false} MulticastConsumesEveryAcceptingDemand<Input(!new), Output>(
    scheme: Scheme<Output>, s: GateState<Input, Output>, supply: Supply<Input>, consumed: bool)
    requires !scheme.SingleCast()
    ensures forall j :: 0 <= j < |DemandLoop(scheme, s, supply, consumed).0.demands| ==>
      !Accepts(scheme, supply, DemandLoop(scheme, s, supply, consumed).0.demands[j])
    decreases |s.demands|
  {
    var (rest, found) := DequeueDemandFor(scheme, s.demands, supply);
    if found.Some? {
      var demand := found.value;
      var t := s.(demands := rest);
      if demand.consumerId in t.consumers {
        var u := t.(consumers := t.consumers - {demand.consumerId},
                    log := t.log + [ConsumerResolved(demand.consumerId, Ok(supply.input))],
                    transmissions := t.transmissions + [Transmission(supply.producerId, demand.consumerId)]);
        MulticastConsumesEveryAcceptingDemand(scheme, u, supply, true);
        assert |u.demands| < |s.demands|;
        var r := DemandLoop(scheme, u, supply, true).0;
        assert DemandLoop(scheme, s, supply, consumed).0 == r;
        assert forall j :: 0 <= j < |r.demands| ==> !Accepts(scheme, supply, r.demands[j]);
      } else {
        MulticastConsumesEveryAcceptingDemand(scheme, t, supply, consumed);
        assert |t.demands| < |s.demands|;
        var r := DemandLoop(scheme, t, supply, consumed).0;
        assert DemandLoop(scheme, s, supply, consumed).0 == r;
        assert forall j :: 0 <= j < |r.demands| ==> !Accepts(scheme, supply, r.demands[j]);
      }
    }
  }

  /**
   * Under unicast and anycast, when the earliest accepting demand belongs
   * to a pending consumer, exactly that consumer receives the supply and
   * only that demand leaves the queue.
   */
  lemma SingleCastTakesEarliestDemand<Input(!new), Output>(
    scheme: Scheme<Output>, s: GateState<Input, Output>, supply: Supply<Input>, k: nat)
    requires scheme.SingleCast()
    requires k < |s.demands| && Accepts(scheme, supply, s.demands[k])
    requires forall j :: 0 <= j < k ==> !Accepts(scheme, supply, s.demands[j])
    requires s.demands[k].consumerId in s.consumers
    ensures var r := DemandLoop(scheme, s, supply, false);
      r.1
      && r.0.transmissions == s.transmissions + [Transmission(supply.producerId, s.demands[k].consumerId)]
      && r.0.demands == s.demands[..k] + s.demands[k + 1..]
      && r.0.log == s.log + [ConsumerResolved(s.demands[k].consumerId, Ok(supply.input))]
  {
    var p := (d: Demand<Input>) => Accepts(scheme, supply, d);
    assert p(s.demands[k]);
    assert forall j :: 0 <= j < k ==> !p(s.demands[j]);
    assert FirstIndex(s.demands, p) == Some(k);
  }

  // ------------------------------------------------------ matching pass

  /**
   * The mode rules for a dequeued supply: cumulative retains it untouched
   * when no attached consumer accepts it; retainable then discards its
   * producer; transient discards it unless some accepting attached
   * consumer has no open transmission; under broadcast, once a supply is
   * past the mode check (cumulative and retainable: some attached consumer
   * accepts it; transient: one of them has no open transmission), it is
   * retained unless every attached consumer accepting it has a demand
   * queued for it.
   */
  lemma ModeRules<Input(!new), Output>(mode: Mode, scheme: Scheme<Output>, s: GateState<Input, Output>, supply: Supply<Input>)
    ensures mode.Cumulative? && !HasConsumerFor(scheme, s, supply) ==> PassOne(mode, scheme, s, supply) == (s, true)
    ensures mode.Retainable? && !HasConsumerFor(scheme, s, supply) ==>
      PassOne(mode, scheme, s, supply) == (DiscardProducerStep(s, supply.producerId), false)
    ensures mode.Transient? && !HasNontransmittingConsumerFor(scheme, s, supply) ==>
      PassOne(mode, scheme, s, supply) == (DiscardProducerStep(s, supply.producerId), false)
    ensures (scheme.Broadcast? && HasConsumerFor(scheme, s, supply)
             && (mode.Transient? ==> HasNontransmittingConsumerFor(scheme, s, supply))
             && !AllConsumersAreReadyFor(s, supply.input)) ==>
      PassOne(mode, scheme, s, supply) == (s, true)
  {
  }

  /** Transient admits fewer supplies than retainable: a nontransmitting accepting consumer is an accepting consumer. */
  lemma TransientIsStricter<Input(!new), Output>(scheme: Scheme<Output>, s: GateState<Input, Output>, supply: Supply<Input>)
    ensures HasNontransmittingConsumerFor(scheme, s, supply) ==> HasConsumerFor(scheme, s, supply)
  {
  }

  /**
   * A dequeued supply is retained only when nobody was resumed and no
   * transmission opened (at most dead demands were dropped); otherwise it
   * is spent, either because its producer was discarded or because at
   * least one transmission opened for it.
   */
  lemma PassOneRetainsOrSpends<Input(!new), Output>(
    mode: Mode, scheme: Scheme<Output>, s: GateState<Input, Output>, supply: Supply<Input>)
    ensures var (r, keep) := PassOne(mode, scheme, s, supply);
      (keep ==> r == s.(demands := r.demands))
      && (!keep ==> r == DiscardProducerStep(s, supply.producerId) || |r.transmissions| > |s.transmissions|)
  {
    DemandLoopConsumes(scheme, s, supply, false);
  }

  /**
   * A pass returns the retained supplies to the queue in their original
   * relative order: what is queued afterwards is a subsequence of what
   * was set aside followed by what was queued, so no supply is duplicated
   * or reordered.
   */
  lemma {:induction false} PassKeepsRelativeOrder<Input(!new), Output>(
    mode: Mode, scheme: Scheme<Output>, s: GateState<Input, Output>, retained: seq<Supply<Input>>)
    requires mode.capacity >= 1
    ensures Subseq(Pass(mode, scheme, s, retained).supplies, retained + s.supplies)
    decreases |s.supplies|
  {
    if s.supplies == [] {
      assert retained + s.supplies == retained == s.supplies + retained;
      assert Pass(mode, scheme, s, retained) == Requeue(mode, s, retained);
      RequeueKeepsOrder(mode, s, retained);
    } else {
      var supply := s.supplies[0];
      var tail := s.supplies[1..];
      var (t, keep) := PassOne(mode, scheme, s.(supplies := tail), supply);
      var next := if keep then retained + [supply] else retained;
      PassKeepsRelativeOrder(mode, scheme, t, next);
      assert Pass(mode, scheme, s, retained) == Pass(mode, scheme, t, next);
      assert s.supplies == [supply] + tail;
      SubseqAfterStep(retained, supply, tail, t.supplies, Pass(mode, scheme, t, next).supplies, keep);
    }
  }

  /**
   * Re-enqueueing supplies keeps the queue a subsequence of the old queue
   * followed by the re-enqueued supplies: evictions only drop the oldest.
   */
  lemma {:induction false} RequeueKeepsOrder<Input(!new), Output>(
    mode: Mode, s: GateState<Input, Output>, retained: seq<Supply<Input>>)
    requires mode.capacity >= 1 && |s.supplies| <= mode.capacity
    ensures Subseq(Requeue(mode, s, retained).supplies, s.supplies + retained)
    decreases |retained|
  {
    if retained == [] {
      assert s.supplies + retained == s.supplies;
      SubseqRefl(s.supplies);
    } else {
      var t := EnqueueSupplyStep(mode, s, retained[0]);
      RequeueKeepsOrder(mode, t, retained[1..]);
      assert Requeue(mode, s, retained) == Requeue(mode, t, retained[1..]);
      var e := t.supplies[..|t.supplies| - 1];
      assert t.supplies == e + [retained[0]];
      assert [retained[0]] + retained[1..] == retained;
      SubseqAfterEnqueue(s.supplies, e, retained[0], retained[1..], Requeue(mode, t, retained[1..]).supplies);
    }
  }

  /** The sequence reasoning of one step of a requeue. */
  lemma SubseqAfterEnqueue<T>(queue: seq<T>, kept: seq<T>, x: T, rest: seq<T>, out: seq<T>)
    requires Subseq(kept, queue) && Subseq(out, (kept + [x]) + rest)
    ensures Subseq(out, queue + ([x] + rest))
  {
    SubseqAppend(kept, queue, [x] + rest);
    assert (kept + [x]) + rest == kept + ([x] + rest);
    SubseqTrans(out, kept + ([x] + rest), queue + ([x] + rest));
  }

  /** The sequence reasoning of one step of a pass. */
  lemma SubseqAfterStep<T>(retained: seq<T>, x: T, tail: seq<T>, rest: seq<T>, out: seq<T>, keep: bool)
    requires Subseq(rest, tail)
    requires Subseq(out, (if keep then retained + [x] else retained) + rest)
    ensures Subseq(out, retained + ([x] + tail))
  {
    if keep {
      SubseqPrefix(retained + [x], rest, tail);
      assert retained + [x] + tail == retained + ([x] + tail);
      SubseqTrans(out, retained + [x] + rest, retained + ([x] + tail));
    } else {
      SubseqCons(rest, x, tail);
      SubseqPrefix(retained, rest, [x] + tail);
      SubseqTrans(out, retained + rest, retained + ([x] + tail));
    }
  }

  /**
   * Within capacity the closing requeue evicts nothing: the queue after a
   * pass is exactly the supplies the pass kept, in the order it dequeued them.
   */
  lemma {:induction false} PassRequeuesKept<Input(!new), Output>(
    mode: Mode, scheme: Scheme<Output>, s: GateState<Input, Output>, retained: seq<Supply<Input>>)
    requires mode.capacity >= 1 && |retained| + |s.supplies| <= mode.capacity
    ensures Pass(mode, scheme, s, retained).supplies == Kept(mode, scheme, s, retained)
    decreases |s.supplies|
  {
    if s.supplies == [] {
      assert s.supplies + retained == retained;
    } else {
      var supply := s.supplies[0];
      var (t, keep) := PassOne(mode, scheme, s.(supplies := s.supplies[1..]), supply);
      PassRequeuesKept(mode, scheme, t, if keep then retained + [supply] else retained);
    }
  }

  /** The kept supplies are taken from the queue in queue order, each at most once. */
  lemma {:induction false} KeptInQueueOrder<Input(!new), Output>(
    mode: Mode, scheme: Scheme<Output>, s: GateState<Input, Output>, retained: seq<Supply<Input>>)
    ensures Subseq(Kept(mode, scheme, s, retained), retained + s.supplies)
    decreases |s.supplies|
  {
    if s.supplies == [] {
      assert retained + s.supplies == retained;
      SubseqRefl(retained);
    } else {
      var supply := s.supplies[0];
      var tail := s.supplies[1..];
      var (t, keep) := PassOne(mode, scheme, s.(supplies := tail), supply);
      var next := if keep then retained + [supply] else retained;
      KeptInQueueOrder(mode, scheme, t, next);
      assert Kept(mode, scheme, s, retained) == Kept(mode, scheme, t, next);
      assert s.supplies == [supply] + tail;
      SubseqAfterStep(retained, supply, tail, t.supplies, Kept(mode, scheme, t, next), keep);
    }
  }

  /**
   * A whole pass keeps the queue within capacity and its survivors in
   * order; on a queue within capacity the survivors are exactly the
   * supplies the pass kept.
   */
  lemma StartTransmissionsKeepsOrder<Input(!new), Output>(mode: Mode, scheme: Scheme<Output>, s: GateState<Input, Output>)
    requires mode.capacity >= 1
    ensures Subseq(StartTransmissions(mode, scheme, s).supplies, s.supplies)
    ensures |StartTransmissions(mode, scheme, s).supplies| <= |s.supplies|
    ensures |s.supplies| <= mode.capacity ==> StartTransmissions(mode, scheme, s).supplies == Kept(mode, scheme, s, [])
  {
    PassKeepsRelativeOrder(mode, scheme, s, []);
    assert [] + s.supplies == s.supplies;
    SubseqLength(StartTransmissions(mode, scheme, s).supplies, s.supplies);
    if |s.supplies| <= mode.capacity {
      PassRequeuesKept(mode, scheme, s, []);
    }
  }

  // --------------------------------------------------------- consistency

  /** Replies stay backed while replies are unchanged and transmissions only grow at the end. */
  lemma RepliesBackedWhenTransmissionsGrow<Input(!new), Output>(s: GateState<Input, Output>, r: GateState<Input, Output>)
    requires RepliesBacked(s) && r.replies == s.replies
    requires |s.transmissions| <= |r.transmissions| && r.transmissions[..|s.transmissions|] == s.transmissions
    ensures RepliesBacked(r)
  {
    forall j | 0 <= j < |r.replies| ensures Transmitting(r, r.replies[j].consumerId)
    {
      var i :| 0 <= i < |s.transmissions| && s.transmissions[i].consumerId == s.replies[j].consumerId;
      assert r.transmissions[i] == s.transmissions[i];
    }
  }

  /**
   * Resolving a producer ends exactly its transmissions, and takes away
   * exactly the replies of the consumers it transmitted to.
   */
  lemma ResolveProducerEndsItsTransmissions<Input(!new), Output>(scheme: Scheme<Output>, s: GateState<Input, Output>, pid: Id)
    requires AllRepliesAreReady(s, pid)
    ensures forall t :: t in ResolveProducerStep(scheme, s, pid).transmissions <==> t in s.transmissions && t.producerId != pid
    ensures forall j :: 0 <= j < |ResolveProducerStep(scheme, s, pid).replies| ==>
      ResolveProducerStep(scheme, s, pid).replies[j] in s.replies
      && !exists i :: 0 <= i < |s.transmissions| && s.transmissions[i].producerId == pid
                      && s.transmissions[i].consumerId == ResolveProducerStep(scheme, s, pid).replies[j].consumerId
  {
    var r := ResolveProducerStep(scheme, s, pid);
    var ending := EndTransmissions(s.transmissions, pid).1;
    var others := CollectReplies(s.replies, ConsumerIds(ending)).0;
    EndTransmissionsSplits(s.transmissions, pid);
    CollectRepliesSplits(s.replies, ConsumerIds(ending));
    assert r.replies == others;
    assert forall j :: 0 <= j < |others| ==> others[j].consumerId !in ConsumerIds(ending);
    forall j, i | 0 <= j < |others| && 0 <= i < |s.transmissions| && s.transmissions[i].producerId == pid
      ensures s.transmissions[i].consumerId != others[j].consumerId
    {
      assert s.transmissions[i] in ending;
      var k :| 0 <= k < |ending| && ending[k] == s.transmissions[i];
      assert ConsumerIds(ending)[k] == s.transmissions[i].consumerId;
    }
  }

  /** Resolving a producer keeps every remaining reply backed. */
  lemma ResolveProducerKeepsRepliesBacked<Input(!new), Output>(scheme: Scheme<Output>, s: GateState<Input, Output>, pid: Id)
    requires AllRepliesAreReady(s, pid) && RepliesBacked(s)
    ensures RepliesBacked(ResolveProducerStep(scheme, s, pid))
  {
    ResolveProducerEndsItsTransmissions(scheme, s, pid);
    EndingKeepsRepliesBacked(s, ResolveProducerStep(scheme, s, pid), pid);
  }

  /** Ending a producer's transmissions together with its consumers' replies keeps the other replies backed. */
  lemma EndingKeepsRepliesBacked<Input(!new), Output>(s: GateState<Input, Output>, r: GateState<Input, Output>, pid: Id)
    requires RepliesBacked(s)
    requires forall t :: t in r.transmissions <==> t in s.transmissions && t.producerId != pid
    requires forall j :: 0 <= j < |r.replies| ==>
      r.replies[j] in s.replies
      && !exists i :: 0 <= i < |s.transmissions| && s.transmissions[i].producerId == pid
                      && s.transmissions[i].consumerId == r.replies[j].consumerId
    ensures RepliesBacked(r)
  {
    forall j | 0 <= j < |r.replies| ensures Transmitting(r, r.replies[j].consumerId)
    {
      var c := r.replies[j].consumerId;
      var j' :| 0 <= j' < |s.replies| && s.replies[j'] == r.replies[j];
      var i :| 0 <= i < |s.transmissions| && s.transmissions[i].consumerId == c;
      assert s.transmissions[i] in r.transmissions;
      var i' :| 0 <= i' < |r.transmissions| && r.transmissions[i'] == s.transmissions[i];
    }
  }

  /** Finishing producers in any order keeps every remaining reply backed and leaves the queues alone. */
  lemma {:induction false} FinishStepsKeepConsistent<Input(!new), Output>(
    mode: Mode, scheme: Scheme<Output>, s: GateState<Input, Output>, order: seq<Id>)
    requires Consistent(mode, s)
    ensures Consistent(mode, FinishSteps(scheme, s, order))
    ensures FinishSteps(scheme, s, order).supplies == s.supplies
    decreases |order|
  {
    if order != [] {
      var prev := FinishSteps(scheme, s, order[..|order| - 1]);
      FinishStepsKeepConsistent(mode, scheme, s, order[..|order| - 1]);
      var pid := order[|order| - 1];
      if pid in prev.producers && AllRepliesAreReady(prev, pid) {
        ResolveProducerKeepsRepliesBacked(scheme, prev, pid);
      }
    }
  }

  /** `produce` keeps the gate consistent. */
  lemma ProduceKeepsConsistent<Input(!new), Output>(
    mode: Mode, scheme: Scheme<Output>, s: GateState<Input, Output>, pid: Id, input: Input)
    requires Consistent(mode, s)
    ensures Consistent(mode, ProduceStep(mode, scheme, s, pid, input).0)
  {
    if s.sealError.None? {
      var t := EnqueueSupplyStep(mode, s.(producers := s.producers + {pid}), Supply(pid, input));
      RepliesBackedWhenTransmissionsGrow(t, StartTransmissions(mode, scheme, t));
    }
  }

  /** `consume` keeps the gate consistent. */
  lemma ConsumeKeepsConsistent<Input(!new), Output>(
    mode: Mode, scheme: Scheme<Output>, s: GateState<Input, Output>, cid: Id, spec: Spec<Input>)
    requires Consistent(mode, s)
    ensures Consistent(mode, ConsumeStep(mode, scheme, s, cid, spec).0)
  {
    if s.sealError.None? && cid !in s.discarded {
      var t := s.(consumers := s.consumers + {cid}, demands := s.demands + [Demand(cid, spec)]);
      RepliesBackedWhenTransmissionsGrow(t, StartTransmissions(mode, scheme, t));
    }
  }

  /** `respond` keeps the gate consistent, whatever order the producers are visited in. */
  lemma RespondKeepsConsistent<Input(!new), Output>(
    mode: Mode, scheme: Scheme<Output>, s: GateState<Input, Output>, cid: Id, result: Result<Output>, order: seq<Id>)
    requires Consistent(mode, s)
    ensures Consistent(mode, RespondStep(scheme, s, cid, result, order))
  {
    if Transmitting(s, cid) {
      var t := AddReplyStep(s, cid, result);
      assert RepliesBacked(t) by {
        forall j | 0 <= j < |t.replies| ensures Transmitting(t, t.replies[j].consumerId)
        {
          if j < |s.replies| {
            assert t.replies[j] == s.replies[j];
          }
        }
      }
      FinishStepsKeepConsistent(mode, scheme, t, order);
    }
  }

  /** Discarding a producer or a consumer keeps the gate consistent. */
  lemma DiscardKeepsConsistent<Input(!new), Output>(mode: Mode, s: GateState<Input, Output>, id: Id)
    requires Consistent(mode, s)
    ensures Consistent(mode, DiscardProducerStep(s, id))
    ensures Consistent(mode, DiscardConsumerStep(s, id))
  {
    assert RepliesBacked(DiscardProducerStep(s, id));
    assert RepliesBacked(DiscardConsumerStep(s, id));
  }

  /** Cancelling a producer or a consumer keeps the gate consistent. */
  lemma CancelKeepsConsistent<Input(!new), Output>(mode: Mode, s: GateState<Input, Output>, id: Id)
    requires Consistent(mode, s)
    ensures Consistent(mode, CancelProducerStep(s, id))
    ensures Consistent(mode, CancelConsumerStep(s, id))
  {
  }

  /** Attaching and detaching keep the gate consistent. */
  lemma AttachmentKeepsConsistent<Input(!new), Output>(mode: Mode, s: GateState<Input, Output>, id: Id, spec: Spec<Input>)
    requires Consistent(mode, s)
    ensures Consistent(mode, AttachStep(s, id, spec))
    ensures Consistent(mode, DetachStep(s, id))
  {
  }

  /** Sealing keeps the gate consistent. */
  lemma SealKeepsConsistent<Input(!new), Output>(
    mode: Mode, s: GateState<Input, Output>, e: Error, consumerOrder: seq<Id>, producerOrder: seq<Id>)
    requires Consistent(mode, s)
    ensures Consistent(mode, SealStep(s, e, consumerOrder, producerOrder))
  {
  }

  // -------------------------------------------------------- resolution

  /** A reply from a consumer with no open transmission is ignored. */
  lemma RespondWithoutTransmissionIgnored<Input(!new), Output>(
    scheme: Scheme<Output>, s: GateState<Input, Output>, cid: Id, result: Result<Output>, order: seq<Id>)
    requires !Transmitting(s, cid)
    ensures RespondStep(scheme, s, cid, result, order) == s
  {
  }

  /**
   * Finishing resolves only pending producers whose transmissions all
   * have replies, and resolves each at most once.
   */
  lemma {:induction false} FinishResolvesOnlyReadyProducers<Input(!new), Output>(
    scheme: Scheme<Output>, s: GateState<Input, Output>, order: seq<Id>)
    ensures var r := FinishSteps(scheme, s, order);
      |s.log| <= |r.log| && r.log[..|s.log|] == s.log && r.producers <= s.producers
      && forall i :: |s.log| <= i < |r.log| ==> r.log[i].ProducerResolved? && r.log[i].producerId in s.producers - r.producers
    decreases |order|
  {
    if order != [] {
      var prev := FinishSteps(scheme, s, order[..|order| - 1]);
      FinishResolvesOnlyReadyProducers(scheme, s, order[..|order| - 1]);
      var r := FinishOne(scheme, prev, order[|order| - 1]);
      if r.log != prev.log {
        assert r.log[..|prev.log|] == prev.log;
      }
    }
  }

  // --------------------------------------------------------------- seal

  /** Sealing fails every pending consumer and producer once with the seal error and clears every queue. */
  lemma SealFailsEveryPendingParty<Input(!new), Output>(
    s: GateState<Input, Output>, e: Error, consumerOrder: seq<Id>, producerOrder: seq<Id>)
    requires Enumerates(consumerOrder, s.consumers) && Enumerates(producerOrder, s.producers)
    ensures var r := SealStep(s, e, consumerOrder, producerOrder);
      r.producers == {} && r.consumers == {} && r.demands == [] && r.supplies == []
      && r.replies == [] && r.transmissions == [] && r.sealError == Some(e)
      && |r.log| == |s.log| + |s.consumers| + |s.producers|
      && (forall c :: c in s.consumers ==> ConsumerResolved(c, Err(e)) in r.log[|s.log|..])
      && (forall p :: p in s.producers ==> ProducerResolved(p, Err(e)) in r.log[|s.log|..])
  {
    var r := SealStep(s, e, consumerOrder, producerOrder);
    var cs := ConsumerFailures<Input, Output>(consumerOrder, e);
    var ps := ProducerFailures<Input, Output>(producerOrder, e);
    assert r.log[|s.log|..] == cs + ps;
    EnumeratedCount(consumerOrder, s.consumers);
    EnumeratedCount(producerOrder, s.producers);
    forall c | c in s.consumers ensures ConsumerResolved(c, Err(e)) in cs + ps
    {
      var i :| 0 <= i < |consumerOrder| && consumerOrder[i] == c;
      assert (cs + ps)[i] == ConsumerResolved(c, Err(e));
    }
    forall p | p in s.producers ensures ProducerResolved(p, Err(e)) in cs + ps
    {
      var i :| 0 <= i < |producerOrder| && producerOrder[i] == p;
      assert (cs + ps)[|cs| + i] == ProducerResolved(p, Err(e));
    }
  }

  /** A list of distinct ids covering a set has the set's size. */
  lemma {:induction false} EnumeratedCount(order: seq<Id>, ids: set<Id>)
    requires Enumerates(order, ids)
    ensures |order| == |ids|
    decreases |order|
  {
    if order != [] {
      var last := order[|order| - 1];
      var front := order[..|order| - 1];
      assert forall id :: id in front ==> id in order;
      assert forall i :: 0 <= i < |front| ==> front[i] == order[i] != last;
      assert last !in front;
      assert Enumerates(front, ids - {last}) by {
        forall id ensures id in front <==> id in ids - {last}
        {
          if id in ids - {last} {
            var i :| 0 <= i < |order| && order[i] == id;
            assert i != |order| - 1;
            assert front[i] == id;
          }
        }
      }
      EnumeratedCount(front, ids - {last});
    } else {
      assert forall id :: id !in ids;
      assert ids == {};
    }
  }

  /** After a seal, `produce` and `consume` fail with the seal error and change nothing. */
  lemma SealedGateRejects<Input(!new), Output>(
    mode: Mode, scheme: Scheme<Output>, s: GateState<Input, Output>, e: Error,
    consumerOrder: seq<Id>, producerOrder: seq<Id>, id: Id, input: Input, spec: Spec<Input>)
    requires mode.capacity >= 1
    ensures var r := SealStep(s, e, consumerOrder, producerOrder);
      ProduceStep(mode, scheme, r, id, input) == (r, Some(e))
      && ConsumeStep(mode, scheme, r, id, spec) == (r, Some(e))
  {
  }

  // ---------------------------------------------------- discarded consumers

  /** Discarding a pending consumer fails it with `discardedConsumer` and drops its first demand. */
  lemma DiscardPendingConsumer<Input(!new), Output>(s: GateState<Input, Output>, cid: Id)
    requires cid in s.consumers
    ensures var r := DiscardConsumerStep(s, cid);
      r.consumers == s.consumers - {cid}
      && r.log == s.log + [ConsumerResolved(cid, Err(DiscardedConsumer))]
      && r.demands == DequeueDemandOf(s.demands, cid).0
      && r.discarded == s.discarded
  {
  }

  /**
   * An attached consumer that is not waiting is flagged by a discard; its
   * next `consume` fails once with `discardedConsumer` and clears the flag.
   */
  lemma DiscardFlagFailsNextConsumeOnce<Input(!new), Output>(
    mode: Mode, scheme: Scheme<Output>, s: GateState<Input, Output>, cid: Id, spec: Spec<Input>)
    requires mode.capacity >= 1 && s.sealError.None?
    requires cid in s.attached && cid !in s.consumers && cid !in s.discarded
    ensures var r := DiscardConsumerStep(s, cid);
      var (c, err) := ConsumeStep(mode, scheme, r, cid, spec);
      r.discarded == s.discarded + [cid]
      && err.None? && c.log == s.log + [ConsumerResolved(cid, Err(DiscardedConsumer))]
      && c.discarded == s.discarded && c.consumers == s.consumers
  {
    var r := DiscardConsumerStep(s, cid);
    var rm := Remove(r.discarded, cid);
    assert r.discarded == s.discarded + [cid];
    assert rm.0 == s.discarded by {
      var i :| 0 <= i < |r.discarded| && r.discarded[i] == cid && cid !in r.discarded[..i] && rm.0 == r.discarded[..i] + r.discarded[i + 1..];
      assert i == |s.discarded|;
      assert r.discarded[..i] == s.discarded;
    }
  }

  /** Detaching a consumer clears its discard flag. */
  lemma DetachClearsFlag<Input(!new), Output>(s: GateState<Input, Output>, cid: Id)
    requires cid in s.attached && cid !in s.consumers && cid !in s.discarded
    ensures DetachStep(DiscardConsumerStep(s, cid), cid).discarded == s.discarded
    ensures cid !in DetachStep(DiscardConsumerStep(s, cid), cid).attached
  {
    var r := DiscardConsumerStep(s, cid);
    var rm := Remove(r.discarded, cid);
    assert rm.0 == s.discarded by {
      var i :| 0 <= i < |r.discarded| && r.discarded[i] == cid && cid !in r.discarded[..i] && rm.0 == r.discarded[..i] + r.discarded[i + 1..];
      assert i == |s.discarded|;
      assert r.discarded[..i] == s.discarded;
    }
  }
}
