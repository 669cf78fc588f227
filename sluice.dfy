/*
 * Counting admission gate (Sources/Kasync/Sluice.swift).
 *
 * At most `capacity` callers are inside at a time; the others wait in a
 * FIFO queue of passes. The dictionary of enter continuations keyed by
 * enter id becomes the set `waiting` of ids whose continuation is still
 * stored.
 */
module Sluices {
  import opened Utils
  import opened Suspension

  /** The lock-guarded state. */
  datatype SluiceState = SluiceState(counter: int, queue: seq<Id>, waiting: set<Id>, log: seq<Event<()>>)

  /** The passing counter never exceeds the capacity (or 0 for a capacity below 0). */
  predicate Bounded(s: SluiceState, capacity: int)
  {
    s.counter <= Max(capacity, 0)
  }

  /** Every caller is resumed at most once, and a still waiting caller not yet. */
  ghost predicate ResumedAtMostOnce(s: SluiceState)
  {
    (forall id :: TimesResolved(s.log, id) <= 1)
    && (forall id :: id in s.waiting ==> TimesResolved(s.log, id) == 0)
  }

  /**
   * `dispatchPass`: below capacity, pop the oldest pass; if its caller
   * still waits, admit it. A pass whose caller has gone is dropped, and no
   * further pass is tried in the same call.
   */
  function DispatchStep(s: SluiceState, capacity: int): SluiceState
  {
    if s.counter >= capacity || s.queue == [] then s
    else
      var head := s.queue[0];
      if head !in s.waiting then s.(queue := s.queue[1..])
      else SluiceState(s.counter + 1, s.queue[1..], s.waiting - {head}, s.log + [Resolved(head, Ok(()))])
  }

  /** `enter` up to the suspension: store the continuation, queue the pass, dispatch. */
  function EnterStep(s: SluiceState, id: Id, capacity: int): SluiceState
  {
    DispatchStep(s.(waiting := s.waiting + {id}, queue := s.queue + [id]), capacity)
  }

  /** `exit`: decrement the counter (unchecked) and dispatch. */
  function ExitStep(s: SluiceState, capacity: int): SluiceState
  {
    DispatchStep(s.(counter := s.counter - 1), capacity)
  }

  /** The `onCancel` closure of `enter`: drop the stored continuation and fail it; the pass stays queued. */
  function CancelStep(s: SluiceState, id: Id): SluiceState
  {
    if id in s.waiting then s.(waiting := s.waiting - {id}, log := s.log + [Resolved(id, Err(Cancellation))])
    else s
  }

  /**
   * One dispatch admits nobody or exactly the oldest queued caller, and
   * admits it exactly when there is room and that caller still waits.
   */
  lemma DispatchAdmitsOldestOnly(s: SluiceState, capacity: int)
    ensures var r := DispatchStep(s, capacity);
      (s.counter < capacity && s.queue != [] && s.queue[0] in s.waiting) <==> r.counter == s.counter + 1
    ensures var r := DispatchStep(s, capacity);
      if r.counter == s.counter + 1 then r.log == s.log + [Resolved(s.queue[0], Ok(()))] && r.waiting == s.waiting - {s.queue[0]}
      else r.log == s.log && r.counter == s.counter && r.waiting == s.waiting
    ensures var r := DispatchStep(s, capacity);
      r.queue == s.queue || (s.queue != [] && r.queue == s.queue[1..])
  {
  }

  /** No step lets more than `capacity` callers in. */
  lemma StepsKeepBounded(s: SluiceState, id: Id, capacity: int)
    requires Bounded(s, capacity)
    ensures Bounded(EnterStep(s, id, capacity), capacity)
    ensures Bounded(ExitStep(s, capacity), capacity)
    ensures Bounded(CancelStep(s, id), capacity)
  {
  }

  lemma {:induction false} DispatchKeepsResumedAtMostOnce(s: SluiceState, capacity: int)
    requires ResumedAtMostOnce(s)
    ensures ResumedAtMostOnce(DispatchStep(s, capacity))
  {
    var r := DispatchStep(s, capacity);
    if r.log != s.log {
      var head := s.queue[0];
      forall id
        ensures TimesResolved(r.log, id) <= 1
        ensures id in r.waiting ==> TimesResolved(r.log, id) == 0
      {
        var granted: seq<Event<()>> := [Resolved(head, Ok(()))];
        TimesResolvedAppend(s.log, granted, id);
        assert granted[1..] == [];
      }
    }
  }

  /**
   * A caller is resumed at most once, whether admitted or cancelled,
   * provided every entering caller brings an id not resumed before.
   */
  lemma {:induction false} StepsKeepResumedAtMostOnce(s: SluiceState, id: Id, capacity: int)
    requires ResumedAtMostOnce(s)
    ensures TimesResolved(s.log, id) == 0 ==> ResumedAtMostOnce(EnterStep(s, id, capacity))
    ensures ResumedAtMostOnce(ExitStep(s, capacity))
    ensures ResumedAtMostOnce(CancelStep(s, id))
  {
    var t := s.(waiting := s.waiting + {id}, queue := s.queue + [id]);
    if TimesResolved(s.log, id) == 0 {
      DispatchKeepsResumedAtMostOnce(t, capacity);
    }
    DispatchKeepsResumedAtMostOnce(s.(counter := s.counter - 1), capacity);
    if id in s.waiting {
      var c := CancelStep(s, id);
      forall x
        ensures TimesResolved(c.log, x) <= 1
        ensures x in c.waiting ==> TimesResolved(c.log, x) == 0
      {
        var failed: seq<Event<()>> := [Resolved(id, Err(Cancellation))];
        TimesResolvedAppend(s.log, failed, x);
        assert failed[1..] == [];
      }
    }
  }

  /**
   * A cancelled caller's pass stays queued; when it reaches the head, an
   * `exit` spends its dispatch on it and admits nobody, although a live
   * caller waits behind it and there is room.
   */
  lemma CancelledPassStrandsNextCaller()
    ensures var s0 := SluiceState(0, [], {}, []);
      var s1 := EnterStep(s0, 1, 1);
      var s2 := EnterStep(EnterStep(s1, 2, 1), 3, 1);
      var s3 := CancelStep(s2, 2);
      var s4 := ExitStep(s3, 1);
      s1.counter == 1 && s4.counter == 0 && s4.queue == [3] && 3 in s4.waiting
      && TimesResolved(s4.log, 3) == 0
  {
    var s0 := SluiceState(0, [], {}, []);
    var s1 := EnterStep(s0, 1, 1);
    assert s1 == SluiceState(1, [], {}, [Resolved(1, Ok(()))]);
    var s2 := EnterStep(EnterStep(s1, 2, 1), 3, 1);
    assert s2 == SluiceState(1, [2, 3], {2, 3}, [Resolved(1, Ok(()))]);
    var s3 := CancelStep(s2, 2);
    assert s3 == SluiceState(1, [2, 3], {3}, [Resolved(1, Ok(())), Resolved(2, Err(Cancellation))]);
    var s4 := ExitStep(s3, 1);
    assert [2, 3][1..] == [3];
    assert s4 == SluiceState(0, [3], {3}, [Resolved(1, Ok(())), Resolved(2, Err(Cancellation))]);
  }

  class Sluice {
    const passingCapacity: int
    var passingCounter: int
    var passQueue: seq<Id>
    var enterContinuations: set<Id>
    var log: seq<Event<()>>

    function State(): SluiceState
      reads this
    {
      SluiceState(passingCounter, passQueue, enterContinuations, log)
    }

    ghost predicate Valid()
      reads this
    {
      Bounded(State(), passingCapacity) && ResumedAtMostOnce(State())
    }

    constructor(capacity: int)
      ensures Valid()
      ensures passingCapacity == capacity
      ensures State() == SluiceState(0, [], {}, [])
    {
      passingCapacity := capacity;
      passingCounter := 0;
      passQueue := [];
      enterContinuations := {};
      log := [];
    }

    /** `enter` of the caller `id`, up to its suspension. */
    method Enter(id: Id)
      requires Valid() && TimesResolved(log, id) == 0
      modifies this
      ensures Valid()
      ensures State() == EnterStep(old(State()), id, passingCapacity)
    {
      enterContinuations := enterContinuations + {id};
      passQueue := passQueue + [id];
      DispatchPass();
      StepsKeepResumedAtMostOnce(old(State()), id, passingCapacity);
    }

    /** The cancellation handler of `enter`. */
    method CancelEnter(id: Id)
      requires Valid()
      modifies this
      ensures Valid()
      ensures State() == CancelStep(old(State()), id)
    {
      var found := id in enterContinuations;
      enterContinuations := enterContinuations - {id};
      if found {
        log := log + [Resolved(id, Err(Cancellation))];
      }
      StepsKeepResumedAtMostOnce(old(State()), id, passingCapacity);
    }

    /** `exit`. */
    method Exit()
      requires Valid()
      modifies this
      ensures Valid()
      ensures State() == ExitStep(old(State()), passingCapacity)
    {
      passingCounter := passingCounter - 1;
      DispatchPass();
      StepsKeepResumedAtMostOnce(old(State()), 0, passingCapacity);
    }

    /** `dispatchPass`. */
    method DispatchPass()
      modifies this
      ensures State() == DispatchStep(old(State()), passingCapacity)
    {
      if passingCounter >= passingCapacity || passQueue == [] {
        return;
      }
      var pass := passQueue[0];
      passQueue := passQueue[1..];
      if pass !in enterContinuations {
        return;
      }
      enterContinuations := enterContinuations - {pass};
      passingCounter := passingCounter + 1;
      log := log + [Resolved(pass, Ok(()))];
    }

    /**
     * `synchronized`, once `enter` has completed with `entered`: a failed
     * enter rethrows without `exit`; otherwise the closure's outcome is
     * returned and `exit` runs.
     */
    method Synchronized<T>(entered: Result<()>, closure: Result<T>) returns (r: Result<T>)
      requires Valid()
      modifies this
      ensures Valid()
      ensures entered.Err? ==> r == Err(entered.error) && State() == old(State())
      ensures entered.Ok? ==> r == closure && State() == ExitStep(old(State()), passingCapacity)
    {
      if entered.Err? {
        return Err(entered.error);
      }
      r := closure;
      Exit();
    }
  }
}
