/*
 * Counting semaphore with a FIFO waiter queue (Sources/Kasync/Semaphore.swift).
 *
 * Every public call runs under the semaphore's lock, so each is one step
 * from a `SemaphoreState` to the next. The step functions below are the
 * specification; the `Semaphore` class updates its fields in place and
 * proves that it takes exactly those steps.
 */
module Semaphores {
  import opened Suspension

  /** The lock-guarded state; `queue` holds the suspended waiters in arrival order. */
  datatype SemaphoreState = SemaphoreState(enabled: bool, permits: int, queue: seq<Id>, log: seq<Event<()>>)

  /** Between calls no waiter is left queued while a permit is free. */
  predicate Settled(s: SemaphoreState)
  {
    s.queue == [] || s.permits <= 0
  }

  /** How many of `queued` waiters `permits` permits let through. */
  function ReleaseCount(queued: nat, permits: int): (k: nat)
    ensures k <= queued
    ensures permits <= 0 ==> k == 0
    ensures permits > 0 ==> k == queued || k == permits
  {
    if permits <= 0 then 0 else if permits < queued then permits else queued
  }

  /** `resolveContinuationsUnsafe`: while a waiter and a permit remain, release the oldest waiter. */
  function Resolve(s: SemaphoreState): SemaphoreState
    decreases |s.queue|
  {
    if |s.queue| > 0 && s.permits > 0 then
      Resolve(s.(queue := s.queue[1..], permits := s.permits - 1, log := s.log + [Resolved(s.queue[0], Ok(()))]))
    else
      s
  }

  /** `await`: a disabled semaphore fails the waiter yet still queues it; then waiters are released. */
  function AwaitStep(s: SemaphoreState, w: Id): SemaphoreState
  {
    var failed := if !s.enabled then s.(log := s.log + [Resolved(w, Err(DisabledSemaphore))]) else s;
    Resolve(failed.(queue := failed.queue + [w]))
  }

  /** `signal(permits: n)` on an enabled semaphore (`signal()` is n = 1). */
  function SignalStep(s: SemaphoreState, n: int): SemaphoreState
  {
    Resolve(s.(permits := s.permits + n))
  }

  /** `reset(enabled:error:)`: fail every waiter with `error`, empty the queue, restore the permits. */
  function ResetStep(s: SemaphoreState, initialPermits: int, enabled: bool, error: Error): SemaphoreState
  {
    SemaphoreState(enabled, initialPermits, [], s.log + ResolveAll(s.queue, Err(error)))
  }

  /**
   * Releasing is FIFO: exactly the first k waiters are resumed, in order,
   * one permit each, where k is the smaller of the queue length and the
   * (positive part of the) permits.
   */
  lemma {:induction false} ResolveReleasesOldestFirst(s: SemaphoreState)
    ensures var k := ReleaseCount(|s.queue|, s.permits);
      Resolve(s) == s.(queue := s.queue[k..], permits := s.permits - k,
                       log := s.log + ResolveAll(s.queue[..k], Ok(())))
    decreases |s.queue|
  {
    if |s.queue| > 0 && s.permits > 0 {
      var next := s.(queue := s.queue[1..], permits := s.permits - 1, log := s.log + [Resolved(s.queue[0], Ok(()))]);
      ResolveReleasesOldestFirst(next);
      ReleaseOneMore(s, next);
    } else {
      assert s.queue[0..] == s.queue && s.queue[..0] == [];
      assert s.log + ResolveAll(s.queue[..0], Ok(())) == s.log;
    }
  }

  /** One round of the release loop followed by the remaining rounds is the whole prefix. */
  lemma ReleaseOneMore(s: SemaphoreState, next: SemaphoreState)
    requires |s.queue| > 0 && s.permits > 0
    requires next == s.(queue := s.queue[1..], permits := s.permits - 1, log := s.log + [Resolved(s.queue[0], Ok(()))])
    ensures ReleaseCount(|next.queue|, next.permits) == ReleaseCount(|s.queue|, s.permits) - 1
    ensures next.queue[ReleaseCount(|next.queue|, next.permits)..] == s.queue[ReleaseCount(|s.queue|, s.permits)..]
    ensures next.log + ResolveAll(next.queue[..ReleaseCount(|next.queue|, next.permits)], Ok(()))
         == s.log + ResolveAll(s.queue[..ReleaseCount(|s.queue|, s.permits)], Ok(()))
  {
    var k := ReleaseCount(|s.queue|, s.permits);
    var k' := ReleaseCount(|next.queue|, next.permits);
    assert k' == k - 1;
    var released := s.queue[..k];
    assert released[1..] == next.queue[..k'];
    assert ResolveAll(released, Ok(())) == [Resolved(released[0], Ok(()))] + ResolveAll(released[1..], Ok(()));
    assert released[0] == s.queue[0];
  }

  /** After releasing, either nobody waits or no permit is free; nothing but the queue, permits and log change. */
  lemma ResolveSettles(s: SemaphoreState)
    ensures Settled(Resolve(s))
    ensures Resolve(s).enabled == s.enabled
    ensures |Resolve(s).queue| + ReleaseCount(|s.queue|, s.permits) == |s.queue|
  {
    ResolveReleasesOldestFirst(s);
  }

  /** An enabled semaphore with k > 0 permits and nobody waiting lets `await` through at once, leaving k - 1. */
  lemma AwaitPassesWithFreePermit(s: SemaphoreState, w: Id)
    requires s.enabled && s.permits > 0 && s.queue == []
    ensures AwaitStep(s, w) == s.(permits := s.permits - 1, log := s.log + [Resolved(w, Ok(()))])
  {
    var t := s.(queue := [w]);
    assert s.queue + [w] == [w];
    assert AwaitStep(s, w) == Resolve(t);
    ResolveReleasesOldestFirst(t);
    assert [w][..1] == [w] && [w][1..] == [];
    assert ResolveAll([w], Ok(())) == [Resolved(w, Ok(()))];
  }

  /** Without a free permit an enabled `await` suspends: the waiter joins the tail and nothing else changes. */
  lemma AwaitSuspendsWithoutPermit(s: SemaphoreState, w: Id)
    requires s.enabled && s.permits <= 0
    ensures AwaitStep(s, w) == s.(queue := s.queue + [w])
  {
  }

  /**
   * On a disabled semaphore with a free permit, `await` resumes the same
   * waiter's continuation twice: first with `disabledSemaphore`, then by the
   * release. The continuation is checked, so the second resume traps.
   */
  lemma DisabledAwaitResumesTwice(s: SemaphoreState, w: Id)
    requires !s.enabled && s.permits > 0 && s.queue == []
    ensures AwaitStep(s, w).log == s.log + [Resolved(w, Err(DisabledSemaphore)), Resolved(w, Ok(()))]
    ensures TimesResolved(AwaitStep(s, w).log, w) == TimesResolved(s.log, w) + 2
  {
    var failed := s.(log := s.log + [Resolved(w, Err(DisabledSemaphore))]);
    var t := failed.(queue := [w]);
    assert s.queue + [w] == [w];
    assert AwaitStep(s, w) == Resolve(t);
    ResolveReleasesOldestFirst(t);
    assert [w][..1] == [w] && [w][1..] == [];
    assert ResolveAll([w], Ok(())) == [Resolved(w, Ok(()))];
    assert failed.log + [Resolved(w, Ok(()))] == s.log + [Resolved(w, Err(DisabledSemaphore)), Resolved(w, Ok(()))];
    TimesResolvedAppend(s.log, [Resolved(w, Err(DisabledSemaphore)), Resolved(w, Ok(()))], w);
  }

  /**
   * A disabled `await` without a free permit leaves the already-failed waiter
   * queued, so a later release or reset resumes its checked continuation a
   * second time, which traps.
   */
  lemma DisabledAwaitStaysQueued(s: SemaphoreState, w: Id, initialPermits: int, enabled: bool, error: Error)
    requires !s.enabled && s.permits <= 0
    ensures AwaitStep(s, w).queue == s.queue + [w]
    ensures TimesResolved(ResetStep(AwaitStep(s, w), initialPermits, enabled, error).log, w)
            >= TimesResolved(s.log, w) + 2
  {
    var a := AwaitStep(s, w);
    assert a.log == s.log + [Resolved(w, Err(DisabledSemaphore))];
    var failures := ResolveAll(a.queue, Err(error));
    assert failures[|s.queue|] == Resolved(w, Err(error));
    TimesResolvedAppend(s.log, [Resolved(w, Err(DisabledSemaphore))], w);
    TimesResolvedAppend(a.log, failures, w);
    TimesResolvedAppend(failures[..|s.queue|], failures[|s.queue|..], w);
    assert failures[..|s.queue|] + failures[|s.queue|..] == failures;
    assert failures[|s.queue|..][0] == Resolved(w, Err(error));
  }

  /** `signal(permits: n)` adds n permits and then releases the oldest waiters the new count allows. */
  lemma SignalAddsPermits(s: SemaphoreState, n: int)
    ensures var k := ReleaseCount(|s.queue|, s.permits + n);
      SignalStep(s, n) == s.(queue := s.queue[k..], permits := s.permits + n - k,
                             log := s.log + ResolveAll(s.queue[..k], Ok(())))
  {
    ResolveReleasesOldestFirst(s.(permits := s.permits + n));
  }

  /** Every step leaves the semaphore settled. */
  lemma StepsKeepSettled(s: SemaphoreState, w: Id, n: int, initialPermits: int, enabled: bool, error: Error)
    ensures Settled(AwaitStep(s, w))
    ensures Settled(SignalStep(s, n))
    ensures Settled(ResetStep(s, initialPermits, enabled, error))
  {
    var failed := if !s.enabled then s.(log := s.log + [Resolved(w, Err(DisabledSemaphore))]) else s;
    ResolveSettles(failed.(queue := failed.queue + [w]));
    ResolveSettles(s.(permits := s.permits + n));
  }

  class Semaphore {
    const initialPermits: int
    var enabled: bool
    var permits: int
    var continuations: seq<Id>
    var log: seq<Event<()>>

    function State(): SemaphoreState
      reads this
    {
      SemaphoreState(enabled, permits, continuations, log)
    }

    ghost predicate Valid()
      reads this
    {
      Settled(State())
    }

    constructor(initialPermits: int, enabled: bool)
      ensures Valid()
      ensures this.initialPermits == initialPermits
      ensures State() == SemaphoreState(enabled, initialPermits, [], [])
    {
      this.initialPermits := initialPermits;
      this.enabled := enabled;
      this.permits := initialPermits;
      this.continuations := [];
      this.log := [];
    }

    /** Registers the suspension of waiter `w`. */
    method Await(w: Id)
      modifies this
      ensures Valid()
      ensures State() == AwaitStep(old(State()), w)
    {
      if !enabled {
        log := log + [Resolved(w, Err(DisabledSemaphore))];
      }
      continuations := continuations + [w];
      ResolveContinuations();
      StepsKeepSettled(old(State()), w, 0, initialPermits, enabled, ResetSemaphore);
    }

    /** The `onCancel` closure of `await`: resets the whole semaphore. */
    method CancelAwait(enabledAfterCancellation: bool)
      modifies this
      ensures Valid()
      ensures State() == ResetStep(old(State()), initialPermits, enabledAfterCancellation, ResetSemaphore)
    {
      Reset(enabledAfterCancellation, ResetSemaphore);
    }

    /** `signal()`: one more permit, or `disabledSemaphore` with nothing changed. */
    method Signal() returns (r: Result<()>)
      requires Valid()
      modifies this
      ensures Valid()
      ensures r == if old(enabled) then Ok(()) else Err(DisabledSemaphore)
      ensures State() == if old(enabled) then SignalStep(old(State()), 1) else old(State())
    {
      if !enabled {
        return Err(DisabledSemaphore);
      }
      permits := permits + 1;
      ResolveContinuations();
      StepsKeepSettled(old(State()), 0, 1, initialPermits, enabled, ResetSemaphore);
      r := Ok(());
    }

    /** `signal(permits:)`: n more permits, or `disabledSemaphore` with nothing changed. */
    method SignalPermits(n: int) returns (r: Result<()>)
      requires Valid()
      modifies this
      ensures Valid()
      ensures r == if old(enabled) then Ok(()) else Err(DisabledSemaphore)
      ensures State() == if old(enabled) then SignalStep(old(State()), n) else old(State())
    {
      if !enabled {
        return Err(DisabledSemaphore);
      }
      permits := permits + n;
      ResolveContinuations();
      StepsKeepSettled(old(State()), 0, n, initialPermits, enabled, ResetSemaphore);
      r := Ok(());
    }

    /** `reset(enabled:error:)`. */
    method Reset(enabled: bool, error: Error)
      modifies this
      ensures Valid()
      ensures State() == ResetStep(old(State()), initialPermits, enabled, error)
    {
      this.enabled := enabled;
      permits := initialPermits;
      var failed := ResumeEach<()>(continuations, Err(error));
      log := log + failed;
      continuations := [];
    }

    /** `resolveContinuationsUnsafe`. */
    method ResolveContinuations()
      modifies this
      ensures State() == Resolve(old(State()))
    {
      while |continuations| > 0 && permits > 0
        invariant Resolve(State()) == Resolve(old(State()))
        decreases |continuations|
      {
        var continuation := continuations[0];
        continuations := continuations[1..];
        log := log + [Resolved(continuation, Ok(()))];
        permits := permits - 1;
      }
    }
  }
}
