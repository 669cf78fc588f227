/*
 * Cyclic barrier with auto and manual modes (Sources/Kasync/Barrier.swift).
 *
 * `countdown` counts up the registered waiters; once it reaches
 * `partiesCount` every queued waiter is released together.
 */
module Barriers {
  import opened Suspension

  datatype Mode = Auto | Manual

  /** The lock-guarded state; `queue` holds the suspended waiters in arrival order. */
  datatype BarrierState = BarrierState(countdown: int, queue: seq<Id>, enabled: bool, log: seq<Event<()>>)

  /** Between calls the countdown counts the queued waiters and has not reached the party count. */
  predicate Balanced(s: BarrierState, partiesCount: int)
  {
    s.countdown == |s.queue| && (s.countdown == 0 || s.countdown < partiesCount)
  }

  /** `dispatchCountdown`: at the threshold, release everyone, restart the count, and in manual mode disable. */
  function Dispatch(s: BarrierState, partiesCount: int, mode: Mode): BarrierState
  {
    if s.countdown < partiesCount then s
    else BarrierState(0, [], if mode == Manual then false else s.enabled, s.log + ResolveAll(s.queue, Ok(())))
  }

  /** `addContinuation`. */
  function AddWaiter(s: BarrierState, w: Id): BarrierState
  {
    s.(queue := s.queue + [w], countdown := s.countdown + 1)
  }

  /** `await`: a disabled barrier lets the caller straight through; otherwise it registers and dispatches. */
  function AwaitStep(s: BarrierState, w: Id, partiesCount: int, mode: Mode): BarrierState
  {
    if !s.enabled then s else Dispatch(AddWaiter(s, w), partiesCount, mode)
  }

  /** `signal`: force the count to the threshold and dispatch. */
  function SignalStep(s: BarrierState, partiesCount: int, mode: Mode): BarrierState
  {
    Dispatch(s.(countdown := partiesCount), partiesCount, mode)
  }

  /** `reset(error:)`: fail everyone with `error`, restart the count, enable. */
  function ResetStep(s: BarrierState, error: Error): BarrierState
  {
    BarrierState(0, [], true, s.log + ResolveAll(s.queue, Err(error)))
  }

  /** Every step keeps the countdown equal to the queue length and below the party count. */
  lemma StepsKeepBalanced(s: BarrierState, w: Id, partiesCount: int, mode: Mode, error: Error)
    requires Balanced(s, partiesCount)
    ensures Balanced(AwaitStep(s, w, partiesCount, mode), partiesCount)
    ensures Balanced(SignalStep(s, partiesCount, mode), partiesCount)
    ensures Balanced(ResetStep(s, error), partiesCount)
  {
  }

  /**
   * An `await` that brings the queue to the party count releases every
   * queued waiter, itself last, at once; one that does not releases nobody.
   */
  lemma AwaitReleasesAllAtThreshold(s: BarrierState, w: Id, partiesCount: int, mode: Mode)
    requires Balanced(s, partiesCount) && s.enabled
    ensures var r := AwaitStep(s, w, partiesCount, mode);
      if |s.queue| + 1 >= partiesCount then
        r.queue == [] && r.countdown == 0 && r.log == s.log + ResolveAll(s.queue + [w], Ok(()))
        && r.enabled == (mode == Auto)
      else
        r == s.(queue := s.queue + [w], countdown := s.countdown + 1)
  {
  }

  /** With a party count of 1 every `await` is released as soon as it registers. */
  lemma SinglePartyPassesThrough(s: BarrierState, w: Id, mode: Mode)
    requires Balanced(s, 1) && s.enabled
    ensures AwaitStep(s, w, 1, mode).log == s.log + [Resolved(w, Ok(()))]
    ensures AwaitStep(s, w, 1, mode).queue == []
  {
    assert s.queue == [];
    assert s.queue + [w] == [w];
    assert ResolveAll([w], Ok(())) == [Resolved(w, Ok(()))];
  }

  /** After a manual-mode release, later `await` calls pass without queuing until a reset. */
  lemma ManualReleaseDisables(s: BarrierState, w: Id, v: Id, partiesCount: int)
    requires Balanced(s, partiesCount) && s.enabled && |s.queue| + 1 >= partiesCount
    ensures var r := AwaitStep(s, w, partiesCount, Manual);
      !r.enabled && AwaitStep(r, v, partiesCount, Manual) == r
    ensures AwaitStep(ResetStep(AwaitStep(s, w, partiesCount, Manual), Cancellation), v, partiesCount, Manual).enabled
            == (partiesCount > 1)
  {
  }

  /** `signal` releases every queued waiter, however few there are. */
  lemma SignalReleasesEveryone(s: BarrierState, partiesCount: int, mode: Mode)
    ensures SignalStep(s, partiesCount, mode).queue == []
    ensures SignalStep(s, partiesCount, mode).countdown == 0
    ensures SignalStep(s, partiesCount, mode).log == s.log + ResolveAll(s.queue, Ok(()))
  {
  }

  class Barrier {
    const partiesCount: int
    const mode: Mode
    var countdown: int
    var continuations: seq<Id>
    var enabled: bool
    var log: seq<Event<()>>

    function State(): BarrierState
      reads this
    {
      BarrierState(countdown, continuations, enabled, log)
    }

    ghost predicate Valid()
      reads this
    {
      Balanced(State(), partiesCount)
    }

    constructor(partiesCount: int, mode: Mode)
      ensures Valid()
      ensures this.partiesCount == partiesCount && this.mode == mode
      ensures State() == BarrierState(0, [], true, [])
    {
      this.partiesCount := partiesCount;
      this.mode := mode;
      countdown := 0;
      continuations := [];
      enabled := true;
      log := [];
    }

    /** `await` of waiter `w`; `passed` tells that it returned at once because the barrier is disabled. */
    method Await(w: Id) returns (passed: bool)
      requires Valid()
      modifies this
      ensures Valid()
      ensures passed == !old(enabled)
      ensures State() == AwaitStep(old(State()), w, partiesCount, mode)
    {
      if !enabled {
        return true;
      }
      AddContinuation(w);
      DispatchCountdown();
      passed := false;
      StepsKeepBalanced(old(State()), w, partiesCount, mode, Cancellation);
    }

    /** The `onCancel` closure of `await`: resets the whole barrier with a cancellation error. */
    method CancelAwait()
      requires Valid()
      modifies this
      ensures Valid()
      ensures State() == ResetStep(old(State()), Cancellation)
    {
      Reset(Cancellation);
    }

    /** `signal`. */
    method Signal()
      requires Valid()
      modifies this
      ensures Valid()
      ensures State() == SignalStep(old(State()), partiesCount, mode)
    {
      countdown := partiesCount;
      DispatchCountdown();
    }

    /** `reset(error:)`. */
    method Reset(error: Error)
      modifies this
      ensures Valid()
      ensures State() == ResetStep(old(State()), error)
    {
      var failed := ResumeEach<()>(continuations, Err(error));
      log := log + failed;
      continuations := [];
      countdown := 0;
      enabled := true;
    }

    /** `addContinuation`. */
    method AddContinuation(w: Id)
      modifies this
      ensures State() == AddWaiter(old(State()), w)
    {
      continuations := continuations + [w];
      countdown := countdown + 1;
    }

    /** `dispatchCountdown`. */
    method DispatchCountdown()
      modifies this
      ensures State() == Dispatch(old(State()), partiesCount, mode)
    {
      if countdown < partiesCount {
        return;
      }
      var released := ResumeEach<()>(continuations, Ok(()));
      log := log + released;
      continuations := [];
      countdown := 0;
      if mode == Manual {
        enabled := false;
      }
    }
  }
}
