/*
 * The shared suspension contract. A suspended party is resumed exactly
 * by appending a `Resolved` entry to its primitive's log; the errors are
 * those the primitives throw, plus `Custom` for errors supplied by a
 * caller (the `error:` argument of `reset` or `seal`).
 */
module Suspension {

  /** Identifier of a suspended party (a `UInt64` id in Swift, or a continuation handle). */
  type Id = nat

  datatype Error =
    | DisabledSemaphore
    | ResetSemaphore
    | Cancellation
    | SealedGate
    | CanceledProducer
    | DiscardedProducer
    | CanceledConsumer
    | DiscardedConsumer
    | Custom(code: int)

  datatype Result<+V> = Ok(value: V) | Err(error: Error)

  /** One resumption of a suspended party. */
  datatype Event<+V> = Resolved(id: Id, result: Result<V>)

  /** Resumes every id of `ids`, in order, with the same `result`. */
  function ResolveAll<V>(ids: seq<Id>, result: Result<V>): (r: seq<Event<V>>)
    ensures |r| == |ids|
    ensures forall i :: 0 <= i < |ids| ==> r[i] == Resolved(ids[i], result)
  {
    if ids == [] then [] else [Resolved(ids[0], result)] + ResolveAll(ids[1..], result)
  }

  /** Resuming a queue in two parts is resuming it in one go. */
  lemma {:induction false} ResolveAllAppend<V>(a: seq<Id>, b: seq<Id>, result: Result<V>)
    ensures ResolveAll(a + b, result) == ResolveAll(a, result) + ResolveAll(b, result)
  {
    if a != [] {
      assert (a + b)[1..] == a[1..] + b;
      ResolveAllAppend(a[1..], b, result);
    } else {
      assert a + b == b;
    }
  }

  /**
   * The `for continuation in continuations { continuation.resume(...) }`
   * loops: the events of resuming each id in turn.
   */
  method ResumeEach<V>(ids: seq<Id>, result: Result<V>) returns (events: seq<Event<V>>)
    ensures events == ResolveAll(ids, result)
  {
    events := [];
    for i := 0 to |ids|
      invariant events == ResolveAll(ids[..i], result)
    {
      ResolveAllAppend(ids[..i], [ids[i]], result);
      assert ids[..i + 1] == ids[..i] + [ids[i]];
      events := events + [Resolved(ids[i], result)];
    }
    assert ids[..|ids|] == ids;
  }

  /** The ids a log resumes, in order. */
  function ResolvedIds<V>(log: seq<Event<V>>): (r: seq<Id>)
    ensures |r| == |log|
    ensures forall i :: 0 <= i < |log| ==> r[i] == log[i].id
  {
    if log == [] then [] else [log[0].id] + ResolvedIds(log[1..])
  }

  /** How many times a log resumes `id`. */
  function TimesResolved<V>(log: seq<Event<V>>, id: Id): (n: nat)
    ensures n <= |log|
    ensures n == 0 <==> forall i :: 0 <= i < |log| ==> log[i].id != id
  {
    if log == [] then 0
    else (if log[0].id == id then 1 else 0) + TimesResolved(log[1..], id)
  }

  lemma {:induction false} TimesResolvedAppend<V>(a: seq<Event<V>>, b: seq<Event<V>>, id: Id)
    ensures TimesResolved(a + b, id) == TimesResolved(a, id) + TimesResolved(b, id)
  {
    if a != [] {
      assert (a + b)[0] == a[0] && (a + b)[1..] == a[1..] + b;
      TimesResolvedAppend(a[1..], b, id);
    } else {
      assert a + b == b;
    }
  }
}
