/*
 * Retry with backoff (Sources/Kasync/Fuse.swift).
 *
 * A `Fuse` holds only constants, so it is a value. The protected block is
 * modelled by its outcome on each attempt (`block(k)` is what the k-th call
 * returns or throws); the sleeps between attempts are returned as the list
 * of their durations instead of being performed.
 */
module Retry {
  import opened Utils
  import opened Suspension

  datatype Backoff = Linear | Fibonacci | Exponential

  /** A sleep duration: a number of seconds, or `factor * e^n` for the exponential backoff. */
  datatype Delay = Seconds(seconds: real) | FactorTimesExp(factor: real, n: nat)

  /** The Fibonacci numbers, starting 0, 1. */
  function Fib(n: nat): nat
  {
    if n < 2 then n else Fib(n - 2) + Fib(n - 1)
  }

  datatype Fuse = Fuse(backoff: Backoff, factor: real, tryLimit: int)
  {
    /** The delay the backoff prescribes after the failed attempt number `tryNumber`. */
    ghost predicate IsTimeout(tryNumber: nat, d: Delay)
    {
      match backoff
      case Linear => d == Seconds(factor)
      case Fibonacci => d == Seconds(factor * Fib(tryNumber) as real)
      case Exponential => d == FactorTimesExp(factor, tryNumber)
    }

    /** The loop of `fibonacci(n:)`: after `n` rounds `a` is the n-th Fibonacci number. */
    method Fibonacci(n: nat) returns (r: real)
      ensures r == Fib(n) as real
    {
      var a, b := 0, 1;
      for i := 0 to n
        invariant a == Fib(i) && b == Fib(i + 1)
      {
        a, b := b, a + b;
      }
      r := a as real;
    }

    /** `timeout(tryNumber:)`: linear is constant, Fibonacci scales `factor` by Fib(tryNumber). */
    method Timeout(tryNumber: nat) returns (d: Delay)
      ensures IsTimeout(tryNumber, d)
    {
      match backoff {
        case Linear =>
          d := Seconds(factor);
        case Fibonacci =>
          var fib := Fibonacci(tryNumber);
          d := Seconds(factor * fib);
        case Exponential =>
          d := FactorTimesExp(factor, tryNumber);
      }
    }

    /**
     * `protected`: runs the block until it succeeds, throws a cancellation,
     * or has failed `tryLimit` times (at least once in any case), sleeping
     * the backoff delay after every other failure.
     */
    method Protected<T>(block: nat -> Result<T>) returns (r: Result<T>, tries: nat, delays: seq<Delay>)
      ensures 1 <= tries <= Max(tryLimit, 1)
      ensures r == block(tries)
      ensures forall k :: 1 <= k < tries ==> block(k).Err? && block(k).error != Cancellation
      ensures r.Ok? || r.error == Cancellation || tries >= tryLimit
      ensures |delays| == tries - 1
      ensures forall k :: 0 <= k < |delays| ==> IsTimeout(k + 1, delays[k])
    {
      var tryNumber: nat := 0;
      delays := [];
      while true
        invariant tryNumber == 0 || tryNumber < tryLimit
        invariant forall k :: 1 <= k <= tryNumber ==> block(k).Err? && block(k).error != Cancellation
        invariant |delays| == tryNumber
        invariant forall k :: 0 <= k < |delays| ==> IsTimeout(k + 1, delays[k])
        decreases Max(tryLimit, 1) - tryNumber
      {
        tryNumber := tryNumber + 1;
        var outcome := block(tryNumber);
        if outcome.Ok? || outcome.error == Cancellation || tryNumber >= tryLimit {
          return outcome, tryNumber, delays;
        }
        var timeout := Timeout(tryNumber);
        delays := delays + [timeout];
      }
    }
  }
}
