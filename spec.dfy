/*
 * Predicate combinators of Kasync (Sources/Kasync/Spec.swift).
 *
 * Swift builds every combined spec as a `TSpec` wrapping a closure; the
 * model keeps the way each spec was built as a tagged value and gives
 * `IsSatisfiedBy` the meaning each closure has.
 */
module Specs {

  datatype Spec<!T(!new)> =
    | TrueSpec
    | FalseSpec
    | TSpec(isSatisfiedBy: T -> bool)
    | AndSpec(spec1: Spec<T>, spec2: Spec<T>)
    | OrSpec(spec1: Spec<T>, spec2: Spec<T>)
    | NotSpec(spec: Spec<T>)
  {
    /** Whether `obj` satisfies this spec. */
    function IsSatisfiedBy(obj: T): bool
    {
      match this
      case TrueSpec => true
      case FalseSpec => false
      case TSpec(f) => f(obj)
      case AndSpec(s1, s2) => s1.IsSatisfiedBy(obj) && s2.IsSatisfiedBy(obj)
      case OrSpec(s1, s2) => s1.IsSatisfiedBy(obj) || s2.IsSatisfiedBy(obj)
      case NotSpec(s) => !s.IsSatisfiedBy(obj)
    }

    /** `a.and(b)` holds exactly where both hold. */
    function And(other: Spec<T>): (r: Spec<T>)
      ensures forall x :: r.IsSatisfiedBy(x) <==> IsSatisfiedBy(x) && other.IsSatisfiedBy(x)
    {
      AndSpec(this, other)
    }

    /** `a.or(b)` holds exactly where either holds. */
    function Or(other: Spec<T>): (r: Spec<T>)
      ensures forall x :: r.IsSatisfiedBy(x) <==> IsSatisfiedBy(x) || other.IsSatisfiedBy(x)
    {
      OrSpec(this, other)
    }

    /** `a.not()` holds exactly where `a` does not. */
    function Not(): (r: Spec<T>)
      ensures forall x :: r.IsSatisfiedBy(x) <==> !IsSatisfiedBy(x)
    {
      NotSpec(this)
    }
  }

  /** A closure spec evaluates exactly its closure. */
  lemma TSpecEvaluatesClosure<T(!new)>(f: T -> bool, x: T)
    ensures TSpec(f).IsSatisfiedBy(x) == f(x)
  {
  }

  /** `TrueSpec` accepts every value and `FalseSpec` rejects every value. */
  lemma ConstantSpecs<T(!new)>(x: T)
    ensures TrueSpec.IsSatisfiedBy(x)
    ensures !FalseSpec.IsSatisfiedBy(x)
  {
  }

  /** Negating twice gives a spec satisfied by the same values. */
  lemma DoubleNegation<T(!new)>(s: Spec<T>, x: T)
    ensures s.Not().Not().IsSatisfiedBy(x) == s.IsSatisfiedBy(x)
  {
  }

  /** De Morgan: `a.and(b).not()` and `a.not().or(b.not())` agree everywhere. */
  lemma DeMorgan<T(!new)>(a: Spec<T>, b: Spec<T>, x: T)
    ensures a.And(b).Not().IsSatisfiedBy(x) == a.Not().Or(b.Not()).IsSatisfiedBy(x)
  {
  }
}
