/*
 * Array and optional helpers of Kasync (Sources/Kasync/Utils.swift).
 *
 * Swift arrays are values: a `mutating` method on an array rewrites the
 * caller's variable. Each helper is therefore a function from the old
 * array to the pair (new array, returned value); the classes that own
 * the queues reassign their `seq` fields with the first component.
 */
module Utils {

  datatype Option<+T> = None | Some(value: T)

  /** Index of the first element satisfying `p` (Swift's `firstIndex(where:)`). */
  function FirstIndex<T>(s: seq<T>, p: T -> bool): (r: Option<nat>)
    ensures r.Some? ==> r.value < |s| && p(s[r.value])
    ensures r.Some? ==> forall j :: 0 <= j < r.value ==> !p(s[j])
    ensures r.None? <==> forall j :: 0 <= j < |s| ==> !p(s[j])
  {
    if |s| == 0 then None
    else if p(s[0]) then Some(0)
    else match FirstIndex(s[1..], p)
      case None => None
      case Some(i) => Some(i + 1)
  }

  /** `popFirst`: nil on an empty array, otherwise the head, leaving the tail. */
  function PopFirst<T>(s: seq<T>): (r: (seq<T>, Option<T>))
    ensures r.1.None? <==> |s| == 0
    ensures r.1.None? ==> r.0 == s
    ensures r.1.Some? ==> r.1.value == s[0] && r.0 == s[1..] && [r.1.value] + r.0 == s
  {
    if |s| == 0 then (s, None) else (s[1..], Some(s[0]))
  }

  /** `removeFirst(where:)`: removes and returns the first element satisfying `p`. */
  function RemoveFirstWhere<T>(s: seq<T>, p: T -> bool): (r: (seq<T>, Option<T>))
    ensures r.1.None? <==> forall j :: 0 <= j < |s| ==> !p(s[j])
    ensures r.1.None? ==> r.0 == s
    ensures r.1.Some? ==>
      var i := FirstIndex(s, p).value;
      r.1.value == s[i] && p(r.1.value) && r.0 == s[..i] + s[i + 1..]
    ensures |r.0| == if r.1.Some? then |s| - 1 else |s|
  {
    match FirstIndex(s, p)
    case None => (s, None)
    case Some(i) => (s[..i] + s[i + 1..], Some(s[i]))
  }

  /** `remove(_:)`: removes the first occurrence of `e`, telling whether there was one. */
  function Remove<T(==)>(s: seq<T>, e: T): (r: (seq<T>, bool))
    ensures r.1 <==> e in s
    ensures !r.1 ==> r.0 == s
    ensures r.1 ==> multiset(r.0) + multiset{e} == multiset(s)
    ensures r.1 ==> exists i :: 0 <= i < |s| && s[i] == e && e !in s[..i] && r.0 == s[..i] + s[i + 1..]
  {
    var found := RemoveFirstWhere(s, (x: T) => x == e);
    if found.1.Some? then
      var i := FirstIndex(s, (x: T) => x == e).value;
      assert s == s[..i] + [s[i]] + s[i + 1..];
      assert multiset(s) == multiset(s[..i]) + multiset{e} + multiset(s[i + 1..]);
      assert e !in s[..i] by {
        forall j | 0 <= j < i ensures s[..i][j] != e { }
      }
      (found.0, true)
    else
      (s, false)
  }

  /** The removal keeps every other element, in order, and drops exactly the returned one. */
  lemma RemoveFirstWhereMultiset<T>(s: seq<T>, p: T -> bool)
    ensures var r := RemoveFirstWhere(s, p);
      multiset(s) == multiset(r.0) + (if r.1.Some? then multiset{r.1.value} else multiset{})
  {
    var r := RemoveFirstWhere(s, p);
    if r.1.Some? {
      var i := FirstIndex(s, p).value;
      assert s == s[..i] + [s[i]] + s[i + 1..];
    }
  }

  /** The first overload: `nil` stays `nil`, otherwise the operation's result. */
  function LetNotNil<T1, T2>(instance: Option<T1>, operation: T1 -> Option<T2>): (r: Option<T2>)
    ensures instance.None? ==> r.None?
    ensures instance.Some? ==> r == operation(instance.value)
  {
    match instance
    case None => None
    case Some(x) => operation(x)
  }

  /**
   * The `inout` overload. The operation receives a mutable copy of the
   * unwrapped value; the result pairs the caller's optional (afterwards)
   * with the operation's result. The operation is modelled as returning
   * its updated copy together with its result.
   */
  function LetNotNilInout<T1, T2>(instance: Option<T1>, operation: T1 -> (T1, Option<T2>)): (r: (Option<T1>, Option<T2>))
    ensures r.0 == instance
    ensures instance.None? ==> r.1.None?
    ensures instance.Some? ==> r.1 == operation(instance.value).1
  {
    match instance
    case None => (instance, None)
    case Some(x) =>
      var (copy, result) := operation(x);
      (instance, result)
  }

  /** The `default:` overload: the default when `nil`, otherwise the operation applied. */
  function LetNotNilOr<T1, T2>(instance: Option<T1>, default: T2, operation: T1 -> T2): (r: T2)
    ensures instance.None? ==> r == default
    ensures instance.Some? ==> r == operation(instance.value)
  {
    match instance
    case None => default
    case Some(x) => operation(x)
  }

  function Max(a: int, b: int): int
  {
    if a < b then b else a
  }

  /**
   * The array `partition(by:)` of the Swift standard library, between
   * `lo` and `hi`: an element of the second part found from the front is
   * swapped with an element of the first part found from the back, until
   * the two indices meet. The result is the rearranged array and the
   * index where the second part starts.
   */
  function PartitionFrom<T>(a: seq<T>, p: T -> bool, lo: nat, hi: nat): (r: (seq<T>, nat))
    requires lo <= hi <= |a|
    ensures |r.0| == |a| && lo <= r.1 <= hi
    decreases hi - lo
  {
    if lo == hi then (a, lo)
    else if !p(a[lo]) then PartitionFrom(a, p, lo + 1, hi)
    else if p(a[hi - 1]) then PartitionFrom(a, p, lo, hi - 1)
    else PartitionFrom(a[lo := a[hi - 1]][hi - 1 := a[lo]], p, lo + 1, hi - 1)
  }

  /** Partitioning between `lo` and `hi` leaves every element outside that slice in place. */
  lemma {:induction false} PartitionFromKeepsOutside<T>(a: seq<T>, p: T -> bool, lo: nat, hi: nat)
    requires lo <= hi <= |a|
    ensures var r := PartitionFrom(a, p, lo, hi);
      forall i :: 0 <= i < |a| && !(lo <= i < hi) ==> r.0[i] == a[i]
    decreases hi - lo
  {
    if lo == hi {
    } else if !p(a[lo]) {
      PartitionFromKeepsOutside(a, p, lo + 1, hi);
    } else if p(a[hi - 1]) {
      PartitionFromKeepsOutside(a, p, lo, hi - 1);
    } else {
      var b := a[lo := a[hi - 1]][hi - 1 := a[lo]];
      PartitionFromKeepsOutside(b, p, lo + 1, hi - 1);
      var r := PartitionFrom(b, p, lo + 1, hi - 1);
      forall i | 0 <= i < |a| && !(lo <= i < hi)
        ensures r.0[i] == a[i]
      {
        assert r.0[i] == b[i];
      }
    }
  }

  /** Partitioning only rearranges the elements. */
  lemma {:induction false} PartitionFromPermutes<T>(a: seq<T>, p: T -> bool, lo: nat, hi: nat)
    requires lo <= hi <= |a|
    ensures multiset(PartitionFrom(a, p, lo, hi).0) == multiset(a)
    decreases hi - lo
  {
    if lo == hi {
    } else if !p(a[lo]) {
      PartitionFromPermutes(a, p, lo + 1, hi);
    } else if p(a[hi - 1]) {
      PartitionFromPermutes(a, p, lo, hi - 1);
    } else {
      SwapKeepsMultiset(a, lo, hi - 1);
      PartitionFromPermutes(a[lo := a[hi - 1]][hi - 1 := a[lo]], p, lo + 1, hi - 1);
    }
  }

  /** Between `lo` and `hi`, the elements before the returned index fail `p` and the rest satisfy it. */
  lemma {:induction false} PartitionFromSeparates<T>(a: seq<T>, p: T -> bool, lo: nat, hi: nat)
    requires lo <= hi <= |a|
    ensures var r := PartitionFrom(a, p, lo, hi);
      (forall i :: lo <= i < r.1 ==> !p(r.0[i])) && (forall i :: r.1 <= i < hi ==> p(r.0[i]))
    decreases hi - lo
  {
    if lo == hi {
    } else if !p(a[lo]) {
      PartitionFromSeparates(a, p, lo + 1, hi);
      PartitionFromKeepsOutside(a, p, lo + 1, hi);
    } else if p(a[hi - 1]) {
      PartitionFromSeparates(a, p, lo, hi - 1);
      PartitionFromKeepsOutside(a, p, lo, hi - 1);
    } else {
      var b := a[lo := a[hi - 1]][hi - 1 := a[lo]];
      PartitionFromSeparates(b, p, lo + 1, hi - 1);
      PartitionFromKeepsOutside(b, p, lo + 1, hi - 1);
      var r := PartitionFrom(b, p, lo + 1, hi - 1);
      assert r.0[lo] == b[lo] && r.0[hi - 1] == b[hi - 1];
    }
  }

  lemma SwapKeepsMultiset<T>(a: seq<T>, i: nat, j: nat)
    requires i < j < |a|
    ensures multiset(a[i := a[j]][j := a[i]]) == multiset(a)
  {
    var b := a[i := a[j]][j := a[i]];
    assert a == a[..i] + [a[i]] + a[i + 1..j] + [a[j]] + a[j + 1..];
    assert b == a[..i] + [a[j]] + a[i + 1..j] + [a[i]] + a[j + 1..];
  }

  /**
   * `partition(by:)` on a whole array: a rearrangement of it whose
   * elements before the returned index fail `p` and whose elements from
   * it on satisfy `p`. Neither part need keep the original order.
   */
  function Partition<T>(a: seq<T>, p: T -> bool): (r: (seq<T>, nat))
    ensures |r.0| == |a| && r.1 <= |a|
    ensures multiset(r.0) == multiset(a)
    ensures forall i :: 0 <= i < r.1 ==> !p(r.0[i])
    ensures forall i :: r.1 <= i < |a| ==> p(r.0[i])
  {
    PartitionFromPermutes(a, p, 0, |a|);
    PartitionFromSeparates(a, p, 0, |a|);
    PartitionFrom(a, p, 0, |a|)
  }

  /** The in-place loop of `partition(by:)`, on an array. */
  method PartitionInPlace<T>(a: array<T>, p: T -> bool) returns (pivot: nat)
    modifies a
    ensures (a[..], pivot) == Partition(old(a[..]), p)
  {
    var lo, hi := 0, a.Length;
    while lo < hi
      invariant 0 <= lo <= hi <= a.Length
      invariant PartitionFrom(a[..], p, lo, hi) == Partition(old(a[..]), p)
      decreases hi - lo
    {
      if !p(a[lo]) {
        lo := lo + 1;
      } else if p(a[hi - 1]) {
        hi := hi - 1;
      } else {
        ghost var b := a[..][lo := a[hi - 1]][hi - 1 := a[lo]];
        a[lo], a[hi - 1] := a[hi - 1], a[lo];
        assert a[..] == b;
        lo, hi := lo + 1, hi - 1;
      }
    }
    pivot := lo;
  }

  /** The two parts together hold exactly the elements of the array: nothing is lost or duplicated. */
  lemma PartitionParts<T>(a: seq<T>, p: T -> bool)
    ensures var (b, k) := Partition(a, p);
      multiset(b[..k]) + multiset(b[k..]) == multiset(a)
      && (forall x :: x in b[..k] <==> x in a && !p(x))
      && (forall x :: x in b[k..] <==> x in a && p(x))
  {
    var (b, k) := Partition(a, p);
    assert b == b[..k] + b[k..];
    forall x | x in a
      ensures x in b[..k] || x in b[k..]
    {
      assert x in multiset(b);
      var i :| 0 <= i < |b| && b[i] == x;
      if i < k { assert b[..k][i] == x; } else { assert b[k..][i - k] == x; }
    }
    forall x | x in b[..k]
      ensures !p(x)
    {
      var i :| 0 <= i < k && b[..k][i] == x;
    }
    forall x | x in b[k..]
      ensures p(x)
    {
      var i :| 0 <= i < |b| - k && b[k..][i] == x;
      assert b[k + i] == x;
    }
    assert forall x :: x in b[..k] ==> x in multiset(a);
    assert forall x :: x in b[k..] ==> x in multiset(a);
  }

  /**
   * The partition is not stable: with the second part `{1, 2}` the array
   * `[1, 2, 3]` becomes `[3 | 2, 1]`, reversing the second part.
   */
  lemma PartitionReordersSecondPart()
    ensures Partition([1, 2, 3], (x: int) => x != 3) == ([3, 2, 1], 1)
  {
    var p := (x: int) => x != 3;
    assert [1, 2, 3][0 := 3][2 := 1] == [3, 2, 1];
    assert PartitionFrom([3, 2, 1], p, 1, 2) == PartitionFrom([3, 2, 1], p, 1, 1);
  }

  /** `a` is `b` with some elements left out, the rest in their order. */
  ghost predicate Subseq<T>(a: seq<T>, b: seq<T>)
    decreases |b|
  {
    a == [] || (b != [] && ((a[0] == b[0] && Subseq(a[1..], b[1..])) || Subseq(a, b[1..])))
  }

  lemma {:induction false} SubseqRefl<T>(a: seq<T>)
    ensures Subseq(a, a)
    decreases |a|
  {
    if a != [] {
      SubseqRefl(a[1..]);
    }
  }

  lemma SubseqCons<T>(a: seq<T>, x: T, b: seq<T>)
    requires Subseq(a, b)
    ensures Subseq(a, [x] + b)
  {
    assert ([x] + b)[1..] == b;
  }

  lemma {:induction false} SubseqLength<T>(a: seq<T>, b: seq<T>)
    requires Subseq(a, b)
    ensures |a| <= |b|
    decreases |b|
  {
    if a != [] {
      if a[0] == b[0] && Subseq(a[1..], b[1..]) {
        SubseqLength(a[1..], b[1..]);
      } else {
        SubseqLength(a, b[1..]);
      }
    }
  }

  lemma {:induction false} SubseqTrans<T>(a: seq<T>, b: seq<T>, c: seq<T>)
    requires Subseq(a, b) && Subseq(b, c)
    ensures Subseq(a, c)
    decreases |c|
  {
    if a != [] {
      if b[0] == c[0] && Subseq(b[1..], c[1..]) {
        if a[0] == b[0] && Subseq(a[1..], b[1..]) {
          SubseqTrans(a[1..], b[1..], c[1..]);
        } else {
          SubseqTrans(a, b[1..], c[1..]);
        }
      } else {
        SubseqTrans(a, b, c[1..]);
      }
    }
  }

  /** A common prefix keeps the relation. */
  lemma {:induction false} SubseqPrefix<T>(p: seq<T>, a: seq<T>, b: seq<T>)
    requires Subseq(a, b)
    ensures Subseq(p + a, p + b)
    decreases |p|
  {
    if p == [] {
      assert p + a == a && p + b == b;
    } else {
      assert (p + a)[0] == p[0] == (p + b)[0];
      assert (p + a)[1..] == p[1..] + a && (p + b)[1..] == p[1..] + b;
      SubseqPrefix(p[1..], a, b);
    }
  }

  /** Appending the same suffix to both sides keeps a subsequence. */
  lemma {:induction false} SubseqAppend<T>(a: seq<T>, b: seq<T>, c: seq<T>)
    requires Subseq(a, b)
    ensures Subseq(a + c, b + c)
    decreases |b|
  {
    if b == [] {
      assert a == [] && a + c == c && b + c == c;
      SubseqRefl(c);
    } else if a == [] {
      SubseqAppend(a, b[1..], c);
      assert (b + c)[1..] == b[1..] + c;
      assert a + c == c;
    } else if a[0] == b[0] && Subseq(a[1..], b[1..]) {
      SubseqAppend(a[1..], b[1..], c);
      assert (a + c)[1..] == a[1..] + c;
      assert (b + c)[1..] == b[1..] + c;
    } else {
      SubseqAppend(a, b[1..], c);
      assert (b + c)[1..] == b[1..] + c;
    }
  }

  /** Removing the element at one index leaves a subsequence. */
  lemma {:induction false} SubseqRemoveAt<T>(b: seq<T>, i: nat)
    requires i < |b|
    ensures Subseq(b[..i] + b[i + 1..], b)
    decreases i
  {
    if i == 0 {
      assert b[..0] + b[1..] == b[1..];
      SubseqRefl(b[1..]);
    } else {
      var a := b[..i] + b[i + 1..];
      assert a[0] == b[0];
      assert a[1..] == b[1..][..i - 1] + b[1..][i..];
      SubseqRemoveAt(b[1..], i - 1);
    }
  }

  /** What `removeFirst(where:)` leaves is a subsequence of the array. */
  lemma RemoveFirstWhereSubseq<T>(s: seq<T>, p: T -> bool)
    ensures Subseq(RemoveFirstWhere(s, p).0, s)
  {
    match FirstIndex(s, p)
    case None => SubseqRefl(s);
    case Some(i) => SubseqRemoveAt(s, i);
  }
}
