/**
 * Generic sequence operations behind the record store: the `filter`,
 * `findIndex`, `map` and `[...new Set(...)]` idioms of the storage layer.
 */
module Collections {

  /** The elements of `s` that satisfy `p`, in their original order (`Array.prototype.filter`). */
  function KeepIf<T(!new)>(s: seq<T>, p: T -> bool): (r: seq<T>)
    ensures |r| <= |s|
    ensures forall x :: x in r <==> x in s && p(x)
    ensures |r| == |s| <==> forall i :: 0 <= i < |s| ==> p(s[i])
    ensures (forall i :: 0 <= i < |s| ==> p(s[i])) ==> r == s
  {
    if |s| == 0 then []
    else (if p(s[0]) then [s[0]] else []) + KeepIf(s[1..], p)
  }

  /** Filtering distributes over concatenation: survivors keep their relative order. */
  lemma {:induction false} KeepIfAppend<T(!new)>(a: seq<T>, b: seq<T>, p: T -> bool)
    ensures KeepIf(a + b, p) == KeepIf(a, p) + KeepIf(b, p)
  {
    if |a| == 0 {
      assert a + b == b;
    } else {
      assert (a + b)[1..] == a[1..] + b;
      KeepIfAppend(a[1..], b, p);
    }
  }

  /** Each value occurs in the filtered sequence exactly as often as in the input if it passes, else never. */
  lemma {:induction false} KeepIfCount<T(!new)>(s: seq<T>, p: T -> bool, x: T)
    ensures multiset(KeepIf(s, p))[x] == if p(x) then multiset(s)[x] else 0
  {
    if |s| > 0 {
      assert s == [s[0]] + s[1..];
      KeepIfCount(s[1..], p, x);
    }
  }

  /** Filtering by two predicates that agree everywhere gives the same result. */
  lemma {:induction false} KeepIfAgree<T(!new)>(s: seq<T>, p: T -> bool, q: T -> bool)
    requires forall x :: p(x) == q(x)
    ensures KeepIf(s, p) == KeepIf(s, q)
  {
    if |s| > 0 {
      KeepIfAgree(s[1..], p, q);
    }
  }

  /** Filtering twice by the same predicate is filtering once. */
  lemma KeepIfIdempotent<T(!new)>(s: seq<T>, p: T -> bool)
    ensures KeepIf(KeepIf(s, p), p) == KeepIf(s, p)
  {
  }

  /** Index of the first element whose key is `key`, or -1 when there is none (`Array.prototype.findIndex`). */
  function FindIndex<T, K(==)>(s: seq<T>, keyOf: T -> K, key: K): (i: int)
    ensures -1 <= i < |s|
    ensures i == -1 <==> forall j :: 0 <= j < |s| ==> keyOf(s[j]) != key
    ensures 0 <= i ==> keyOf(s[i]) == key && forall j :: 0 <= j < i ==> keyOf(s[j]) != key
  {
    if |s| == 0 then -1
    else if keyOf(s[0]) == key then 0
    else
      var k := FindIndex(s[1..], keyOf, key);
      if k == -1 then -1 else k + 1
  }

  /** The elements whose key equals `key`, in order. */
  function WithKey<T(!new), K(==)>(s: seq<T>, keyOf: T -> K, key: K): (r: seq<T>)
    ensures forall x :: x in r <==> x in s && keyOf(x) == key
  {
    KeepIf(s, x => keyOf(x) == key)
  }

  /** The elements whose key differs from `key`, in order. */
  function WithoutKey<T(!new), K(==)>(s: seq<T>, keyOf: T -> K, key: K): (r: seq<T>)
    ensures forall x :: x in r <==> x in s && keyOf(x) != key
    ensures |r| == |s| <==> FindIndex(s, keyOf, key) == -1
  {
    KeepIf(s, x => keyOf(x) != key)
  }

  /** `s.map(f)`. */
  function MapSeq<T, U>(s: seq<T>, f: T -> U): (r: seq<U>)
    ensures |r| == |s|
    ensures forall i :: 0 <= i < |s| ==> r[i] == f(s[i])
  {
    seq(|s|, i requires 0 <= i < |s| => f(s[i]))
  }

  lemma MapSeqAppend<T, U>(a: seq<T>, b: seq<T>, f: T -> U)
    ensures MapSeq(a + b, f) == MapSeq(a, f) + MapSeq(b, f)
  {
  }

  /**
   * The first occurrences of the values of `s` that are not in `seen`, in order
   * of first occurrence; `Distinct(s)` is `[...new Set(s)]`.
   */
  function DistinctFrom<T(==,!new)>(s: seq<T>, seen: set<T>): (r: seq<T>)
    ensures forall x :: x in r <==> x in s && x !in seen
    ensures forall i, j :: 0 <= i < j < |r| ==> r[i] != r[j]
  {
    if |s| == 0 then []
    else if s[0] in seen then DistinctFrom(s[1..], seen)
    else [s[0]] + DistinctFrom(s[1..], seen + {s[0]})
  }

  function Distinct<T(==,!new)>(s: seq<T>): (r: seq<T>)
    ensures forall x :: x in r <==> x in s
    ensures forall i, j :: 0 <= i < j < |r| ==> r[i] != r[j]
  {
    DistinctFrom(s, {})
  }

  /** `[...new Set(s.map(keyOf))]`: every key in use, once each, in order of first use. */
  function DistinctKeys<T, K(==,!new)>(s: seq<T>, keyOf: T -> K): (r: seq<K>)
    ensures forall k :: k in r <==> exists i :: 0 <= i < |s| && keyOf(s[i]) == k
    ensures forall i, j :: 0 <= i < j < |r| ==> r[i] != r[j]
  {
    var all := MapSeq(s, keyOf);
    assert forall k :: k in all ==> exists i :: 0 <= i < |s| && keyOf(s[i]) == k by {
      forall k | k in all
        ensures exists i :: 0 <= i < |s| && keyOf(s[i]) == k
      {
        var i :| 0 <= i < |all| && all[i] == k;
      }
    }
    Distinct(all)
  }
}
