/**
 * The array operations the catalog pipelines are built from: `filter`,
 * `slice` (with JavaScript's treatment of negative and out-of-range
 * indices), page slices of a fixed size, and `[...new Set(xs)]`.
 */
module Seqs {
  import opened Basics

  /** `s.filter(p)`: the elements satisfying `p`, in their original order. */
  function Filter<T>(p: T -> bool, s: seq<T>): (r: seq<T>)
    ensures |r| <= |s|
    ensures forall i :: 0 <= i < |r| ==> r[i] in s && p(r[i])
    ensures forall i :: 0 <= i < |s| && p(s[i]) ==> s[i] in r
    decreases |s|
  {
    if s == [] then [] else (if p(s[0]) then [s[0]] else []) + Filter(p, s[1..])
  }

  /** `r` can be obtained from `s` by deleting elements (order is kept). */
  predicate IsSubsequence<T(==)>(r: seq<T>, s: seq<T>)
    decreases |s|
  {
    if r == [] then true
    else if s == [] then false
    else if r[0] == s[0] then IsSubsequence(r[1..], s[1..])
    else IsSubsequence(r, s[1..])
  }

  lemma {:induction false} SubsequenceOfTail<T>(r: seq<T>, s: seq<T>)
    requires s != [] && IsSubsequence(r, s[1..])
    ensures IsSubsequence(r, s)
    decreases |s|, 0
  {
    if r != [] && r[0] == s[0] {
      // r[1..] is a subsequence of s[1..] because r is.
      SubsequenceDropHead(r, s[1..]);
    }
  }

  lemma {:induction false} SubsequenceDropHead<T>(r: seq<T>, s: seq<T>)
    requires r != [] && IsSubsequence(r, s)
    ensures IsSubsequence(r[1..], s)
    decreases |s|, 1
  {
    if r[0] == s[0] {
      if r[1..] != [] {
        SubsequenceOfTail(r[1..], s);
      }
    } else {
      SubsequenceDropHead(r, s[1..]);
      if r[1..] != [] {
        SubsequenceOfTail(r[1..], s);
      }
    }
  }

  /** A prefix of a subsequence is a subsequence. */
  lemma {:induction false} PrefixIsSubsequence<T>(r: seq<T>, k: nat, s: seq<T>)
    requires k <= |r| && IsSubsequence(r, s)
    ensures IsSubsequence(r[..k], s)
    decreases |s|
  {
    if k > 0 {
      if r[0] == s[0] {
        PrefixIsSubsequence(r[1..], k - 1, s[1..]);
        assert r[..k][1..] == r[1..][..k - 1];
      } else {
        PrefixIsSubsequence(r, k, s[1..]);
      }
    }
  }

  /** A filter result is an order-preserving subsequence of its input. */
  lemma {:induction false} FilterIsSubsequence<T>(p: T -> bool, s: seq<T>)
    ensures IsSubsequence(Filter(p, s), s)
    decreases |s|
  {
    if s != [] {
      FilterIsSubsequence(p, s[1..]);
      if p(s[0]) {
        assert Filter(p, s) == [s[0]] + Filter(p, s[1..]);
      } else {
        assert Filter(p, s) == Filter(p, s[1..]);
        SubsequenceOfTail(Filter(p, s), s);
      }
    }
  }

  /** When every element passes, the filter is the identity. */
  lemma {:induction false} FilterKeepsAll<T>(p: T -> bool, s: seq<T>)
    requires forall i :: 0 <= i < |s| ==> p(s[i])
    ensures Filter(p, s) == s
    decreases |s|
  {
    if s != [] {
      FilterKeepsAll(p, s[1..]);
    }
  }

  /** When no element passes, the filter is empty. */
  lemma {:induction false} FilterRejectsAll<T>(p: T -> bool, s: seq<T>)
    requires forall i :: 0 <= i < |s| ==> !p(s[i])
    ensures Filter(p, s) == []
    decreases |s|
  {
    if s != [] {
      FilterRejectsAll(p, s[1..]);
    }
  }

  /** Filtering twice is filtering once by the conjunction `both`. */
  lemma {:induction false} FilterOfFilter<T>(p: T -> bool, q: T -> bool, both: T -> bool, s: seq<T>)
    requires forall x :: both(x) == (p(x) && q(x))
    ensures Filter(q, Filter(p, s)) == Filter(both, s)
    decreases |s|
  {
    if s != [] {
      FilterOfFilter(p, q, both, s[1..]);
      var rest := Filter(p, s[1..]);
      if p(s[0]) {
        assert Filter(p, s) == [s[0]] + rest;
        assert ([s[0]] + rest)[1..] == rest;
        assert Filter(q, [s[0]] + rest) == (if q(s[0]) then [s[0]] else []) + Filter(q, rest);
      } else {
        assert Filter(p, s) == rest;
      }
    }
  }

  /** Filtering distributes over concatenation. */
  lemma {:induction false} FilterAppend<T>(p: T -> bool, a: seq<T>, b: seq<T>)
    ensures Filter(p, a + b) == Filter(p, a) + Filter(p, b)
    decreases |a|
  {
    if a != [] {
      var head := if p(a[0]) then [a[0]] else [];
      var rest, fb := Filter(p, a[1..]), Filter(p, b);
      assert (a + b)[0] == a[0] && (a + b)[1..] == a[1..] + b;
      FilterAppend(p, a[1..], b);
      assert Filter(p, a + b) == head + (rest + fb);
      assert head + (rest + fb) == (head + rest) + fb;
    } else {
      assert a + b == b;
    }
  }

  /** No two elements of `s` share a key. */
  predicate UniqueKeys<T, K(==)>(key: T -> K, s: seq<T>)
  {
    forall i, j :: 0 <= i < j < |s| ==> key(s[i]) != key(s[j])
  }

  /** Filtering cannot create two elements with the same key. */
  lemma {:induction false} FilterKeepsUniqueKeys<T, K>(key: T -> K, p: T -> bool, s: seq<T>)
    requires UniqueKeys(key, s)
    ensures UniqueKeys(key, Filter(p, s))
    decreases |s|
  {
    if s != [] {
      FilterKeepsUniqueKeys(key, p, s[1..]);
      var rest := Filter(p, s[1..]);
      if p(s[0]) {
        assert Filter(p, s) == [s[0]] + rest;
        forall j | 0 <= j < |rest|
          ensures key(s[0]) != key(rest[j])
        {
          var m :| 0 <= m < |s[1..]| && s[1..][m] == rest[j];
          assert s[m + 1] == rest[j];
        }
      }
    }
  }

  /** The number of elements satisfying `p`. */
  function CountWhere<T>(p: T -> bool, s: seq<T>): nat
  {
    if s == [] then 0 else (if p(s[0]) then 1 else 0) + CountWhere(p, s[1..])
  }

  /** `s.filter(p).length` counts the elements satisfying `p`. */
  lemma {:induction false} FilterLength<T>(p: T -> bool, s: seq<T>)
    ensures |Filter(p, s)| == CountWhere(p, s)
    decreases |s|
  {
    if s != [] {
      FilterLength(p, s[1..]);
    }
  }

  /** One step of the count, taken at position `k` of a suffix. */
  lemma CountStep<T>(p: T -> bool, s: seq<T>, k: nat)
    requires k < |s|
    ensures CountWhere(p, s[k..]) == (if p(s[k]) then 1 else 0) + CountWhere(p, s[k + 1..])
  {
    assert s[k..][1..] == s[k + 1..];
  }

  /** Two predicates that agree on the elements of `s` filter it alike. */
  lemma {:induction false} FilterSamePredicate<T>(p: T -> bool, q: T -> bool, s: seq<T>)
    requires forall i :: 0 <= i < |s| ==> p(s[i]) == q(s[i])
    ensures Filter(p, s) == Filter(q, s)
    decreases |s|
  {
    if s != [] {
      FilterSamePredicate(p, q, s[1..]);
    }
  }

  /** How `slice` normalises one index against a length `n`: a negative index
      counts from the end, and the result is clamped to `[0, n]`. */
  function SliceIndex(i: int, n: nat): (r: nat)
    ensures r <= n
    ensures 0 <= i <= n ==> r == i
    ensures i > n ==> r == n
    ensures i < 0 ==> r == Max(n + i, 0)
  {
    if i < 0 then (if n + i < 0 then 0 else n + i) else if i < n then i else n
  }

  /** `s.slice(start, end)` with JavaScript's index normalisation. */
  function JsSlice<T>(s: seq<T>, start: int, end: int): (r: seq<T>)
    ensures |r| <= |s|
    ensures SliceIndex(start, |s|) < SliceIndex(end, |s|) ==>
              r == s[SliceIndex(start, |s|)..SliceIndex(end, |s|)]
    ensures SliceIndex(start, |s|) >= SliceIndex(end, |s|) ==> r == []
  {
    var a := SliceIndex(start, |s|);
    var b := SliceIndex(end, |s|);
    if a < b then s[a..b] else []
  }

  /** The first `k` elements, `s.slice(0, k)`, for a non-negative `k`. */
  lemma TakeIsPrefix<T>(s: seq<T>, k: nat)
    ensures JsSlice(s, 0, k) == s[..Min(k, |s|)]
  {
  }

  /** Where page `p` (1-based) of `size` items starts: `(p - 1) * size`. */
  function PageStart(p: int, size: nat): (r: int)
    ensures r == (p - 1) * size
    ensures p >= 1 ==> r >= 0
  {
    (p - 1) * size
  }

  lemma PageStartNext(p: int, size: nat)
    ensures PageStart(p + 1, size) == PageStart(p, size) + size
  {
    assert p * size == (p - 1) * size + size;
  }

  /** Page `p` (1-based) of `size` items: `s.slice((p - 1) * size, (p - 1) * size + size)`. */
  function Page<T>(s: seq<T>, p: int, size: nat): (r: seq<T>)
    requires size > 0
    ensures |r| <= size
    ensures p >= 1 ==> r == s[Min(PageStart(p, size), |s|)..Min(PageStart(p, size) + size, |s|)]
  {
    var start := PageStart(p, size);
    JsSlice(s, start, start + size)
  }

  /** Page 0 is empty: both slice indices normalise to the same place. */
  lemma PageZeroIsEmpty<T>(s: seq<T>, size: nat)
    requires size > 0
    ensures Page(s, 0, size) == []
  {
  }

  /** The pages 1..k laid end to end. */
  function PagesUpTo<T>(s: seq<T>, size: nat, k: nat): seq<T>
    requires size > 0
  {
    if k == 0 then [] else PagesUpTo(s, size, k - 1) + Page(s, k, size)
  }

  lemma {:induction false} PagesUpToIsPrefix<T>(s: seq<T>, size: nat, k: nat)
    requires size > 0
    ensures PagesUpTo(s, size, k) == s[..Min(PageStart(k + 1, size), |s|)]
  {
    if k > 0 {
      PagesUpToIsPrefix(s, size, k - 1);
      PageStartNext(k, size);
      var a := Min(PageStart(k, size), |s|);
      var b := Min(PageStart(k + 1, size), |s|);
      assert s[..a] + s[a..b] == s[..b];
    }
  }

  /** Concatenating pages 1..ceil(n/size) gives back the whole sequence. */
  lemma PagesReassemble<T>(s: seq<T>, size: nat)
    requires size > 0
    ensures PagesUpTo(s, size, CeilDiv(|s|, size)) == s
  {
    var k := CeilDiv(|s|, size);
    PagesUpToIsPrefix(s, size, k);
    assert PageStart(k + 1, size) == k * size;
  }

  /** `s.find(p)`: the first element satisfying `p`, if any. */
  function FindFirst<T>(p: T -> bool, s: seq<T>): (r: Option<T>)
    ensures r.Some? ==> r.value in s && p(r.value)
    ensures r.None? <==> forall i :: 0 <= i < |s| ==> !p(s[i])
    decreases |s|
  {
    if s == [] then None
    else if p(s[0]) then Some(s[0])
    else FindFirst(p, s[1..])
  }

  /** `find` returns the element at the first position where `p` holds. */
  lemma {:induction false} FindFirstIsFirst<T>(p: T -> bool, s: seq<T>, i: nat)
    requires i < |s| && p(s[i])
    requires forall j :: 0 <= j < i ==> !p(s[j])
    ensures FindFirst(p, s) == Some(s[i])
    decreases |s|
  {
    if i > 0 {
      FindFirstIsFirst(p, s[1..], i - 1);
    }
  }

  /** The position of the first occurrence of `x` in `s`. */
  function FirstIndex<T(==)>(s: seq<T>, x: T): (i: nat)
    requires x in s
    ensures i < |s| && s[i] == x && x !in s[..i]
  {
    if s[0] == x then 0 else 1 + FirstIndex(s[1..], x)
  }

  predicate NoDuplicates<T(==)>(s: seq<T>)
  {
    forall i, j :: 0 <= i < j < |s| ==> s[i] != s[j]
  }

  /** `s.map(f)`. */
  function MapSeq<T, U>(f: T -> U, s: seq<T>): (r: seq<U>)
    ensures |r| == |s| && forall i :: 0 <= i < |s| ==> r[i] == f(s[i])
  {
    seq(|s|, i requires 0 <= i < |s| => f(s[i]))
  }

  /** `[...new Set(s)]`: each distinct element once, at its first occurrence. */
  function Distinct<T(==)>(s: seq<T>): (r: seq<T>)
    ensures forall i :: 0 <= i < |r| ==> r[i] in s
    ensures forall i :: 0 <= i < |s| ==> s[i] in r
    ensures NoDuplicates(r)
    decreases |s|
  {
    if s == [] then []
    else
      var r := Distinct(s[..|s| - 1]);
      if s[|s| - 1] in r then r else r + [s[|s| - 1]]
  }

  /** The distinct elements come out in the order of their first occurrences. */
  lemma {:induction false} DistinctFirstOccurrenceOrder<T>(s: seq<T>)
    ensures forall i, j :: 0 <= i < j < |Distinct(s)| ==>
              FirstIndex(s, Distinct(s)[i]) < FirstIndex(s, Distinct(s)[j])
    decreases |s|
  {
    if s != [] {
      var init := s[..|s| - 1];
      var last := s[|s| - 1];
      DistinctFirstOccurrenceOrder(init);
      var r := Distinct(init);
      forall x | x in init
        ensures FirstIndex(s, x) == FirstIndex(init, x)
      {
        FirstIndexOfPrefix(init, last, x);
      }
      if last !in r {
        assert last !in init;
        assert FirstIndex(s, last) == |s| - 1 by {
          assert s[..|s| - 1] == init;
        }
        forall i | 0 <= i < |r|
          ensures FirstIndex(s, r[i]) < |s| - 1
        {
          assert r[i] in init;
        }
      }
    }
  }

  /** The first occurrence is the index `i` when `x` is at `i` and nowhere before. */
  lemma {:induction false} FirstIndexAt<T>(s: seq<T>, x: T, i: nat)
    requires i < |s| && s[i] == x
    requires forall k :: 0 <= k < i ==> s[k] != x
    ensures FirstIndex(s, x) == i
  {
    if s[0] != x {
      FirstIndexAt(s[1..], x, i - 1);
    }
  }

  lemma FirstIndexOfPrefix<T>(init: seq<T>, last: T, x: T)
    requires x in init
    ensures FirstIndex(init + [last], x) == FirstIndex(init, x)
  {
    var i := FirstIndex(init, x);
    forall k | 0 <= k < i
      ensures (init + [last])[k] != x
    {
      assert init[..i][k] == init[k];
    }
    FirstIndexAt(init + [last], x, i);
  }
}
