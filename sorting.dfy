/**
 * `[...items].sort(cmp)` for a consistent comparator. JavaScript's sort is
 * stable, so the result is the unique arrangement that is ordered by the
 * comparator and keeps equal elements in their input order. The model is an
 * insertion sort over the relation `le(a, b)` = "cmp(a, b) <= 0".
 */
module Sorting {
  import opened Seqs

  /** `le` is total and transitive: the relation a consistent comparator induces. */
  ghost predicate TotalPreorder<T(!new)>(le: (T, T) -> bool)
  {
    && (forall a, b :: le(a, b) || le(b, a))
    && (forall a, b, c :: le(a, b) && le(b, c) ==> le(a, c))
  }

  /** `a` and `b` compare as equal. */
  predicate Equivalent<T>(le: (T, T) -> bool, a: T, b: T)
  {
    le(a, b) && le(b, a)
  }

  predicate Sorted<T>(le: (T, T) -> bool, s: seq<T>)
  {
    forall i, j :: 0 <= i < j < |s| ==> le(s[i], s[j])
  }

  /** Ascending order of an integer key: the comparator `key(a) - key(b)`. */
  function ByKey<T>(key: T -> int): (T, T) -> bool
  {
    (a: T, b: T) => key(a) <= key(b)
  }

  /** The comparator negated: `-cmp(a, b)`, i.e. the reverse order. */
  function Reversed<T>(le: (T, T) -> bool): (T, T) -> bool
  {
    (a: T, b: T) => le(b, a)
  }

  lemma ByKeyIsTotalPreorder<T(!new)>(key: T -> int)
    ensures TotalPreorder(ByKey(key))
  {
  }

  lemma ReversedIsTotalPreorder<T(!new)>(le: (T, T) -> bool)
    requires TotalPreorder(le)
    ensures TotalPreorder(Reversed(le))
  {
  }

  /** Places `x` before the first element it does not follow. */
  function Insert<T>(le: (T, T) -> bool, x: T, r: seq<T>): (out: seq<T>)
    ensures |out| == |r| + 1
    ensures multiset(out) == multiset(r) + multiset{x}
  {
    if r == [] || le(x, r[0]) then [x] + r
    else
      assert r == [r[0]] + r[1..];
      [r[0]] + Insert(le, x, r[1..])
  }

  /** The stable sort of `s` by `le`. */
  function StableSort<T>(le: (T, T) -> bool, s: seq<T>): (r: seq<T>)
    ensures multiset(r) == multiset(s)
  {
    if s == [] then []
    else
      assert s == [s[0]] + s[1..];
      Insert(le, s[0], StableSort(le, s[1..]))
  }

  lemma {:induction false} InsertSorted<T(!new)>(le: (T, T) -> bool, x: T, r: seq<T>)
    requires TotalPreorder(le)
    requires Sorted(le, r)
    ensures Sorted(le, Insert(le, x, r))
  {
    if r == [] || le(x, r[0]) {
    } else {
      var tail := Insert(le, x, r[1..]);
      InsertSorted(le, x, r[1..]);
      forall j | 0 <= j < |tail|
        ensures le(r[0], tail[j])
      {
        assert tail[j] in multiset(tail);
        assert tail[j] == x || tail[j] in multiset(r[1..]);
        if tail[j] != x {
          var m :| 0 <= m < |r[1..]| && r[1..][m] == tail[j];
          assert r[m + 1] == tail[j];
        }
      }
    }
  }

  /** The result is ordered by the comparator. */
  lemma {:induction false} StableSortSorted<T(!new)>(le: (T, T) -> bool, s: seq<T>)
    requires TotalPreorder(le)
    ensures Sorted(le, StableSort(le, s))
  {
    if s != [] {
      StableSortSorted(le, s[1..]);
      InsertSorted(le, s[0], StableSort(le, s[1..]));
    }
  }

  /** Inserting `x` does not move it past any element equivalent to it. */
  lemma {:induction false} InsertKeepsClassOrder<T(!new)>(le: (T, T) -> bool, x: T, r: seq<T>, p: T -> bool, k: T)
    requires TotalPreorder(le)
    requires forall y :: p(y) == Equivalent(le, y, k)
    ensures Filter(p, Insert(le, x, r)) == Filter(p, [x] + r)
  {
    if r == [] || le(x, r[0]) {
    } else {
      var head := if p(r[0]) then [r[0]] else [];
      var mid := if p(x) then [x] else [];
      InsertKeepsClassOrder(le, x, r[1..], p, k);
      assert ([r[0]] + Insert(le, x, r[1..]))[1..] == Insert(le, x, r[1..]);
      assert Filter(p, [r[0]] + Insert(le, x, r[1..])) == head + Filter(p, [x] + r[1..]);
      assert ([x] + r[1..])[1..] == r[1..];
      assert Filter(p, [x] + r[1..]) == mid + Filter(p, r[1..]);
      assert ([x] + r)[1..] == r;
      assert r == [r[0]] + r[1..];
      assert Filter(p, r) == head + Filter(p, r[1..]);
      assert Filter(p, [x] + r) == mid + Filter(p, r);
      // x and r[0] cannot both be equivalent to k: that would give le(x, r[0]).
      assert !(p(x) && p(r[0]));
    }
  }

  /**
   * Stability: for every class of mutually equivalent elements (all elements
   * equivalent to some `k`, picked out by `p`), the sort keeps their input order.
   */
  lemma {:induction false} StableSortIsStable<T(!new)>(le: (T, T) -> bool, s: seq<T>, p: T -> bool, k: T)
    requires TotalPreorder(le)
    requires forall y :: p(y) == Equivalent(le, y, k)
    ensures Filter(p, StableSort(le, s)) == Filter(p, s)
  {
    if s != [] {
      StableSortIsStable(le, s[1..], p, k);
      InsertKeepsClassOrder(le, s[0], StableSort(le, s[1..]), p, k);
      var head := if p(s[0]) then [s[0]] else [];
      assert ([s[0]] + StableSort(le, s[1..]))[1..] == StableSort(le, s[1..]);
      assert Filter(p, [s[0]] + StableSort(le, s[1..])) == head + Filter(p, StableSort(le, s[1..]));
    }
  }
}
