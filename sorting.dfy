/** sort_values, modelled as a stable insertion sort under a total preorder.
    The dashboard's sorts use pandas' default quicksort, which is not stable;
    this model fixes the tie rule to original row order, and SortByStable below
    proves that it is that rule. */
module Sorting {
  import opened Sequences

  ghost predicate TotalPreorder<T(!new)>(le: (T, T) -> bool) {
    && (forall a, b :: le(a, b) || le(b, a))
    && (forall a, b, c :: le(a, b) && le(b, c) ==> le(a, c))
  }

  predicate SortedBy<T>(s: seq<T>, le: (T, T) -> bool) {
    forall i, j :: 0 <= i < j < |s| ==> le(s[i], s[j])
  }

  /** Places x before the first element it is not above. */
  function Insert<T>(x: T, s: seq<T>, le: (T, T) -> bool): (r: seq<T>)
    ensures |r| == |s| + 1
    ensures multiset(r) == multiset(s) + multiset{x}
  {
    if s == [] || le(x, s[0]) then [x] + s
    else
      assert s == [s[0]] + s[1..];
      [s[0]] + Insert(x, s[1..], le)
  }

  function SortBy<T>(s: seq<T>, le: (T, T) -> bool): (r: seq<T>)
    ensures |r| == |s|
    ensures multiset(r) == multiset(s)
  {
    if s == [] then []
    else
      assert s == [s[0]] + s[1..];
      Insert(s[0], SortBy(s[1..], le), le)
  }

  lemma {:induction false} InsertSorted<T(!new)>(x: T, s: seq<T>, le: (T, T) -> bool)
    requires TotalPreorder(le) && SortedBy(s, le)
    ensures SortedBy(Insert(x, s, le), le)
  {
    if s == [] || le(x, s[0]) {
      forall j | 0 < j <= |s| ensures le(x, ([x] + s)[j]) {
        assert le(s[0], s[j - 1]) || j == 1;
      }
    } else {
      var t := s[1..];
      InsertSorted(x, t, le);
      var r := Insert(x, t, le);
      forall i | 0 <= i < |r| ensures le(s[0], r[i]) {
        assert r[i] in multiset(t) + multiset{x};
        if r[i] != x {
          assert r[i] in t;
          var k :| 0 <= k < |t| && t[k] == r[i];
          assert s[k + 1] == r[i];
        }
      }
      assert Insert(x, s, le) == [s[0]] + r;
    }
  }

  /** The result of SortBy is ordered by le. */
  lemma {:induction false} SortBySorted<T(!new)>(s: seq<T>, le: (T, T) -> bool)
    requires TotalPreorder(le)
    ensures SortedBy(SortBy(s, le), le)
  {
    if s != [] {
      SortBySorted(s[1..], le);
      InsertSorted(s[0], SortBy(s[1..], le), le);
    }
  }

  /** Sorting an already ordered sequence returns it unchanged. */
  lemma {:induction false} SortByOrdered<T>(s: seq<T>, le: (T, T) -> bool)
    requires SortedBy(s, le)
    ensures SortBy(s, le) == s
  {
    if s != [] {
      assert SortedBy(s[1..], le);
      SortByOrdered(s[1..], le);
      assert s == [s[0]] + s[1..];
    }
  }

  /** The elements le cannot tell apart from k. */
  function Equivalent<T>(le: (T, T) -> bool, k: T): T -> bool {
    x => le(x, k) && le(k, x)
  }

  lemma NotEquivalentAbove<T(!new)>(le: (T, T) -> bool, x: T, y: T, k: T)
    requires TotalPreorder(le)
    requires !le(x, y) && le(x, k) && le(k, x)
    ensures !(le(y, k) && le(k, y))
  {
  }

  /** Inserting x adds it to the elements a predicate selects, ahead of those
      it is placed before. */
  lemma {:induction false} InsertFilter<T(!new)>(x: T, s: seq<T>, le: (T, T) -> bool, p: T -> bool)
    requires p(x) ==> forall y :: y in s && !le(x, y) ==> !p(y)
    ensures Filter(Insert(x, s, le), p) == if p(x) then [x] + Filter(s, p) else Filter(s, p)
  {
    if s == [] || le(x, s[0]) {
      FilterCons(x, s, p);
    } else {
      assert s == [s[0]] + s[1..];
      var t := Insert(x, s[1..], le);
      InsertFilter(x, s[1..], le, p);
      FilterCons(s[0], t, p);
      FilterCons(s[0], s[1..], p);
      if p(x) {
        assert s[0] in s;
      }
    }
  }

  /** Stability: among elements that compare equal, SortBy keeps the input order. */
  lemma {:induction false} SortByStable<T(!new)>(s: seq<T>, le: (T, T) -> bool, k: T)
    requires TotalPreorder(le)
    ensures Filter(SortBy(s, le), Equivalent(le, k)) == Filter(s, Equivalent(le, k))
  {
    if s != [] {
      SortByStable(s[1..], le, k);
      var t := SortBy(s[1..], le);
      forall y | y in t && !le(s[0], y)
        ensures !(Equivalent(le, k)(s[0]) && Equivalent(le, k)(y))
      {
        if le(s[0], k) && le(k, s[0]) {
          NotEquivalentAbove(le, s[0], y, k);
        }
      }
      InsertFilter(s[0], t, le, Equivalent(le, k));
    }
  }

  // The orders the dashboard sorts by.

  /** In a sorted sequence every element before position k is below every
      element from k on. */
  lemma SortedSplit<T>(s: seq<T>, le: (T, T) -> bool, k: nat)
    requires SortedBy(s, le) && k <= |s|
    ensures forall x, y :: x in multiset(s[..k]) && y in s[k..] ==> le(x, y)
  {
    forall x, y | x in multiset(s[..k]) && y in s[k..] ensures le(x, y) {
      var i :| 0 <= i < k && s[..k][i] == x;
      var j :| 0 <= j < |s| - k && s[k..][j] == y;
      assert s[i] == x && s[k + j] == y;
    }
  }

  /** A suffix of a sorted sequence is sorted, and what it leaves out is below it. */
  lemma SortedSuffix<T>(s: seq<T>, le: (T, T) -> bool, k: nat)
    requires SortedBy(s, le) && k <= |s|
    ensures SortedBy(s[k..], le)
    ensures multiset(s[k..]) <= multiset(s)
    ensures forall x, y :: x in multiset(s) - multiset(s[k..]) && y in s[k..] ==> le(x, y)
  {
    SortedSplit(s, le, k);
    assert s == s[..k] + s[k..];
    assert multiset(s) - multiset(s[k..]) == multiset(s[..k]);
  }

  function IntLe(a: int, b: int): bool { a <= b }

  lemma IntLeTotal()
    ensures TotalPreorder(IntLe)
  {
  }

  /** Orders any value by an integer key derived from it. */
  function ByKey<T>(key: T -> int): (T, T) -> bool {
    (a, b) => key(a) <= key(b)
  }

  lemma ByKeyTotal<T(!new)>(key: T -> int)
    ensures TotalPreorder(ByKey(key))
  {
  }
}
