/** Generic operations on finite sequences that stand for the table operations
    the dashboard applies: selecting a column (Map), boolean-mask filtering
    (Filter), drop_duplicates with keep='first' or keep='last' (KeepFirst,
    KeepLast), and counting occurrences. */
module Sequences {

  function Min(a: int, b: int): int { if a <= b then a else b }
  function Max(a: int, b: int): int { if a >= b then a else b }

  function Map<T, U>(s: seq<T>, f: T -> U): (r: seq<U>)
    ensures |r| == |s|
    ensures forall i :: 0 <= i < |s| ==> r[i] == f(s[i])
  {
    if s == [] then [] else [f(s[0])] + Map(s[1..], f)
  }

  /** Keeps, in order, the elements that satisfy p. */
  function Filter<T(!new)>(s: seq<T>, p: T -> bool): (r: seq<T>)
    ensures |r| <= |s|
  {
    if s == [] then []
    else if p(s[0]) then [s[0]] + Filter(s[1..], p)
    else Filter(s[1..], p)
  }

  /** Filter keeps every copy of each selected element and nothing else. */
  lemma {:induction false} FilterMultiset<T(!new)>(s: seq<T>, p: T -> bool)
    ensures forall x {:trigger multiset(Filter(s, p))[x]} ::
      multiset(Filter(s, p))[x] == if p(x) then multiset(s)[x] else 0
  {
    if s != [] {
      assert s == [s[0]] + s[1..];
      FilterMultiset(s[1..], p);
    }
  }

  /** An element is in the filtered sequence exactly when it is in s and selected. */
  lemma FilterIn<T(!new)>(s: seq<T>, p: T -> bool, x: T)
    ensures x in Filter(s, p) <==> x in s && p(x)
  {
    FilterMultiset(s, p);
    assert x in Filter(s, p) <==> multiset(Filter(s, p))[x] > 0;
    assert x in s <==> multiset(s)[x] > 0;
  }

  lemma {:induction false} FilterNone<T(!new)>(s: seq<T>, p: T -> bool)
    requires forall x :: x in s ==> !p(x)
    ensures Filter(s, p) == []
  {
    if s != [] {
      FilterNone(s[1..], p);
    }
  }

  /** The elements whose key is k. */
  function KeyIs<T, K(==)>(key: T -> K, k: K): T -> bool {
    x => key(x) == k
  }

  /** Selecting the rows whose key is k counts the occurrences of k in the key column. */
  lemma {:induction false} FilterKeyCount<T(!new), K>(s: seq<T>, key: T -> K, k: K)
    ensures |Filter(s, KeyIs(key, k))| == multiset(Map(s, key))[k]
  {
    if s != [] {
      FilterKeyCount(s[1..], key, k);
      assert Map(s, key) == [key(s[0])] + Map(s[1..], key);
    }
  }

  lemma FilterCons<T(!new)>(x: T, s: seq<T>, p: T -> bool)
    ensures Filter([x] + s, p) == if p(x) then [x] + Filter(s, p) else Filter(s, p)
  {
    assert ([x] + s)[1..] == s;
  }

  lemma {:induction false} FilterExt<T(!new)>(s: seq<T>, p: T -> bool, q: T -> bool)
    requires forall x :: x in s ==> p(x) == q(x)
    ensures Filter(s, p) == Filter(s, q)
  {
    if s != [] {
      FilterExt(s[1..], p, q);
    }
  }

  lemma {:induction false} FilterAll<T(!new)>(s: seq<T>, p: T -> bool)
    requires forall x :: x in s ==> p(x)
    ensures Filter(s, p) == s
  {
    if s != [] {
      FilterAll(s[1..], p);
    }
  }

  lemma {:induction false} FilterAppend<T(!new)>(a: seq<T>, b: seq<T>, p: T -> bool)
    ensures Filter(a + b, p) == Filter(a, p) + Filter(b, p)
  {
    if a == [] {
      assert a + b == b;
    } else {
      assert a + b == [a[0]] + (a[1..] + b);
      FilterCons(a[0], a[1..] + b, p);
      FilterAppend(a[1..], b, p);
      assert a == [a[0]] + a[1..];
      FilterCons(a[0], a[1..], p);
    }
  }

  /** Filtering the selected column equals selecting the column of the rows the
      composed predicate keeps. */
  lemma {:induction false} FilterMap<T(!new), U(!new)>(s: seq<T>, f: T -> U, p: U -> bool, q: T -> bool)
    requires forall x :: x in s ==> q(x) == p(f(x))
    ensures Filter(Map(s, f), p) == Map(Filter(s, q), f)
  {
    if s != [] {
      var m := Map(s, f);
      assert m == [f(s[0])] + Map(s[1..], f);
      assert m[1..] == Map(s[1..], f);
      FilterMap(s[1..], f, p, q);
      if q(s[0]) {
        MapAppend([s[0]], Filter(s[1..], q), f);
      }
    }
  }

  lemma {:induction false} MapAppend<T, U>(a: seq<T>, b: seq<T>, f: T -> U)
    ensures Map(a + b, f) == Map(a, f) + Map(b, f)
  {
    if a == [] {
      assert a + b == b;
    } else {
      assert (a + b)[1..] == a[1..] + b;
      MapAppend(a[1..], b, f);
    }
  }

  function Among<T(==)>(L: seq<T>): T -> bool {
    x => x in L
  }

  predicate Distinct<T(==)>(s: seq<T>) {
    forall i, j :: 0 <= i < j < |s| ==> s[i] != s[j]
  }

  lemma TwoCopies<T>(s: seq<T>, i: nat, j: nat)
    requires i < j < |s| && s[i] == s[j]
    ensures multiset(s)[s[i]] >= 2
  {
    assert s == s[..j] + [s[j]] + s[j + 1..];
    assert s[i] in s[..j];
  }

  lemma OneCopyElsewhere<T>(s: seq<T>, x: T) returns (i: nat, j: nat)
    requires multiset(s)[x] >= 2
    ensures i < j < |s| && s[i] == x && s[j] == x
  {
    var k :| 0 <= k < |s| && s[k] == x;
    assert s == s[..k] + [s[k]] + s[k + 1..];
    assert multiset(s[..k] + s[k + 1..])[x] >= 1;
    if x in s[..k] {
      var a :| 0 <= a < k && s[..k][a] == x;
      i, j := a, k;
    } else {
      assert x in s[k + 1..];
      var b :| 0 <= b < |s| - k - 1 && s[k + 1..][b] == x;
      i, j := k, k + 1 + b;
    }
  }

  /** Distinctness depends only on the multiset of elements. */
  lemma DistinctPermutation<T>(a: seq<T>, b: seq<T>)
    requires multiset(a) == multiset(b) && Distinct(a)
    ensures Distinct(b)
  {
    forall i, j | 0 <= i < j < |b| ensures b[i] != b[j] {
      if b[i] == b[j] {
        TwoCopies(b, i, j);
        var p, q := OneCopyElsewhere(a, b[i]);
      }
    }
  }

  function KeySet<T(==), K>(s: seq<T>, key: T -> K): set<K> {
    set x | x in s :: key(x)
  }

  lemma KeySetPermutation<T, K>(a: seq<T>, b: seq<T>, key: T -> K)
    requires multiset(a) == multiset(b)
    ensures KeySet(a, key) == KeySet(b, key)
  {
    assert forall x :: x in a <==> x in multiset(a);
    assert forall x :: x in b <==> x in multiset(b);
  }

  /** Filtering keeps a sequence free of repeats. */
  lemma {:induction false} FilterDistinct<T(!new)>(s: seq<T>, p: T -> bool)
    requires Distinct(s)
    ensures Distinct(Filter(s, p))
  {
    if s != [] {
      FilterDistinct(s[1..], p);
      FilterIn(s[1..], p, s[0]);
      assert s[0] !in s[1..];
      if p(s[0]) {
        DistinctAppend([s[0]], Filter(s[1..], p));
      }
    }
  }

  /** Two sequences without repeats and without common elements concatenate to one. */
  lemma DistinctAppend<T>(a: seq<T>, b: seq<T>)
    requires Distinct(a) && Distinct(b)
    requires forall x :: x in a ==> x !in b
    ensures Distinct(a + b)
  {
    forall i, j | 0 <= i < j < |a + b| ensures (a + b)[i] != (a + b)[j] {
      if i < |a| && j >= |a| {
        assert (a + b)[i] in a && (a + b)[j] == b[j - |a|];
      }
    }
  }

  predicate DistinctKeys<T, K(==)>(s: seq<T>, key: T -> K) {
    forall i, j :: 0 <= i < j < |s| ==> key(s[i]) != key(s[j])
  }

  /** Distinct keys depend only on the multiset of elements. */
  lemma DistinctKeysPermutation<T, K>(a: seq<T>, b: seq<T>, key: T -> K)
    requires multiset(a) == multiset(b) && DistinctKeys(a, key)
    ensures DistinctKeys(b, key)
  {
    forall i, j | 0 <= i < j < |b| ensures key(b[i]) != key(b[j]) {
      assert b[i] in multiset(a) && b[j] in multiset(a);
      var p :| 0 <= p < |a| && a[p] == b[i];
      var q :| 0 <= q < |a| && a[q] == b[j];
      if b[i] == b[j] {
        TwoCopies(b, i, j);
        var p', q' := OneCopyElsewhere(a, b[i]);
      }
    }
  }

  /** The key column holds exactly the keys of the key set. */
  lemma MapKeySet<T, K>(s: seq<T>, key: T -> K, k: K)
    ensures k in Map(s, key) <==> k in KeySet(s, key)
  {
    if k in KeySet(s, key) {
      var x :| x in s && key(x) == k;
      var i :| 0 <= i < |s| && s[i] == x;
      assert Map(s, key)[i] == k;
    }
  }

  lemma MapDistinct<T, K>(s: seq<T>, key: T -> K)
    requires DistinctKeys(s, key)
    ensures Distinct(Map(s, key))
  {
  }

  lemma KeySetSnoc<T, K>(s: seq<T>, x: T, key: T -> K)
    ensures KeySet(s + [x], key) == KeySet(s, key) + {key(x)}
  {
    assert forall y :: y in s + [x] <==> y in s || y == x;
  }

  lemma KeySetCons<T, K>(x: T, s: seq<T>, key: T -> K)
    ensures KeySet([x] + s, key) == {key(x)} + KeySet(s, key)
  {
    assert forall y :: y in [x] + s <==> y == x || y in s;
  }

  /** Filtering keeps the keys of a sequence free of repeats. */
  lemma {:induction false} FilterDistinctKeys<T(!new), K>(s: seq<T>, p: T -> bool, key: T -> K)
    requires DistinctKeys(s, key)
    ensures DistinctKeys(Filter(s, p), key)
  {
    if s != [] {
      FilterDistinctKeys(s[1..], p, key);
      if p(s[0]) {
        var f := Filter(s[1..], p);
        forall j | 0 <= j < |f| ensures key(s[0]) != key(f[j]) {
          FilterIn(s[1..], p, f[j]);
          var k :| 0 <= k < |s[1..]| && s[1..][k] == f[j];
          assert s[k + 1] == f[j];
        }
        var r := [s[0]] + f;
        forall a, b | 0 <= a < b < |r| ensures key(r[a]) != key(r[b]) {
          if a == 0 {
            assert r[b] == f[b - 1];
          } else {
            assert r[a] == f[a - 1] && r[b] == f[b - 1];
          }
        }
      }
    }
  }

  /** Over distinct keys there are as many keys as elements. */
  lemma {:induction false} DistinctKeysCard<T, K>(s: seq<T>, key: T -> K)
    requires DistinctKeys(s, key)
    ensures |KeySet(s, key)| == |s|
  {
    if s != [] {
      DistinctKeysCard(s[1..], key);
      assert s == [s[0]] + s[1..];
      KeySetCons(s[0], s[1..], key);
    }
  }

  function And<T>(p: T -> bool, q: T -> bool): T -> bool {
    x => p(x) && q(x)
  }

  /** Two filters in a row select the elements satisfying both predicates. */
  lemma {:induction false} FilterFilter<T(!new)>(s: seq<T>, p: T -> bool, q: T -> bool)
    ensures Filter(Filter(s, p), q) == Filter(s, And(p, q))
  {
    if s != [] {
      FilterFilter(s[1..], p, q);
    }
  }

  /** drop_duplicates(keep='first'): the first row of each key, in table order. */
  function KeepFirst<T(==), K(==)>(s: seq<T>, key: T -> K): (r: seq<T>)
    ensures DistinctKeys(r, key)
    ensures KeySet(r, key) == KeySet(s, key)
    ensures multiset(r) <= multiset(s)
    decreases |s|
  {
    if s == [] then []
    else
      var init, last := s[..|s| - 1], s[|s| - 1];
      assert s == init + [last];
      KeySetSnoc(init, last, key);
      var p := KeepFirst(init, key);
      if key(last) in KeySet(init, key) then p
      else
        KeySetSnoc(p, last, key);
        assert forall i :: 0 <= i < |p| ==> key(p[i]) in KeySet(p, key);
        p + [last]
  }

  /** A row whose key is already present adds nothing to KeepFirst ... */
  lemma KeepFirstRepeat<T, K>(s: seq<T>, x: T, key: T -> K)
    requires key(x) in KeySet(s, key)
    ensures KeepFirst(s + [x], key) == KeepFirst(s, key)
  {
    assert (s + [x])[..|s|] == s;
  }

  /** ... and a row with a new key is kept, after the rows kept before it. */
  lemma KeepFirstNew<T, K>(s: seq<T>, x: T, key: T -> K)
    requires key(x) !in KeySet(s, key)
    ensures KeepFirst(s + [x], key) == KeepFirst(s, key) + [x]
  {
    assert (s + [x])[..|s|] == s;
  }

  /** drop_duplicates(keep='last'): the last row of each key, in table order. */
  function KeepLast<T(==), K(==)>(s: seq<T>, key: T -> K): (r: seq<T>)
    ensures DistinctKeys(r, key)
    ensures KeySet(r, key) == KeySet(s, key)
    ensures multiset(r) <= multiset(s)
  {
    if s == [] then []
    else
      assert s == [s[0]] + s[1..];
      KeySetCons(s[0], s[1..], key);
      var p := KeepLast(s[1..], key);
      if key(s[0]) in KeySet(s[1..], key) then p
      else
        ConsDistinctKeys(s[0], p, key);
        [s[0]] + p
  }

  /** A row whose key is new keeps the keys distinct in front of p. */
  lemma ConsDistinctKeys<T, K>(x: T, p: seq<T>, key: T -> K)
    requires DistinctKeys(p, key) && key(x) !in KeySet(p, key)
    ensures DistinctKeys([x] + p, key)
    ensures KeySet([x] + p, key) == {key(x)} + KeySet(p, key)
  {
    KeySetCons(x, p, key);
    var q := [x] + p;
    forall i, j | 0 <= i < j < |q| ensures key(q[i]) != key(q[j]) {
      assert q[j] == p[j - 1] && q[j] in p;
      if i > 0 {
        assert q[i] == p[i - 1];
      }
    }
  }

  /** The row KeepFirst keeps for a key is that key's first occurrence. */
  lemma {:induction false} KeepFirstIsFirst<T, K>(s: seq<T>, key: T -> K, x: T) returns (i: nat)
    requires x in KeepFirst(s, key)
    ensures i < |s| && s[i] == x
    ensures forall j :: 0 <= j < i ==> key(s[j]) != key(x)
    decreases |s|
  {
    var init, last := s[..|s| - 1], s[|s| - 1];
    var p := KeepFirst(init, key);
    if x in p {
      i := KeepFirstIsFirst(init, key, x);
    } else {
      assert x == last && key(last) !in KeySet(init, key);
      i := |s| - 1;
      forall j | 0 <= j < i ensures key(s[j]) != key(x) {
        assert s[j] in init;
      }
    }
  }

  /** The row KeepLast keeps for a key is that key's last occurrence. */
  lemma {:induction false} KeepLastIsLast<T, K>(s: seq<T>, key: T -> K, x: T) returns (i: nat)
    requires x in KeepLast(s, key)
    ensures i < |s| && s[i] == x
    ensures forall j :: i < j < |s| ==> key(s[j]) != key(x)
  {
    var p := KeepLast(s[1..], key);
    if x in p {
      var k := KeepLastIsLast(s[1..], key, x);
      i := k + 1;
    } else {
      assert x == s[0] && key(s[0]) !in KeySet(s[1..], key);
      i := 0;
      forall j | 0 < j < |s| ensures key(s[j]) != key(x) {
        assert s[j] in s[1..];
      }
    }
  }

  /** On a table whose keys are already unique, both de-duplications change nothing. */
  lemma {:induction false} KeepFirstUnique<T, K>(s: seq<T>, key: T -> K)
    requires DistinctKeys(s, key)
    ensures KeepFirst(s, key) == s
    decreases |s|
  {
    if s != [] {
      var init, last := s[..|s| - 1], s[|s| - 1];
      KeepFirstUnique(init, key);
      assert key(last) !in KeySet(init, key);
      assert s == init + [last];
    }
  }

  lemma {:induction false} KeepLastUnique<T, K>(s: seq<T>, key: T -> K)
    requires DistinctKeys(s, key)
    ensures KeepLast(s, key) == s
  {
    if s != [] {
      KeepLastUnique(s[1..], key);
      assert key(s[0]) !in KeySet(s[1..], key);
      assert s == [s[0]] + s[1..];
    }
  }

  function Identity<T>(x: T): T { x }

  /** The distinct values of s in order of first appearance. */
  function Unique<T(==,!new)>(s: seq<T>): (r: seq<T>)
    ensures Distinct(r)
    ensures forall x :: x in r <==> x in s
  {
    var r := KeepFirst(s, Identity);
    assert forall x :: x in s ==> Identity(x) in KeySet(s, Identity);
    assert forall x :: x in r ==> Identity(x) in KeySet(r, Identity);
    assert forall x :: x in r ==> x in multiset(s);
    r
  }

  /** The total number of times the values of L occur in s. */
  function Occurrences<T(==)>(L: seq<T>, s: seq<T>): nat {
    if L == [] then 0 else multiset(s)[L[0]] + Occurrences(L[1..], s)
  }

  lemma {:induction false} OccurrencesAppend<T>(L1: seq<T>, L2: seq<T>, s: seq<T>)
    ensures Occurrences(L1 + L2, s) == Occurrences(L1, s) + Occurrences(L2, s)
  {
    if L1 == [] {
      assert L1 + L2 == L2;
    } else {
      assert (L1 + L2)[1..] == L1[1..] + L2;
      OccurrencesAppend(L1[1..], L2, s);
    }
  }

  lemma {:induction false} OccurrencesCons<T>(L: seq<T>, x: T, s: seq<T>)
    requires Distinct(L)
    ensures Occurrences(L, [x] + s) == Occurrences(L, s) + (if x in L then 1 else 0)
  {
    if L != [] {
      OccurrencesCons(L[1..], x, s);
      assert x in L <==> x == L[0] || x in L[1..];
      assert L[0] !in L[1..];
    }
  }

  /** Over distinct labels, the summed occurrence counts equal the number of
      elements that carry one of the labels: nothing is lost or counted twice. */
  lemma {:induction false} OccurrencesCount<T(!new)>(L: seq<T>, s: seq<T>)
    requires Distinct(L)
    ensures Occurrences(L, s) == |Filter(s, Among(L))|
  {
    if s == [] {
      OccurrencesEmpty(L, s);
    } else {
      assert s == [s[0]] + s[1..];
      OccurrencesCons(L, s[0], s[1..]);
      OccurrencesCount(L, s[1..]);
    }
  }

  lemma {:induction false} OccurrencesEmpty<T>(L: seq<T>, s: seq<T>)
    requires s == []
    ensures Occurrences(L, s) == 0
  {
    if L != [] {
      OccurrencesEmpty(L[1..], s);
    }
  }

  /** If every element of s carries one of the distinct labels L, the counts sum to |s|. */
  lemma OccurrencesCover<T(!new)>(L: seq<T>, s: seq<T>)
    requires Distinct(L)
    requires forall x :: x in s ==> x in L
    ensures Occurrences(L, s) == |s|
  {
    OccurrencesCount(L, s);
    FilterAll(s, Among(L));
  }
}
