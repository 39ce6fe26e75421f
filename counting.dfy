/** value_counts and the top-n selections built on it (the "top 5 or Others"
    relabelling and the channel leaderboard's ten most frequent channels).
    Entries with equal counts keep the order in which their labels first
    appear, the tie rule of the stable sort this model uses. */
module Counting {
  import opened Sequences
  import opened Sorting

  /** One line of value_counts: a label and how many times it occurs. */
  datatype Entry<K> = Entry(key: K, count: nat)

  function Key<K>(e: Entry<K>): K { e.key }

  function CountIn<K(==)>(keys: seq<K>): K -> Entry<K> {
    k => Entry(k, multiset(keys)[k])
  }

  /** Every entry of r carries its label's number of occurrences in keys. */
  ghost predicate Counted<K(!new)>(r: seq<Entry<K>>, keys: seq<K>) {
    forall e :: e in r ==> e.count == multiset(keys)[e.key] && e.count > 0
  }

  /** One entry per distinct label of keys, in order of first appearance. */
  function Tally<K(==,!new)>(keys: seq<K>): (r: seq<Entry<K>>)
    ensures DistinctKeys(r, Key)
    ensures forall k :: k in KeySet(r, Key) <==> k in keys
    ensures Counted(r, keys)
  {
    var u := Unique(keys);
    var r := Map(u, CountIn(keys));
    assert forall i :: 0 <= i < |r| ==> r[i].key == u[i];
    forall k | k in keys ensures k in KeySet(r, Key) {
      var i :| 0 <= i < |u| && u[i] == k;
      assert Key(r[i]) == k;
    }
    forall e | e in r ensures e.count == multiset(keys)[e.key] && e.count > 0 {
      var i :| 0 <= i < |r| && r[i] == e;
      assert u[i] in keys;
    }
    r
  }

  /** The summed counts of a list of entries. */
  function TotalCount<K>(r: seq<Entry<K>>): nat {
    if r == [] then 0 else r[0].count + TotalCount(r[1..])
  }

  lemma {:induction false} TotalCountOccurrences<K>(L: seq<K>, keys: seq<K>)
    ensures TotalCount(Map(L, CountIn(keys))) == Occurrences(L, keys)
  {
    if L != [] {
      var m := Map(L, CountIn(keys));
      assert m[1..] == Map(L[1..], CountIn(keys));
      TotalCountOccurrences(L[1..], keys);
    }
  }

  /** The counts of the tally add up to the number of labels counted. */
  lemma TallyTotal<K(!new)>(keys: seq<K>)
    ensures TotalCount(Tally(keys)) == |keys|
  {
    TotalCountOccurrences(Unique(keys), keys);
    OccurrencesCover(Unique(keys), keys);
  }

  /** Orders entries by non-increasing count. */
  function ByCount<K>(a: Entry<K>, b: Entry<K>): bool { a.count >= b.count }

  lemma ByCountTotal<K(!new)>()
    ensures TotalPreorder<Entry<K>>(ByCount)
  {
  }

  lemma {:induction false} TotalCountInsert<K>(x: Entry<K>, s: seq<Entry<K>>, le: (Entry<K>, Entry<K>) -> bool)
    ensures TotalCount(Insert(x, s, le)) == x.count + TotalCount(s)
  {
    if s != [] && !le(x, s[0]) {
      var r := Insert(x, s, le);
      assert r[1..] == Insert(x, s[1..], le);
      TotalCountInsert(x, s[1..], le);
    }
  }

  /** Sorting does not change the summed counts. */
  lemma {:induction false} TotalCountSort<K>(s: seq<Entry<K>>, le: (Entry<K>, Entry<K>) -> bool)
    ensures TotalCount(SortBy(s, le)) == TotalCount(s)
  {
    if s != [] {
      TotalCountSort(s[1..], le);
      TotalCountInsert(s[0], SortBy(s[1..], le), le);
    }
  }

  /** value_counts: the tally in non-increasing order of count. */
  function ValueCounts<K(==,!new)>(keys: seq<K>): (r: seq<Entry<K>>)
    ensures SortedBy(r, ByCount)
    ensures DistinctKeys(r, Key)
    ensures forall k :: k in KeySet(r, Key) <==> k in keys
    ensures Counted(r, keys)
  {
    var u := Tally(keys);
    var r := SortBy(u, ByCount);
    ByCountTotal<K>();
    SortBySorted(u, ByCount);
    DistinctKeysPermutation(u, r, Key);
    KeySetPermutation(u, r, Key);
    assert forall e :: e in r ==> e in multiset(u);
    r
  }

  /** The counts of value_counts add up to the number of labels counted. */
  lemma ValueCountsTotal<K(!new)>(keys: seq<K>)
    ensures TotalCount(ValueCounts(keys)) == |keys|
  {
    TallyTotal(keys);
    TotalCountSort(Tally(keys), ByCount);
  }

  /** The first n entries of value_counts (values[:n] and [:n] in pandas). */
  function TopCounts<K(==,!new)>(keys: seq<K>, n: nat): (r: seq<Entry<K>>)
    ensures |r| <= n
    ensures |r| < n ==> forall k :: k in keys ==> k in KeySet(r, Key)
    ensures SortedBy(r, ByCount)
    ensures DistinctKeys(r, Key)
    ensures forall k :: k in KeySet(r, Key) ==> k in keys
    ensures Counted(r, keys)
    ensures forall e, k :: e in r && k in keys && k !in KeySet(r, Key) ==> multiset(keys)[k] <= e.count
  {
    var v := ValueCounts(keys);
    var m := Min(n, |v|);
    PrefixDominates(keys, v, m);
    v[..m]
  }

  /** A label left out of a prefix of value_counts is no more frequent than
      any label in it. */
  lemma PrefixDominates<K(!new)>(keys: seq<K>, v: seq<Entry<K>>, m: nat)
    requires v == ValueCounts(keys) && m <= |v|
    ensures forall e, k :: e in v[..m] && k in keys && k !in KeySet(v[..m], Key) ==> multiset(keys)[k] <= e.count
  {
    SortedSplit(v, ByCount, m);
    assert v == v[..m] + v[m..];
    forall e, k | e in v[..m] && k in keys && k !in KeySet(v[..m], Key) ensures multiset(keys)[k] <= e.count {
      var f :| f in v && Key(f) == k;
      assert f !in v[..m];
      assert f in v[m..];
      assert e in multiset(v[..m]);
      assert ByCount(e, f);
    }
  }

  /** The labels of the first n entries of value_counts. */
  function TopLabels<K(==,!new)>(keys: seq<K>, n: nat): (r: seq<K>)
    ensures |r| <= n
    ensures |r| < n ==> forall k :: k in keys ==> k in r
    ensures Distinct(r)
    ensures forall k :: k in r ==> k in keys
    ensures forall k, l :: k in keys && k !in r && l in r ==> multiset(keys)[k] <= multiset(keys)[l]
  {
    var c := TopCounts(keys, n);
    var r := Map(c, Key);
    forall k ensures k in r <==> k in KeySet(c, Key) {
      MapKeySet(c, Key, k);
    }
    forall k, l | k in keys && k !in r && l in r ensures multiset(keys)[k] <= multiset(keys)[l] {
      var i :| 0 <= i < |r| && r[i] == l;
      assert c[i] in c;
    }
    MapDistinct(c, Key);
    r
  }

  const Others: string := "Others"

  /** map_others: a label outside the kept ones becomes "Others". */
  function MapOthers(top: seq<string>, x: string): (r: string)
    ensures x in top ==> r == x
    ensures x !in top ==> r == Others
  {
    if x !in top then Others else x
  }

  function Relabel(top: seq<string>): string -> string {
    x => MapOthers(top, x)
  }

  /** Relabelling leaves the count of every kept label other than "Others" unchanged,
      and no label outside the kept ones and "Others" survives it. */
  lemma {:induction false} RelabelCounts(keys: seq<string>, top: seq<string>, k: string)
    ensures k in top && k != Others ==> multiset(Map(keys, Relabel(top)))[k] == multiset(keys)[k]
    ensures k !in top && k != Others ==> multiset(Map(keys, Relabel(top)))[k] == 0
  {
    if keys != [] {
      RelabelCounts(keys[1..], top, k);
      assert keys == [keys[0]] + keys[1..];
      assert Map(keys, Relabel(top)) == [MapOthers(top, keys[0])] + Map(keys[1..], Relabel(top));
    }
  }
}
