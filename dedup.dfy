/** The two per-video projections of the trending table (app/app.py:146-151,
    and the same two steps inside the weekly callbacks): sort by trending date,
    then drop_duplicates on video_id keeping the first row (first-seen) or the
    last row (last-seen). Ties on the date fall back to table order, the tie
    rule of the stable sort this model uses. */
module Dedup {
  import opened Records
  import opened Sequences
  import opened Sorting

  function ByDate(a: Row, b: Row): bool { a.trendingDate <= b.trendingDate }

  lemma ByDateTotal()
    ensures TotalPreorder(ByDate)
  {
  }

  lemma SortByDateSorted(t: seq<Row>)
    ensures SortedBy(SortBy(t, ByDate), ByDate)
  {
    ByDateTotal();
    SortBySorted(t, ByDate);
  }

  /** A subsequence of an ordered sequence is ordered. */
  lemma {:induction false} KeepFirstSorted<T, K>(s: seq<T>, key: T -> K, le: (T, T) -> bool)
    requires SortedBy(s, le)
    ensures SortedBy(KeepFirst(s, key), le)
    decreases |s|
  {
    if s != [] {
      var init, last := s[..|s| - 1], s[|s| - 1];
      assert SortedBy(init, le);
      KeepFirstSorted(init, key, le);
      var p := KeepFirst(init, key);
      forall i | 0 <= i < |p| ensures le(p[i], last) {
        assert p[i] in multiset(init);
        var k :| 0 <= k < |init| && init[k] == p[i];
      }
    }
  }

  lemma {:induction false} KeepLastSorted<T, K>(s: seq<T>, key: T -> K, le: (T, T) -> bool)
    requires SortedBy(s, le)
    ensures SortedBy(KeepLast(s, key), le)
  {
    if s != [] {
      assert SortedBy(s[1..], le);
      KeepLastSorted(s[1..], key, le);
      var p := KeepLast(s[1..], key);
      forall i | 0 <= i < |p| ensures le(s[0], p[i]) {
        assert p[i] in multiset(s[1..]);
        var k :| 0 <= k < |s[1..]| && s[1..][k] == p[i];
        assert s[k + 1] == p[i];
      }
    }
  }

  /** First-seen table: exactly one row per distinct video, taken from the input,
      in trending-date order. */
  function FirstSeen(t: seq<Row>): (r: seq<Row>)
    ensures DistinctKeys(r, VideoId)
    ensures KeySet(r, VideoId) == KeySet(t, VideoId)
    ensures multiset(r) <= multiset(t)
    ensures SortedBy(r, ByDate)
  {
    var s := SortBy(t, ByDate);
    SortByDateSorted(t);
    KeySetPermutation(s, t, VideoId);
    KeepFirstSorted(s, VideoId, ByDate);
    KeepFirst(s, VideoId)
  }

  /** Last-seen table: exactly one row per distinct video, taken from the input,
      in trending-date order. */
  function LastSeen(t: seq<Row>): (r: seq<Row>)
    ensures DistinctKeys(r, VideoId)
    ensures KeySet(r, VideoId) == KeySet(t, VideoId)
    ensures multiset(r) <= multiset(t)
    ensures SortedBy(r, ByDate)
  {
    var s := SortBy(t, ByDate);
    SortByDateSorted(t);
    KeySetPermutation(s, t, VideoId);
    KeepLastSorted(s, VideoId, ByDate);
    KeepLast(s, VideoId)
  }

  /** The first-seen row of a video carries that video's earliest trending date. */
  lemma FirstSeenEarliest(t: seq<Row>, x: Row, y: Row)
    requires x in FirstSeen(t) && y in t && y.videoId == x.videoId
    ensures x.trendingDate <= y.trendingDate
  {
    var s := SortBy(t, ByDate);
    SortByDateSorted(t);
    assert y in multiset(s);
    EarliestKept(s, x, y);
  }

  /** The last-seen row of a video carries that video's latest trending date. */
  lemma LastSeenLatest(t: seq<Row>, x: Row, y: Row)
    requires x in LastSeen(t) && y in t && y.videoId == x.videoId
    ensures y.trendingDate <= x.trendingDate
  {
    var s := SortBy(t, ByDate);
    SortByDateSorted(t);
    assert y in multiset(s);
    LatestKept(s, x, y);
  }

  lemma EarliestKept(s: seq<Row>, x: Row, y: Row)
    requires SortedBy(s, ByDate) && x in KeepFirst(s, VideoId) && y in s && y.videoId == x.videoId
    ensures x.trendingDate <= y.trendingDate
  {
    var i := KeepFirstIsFirst(s, VideoId, x);
    var j :| 0 <= j < |s| && s[j] == y;
    assert VideoId(s[j]) == VideoId(x);
    assert i <= j;
    if i < j {
      assert ByDate(s[i], s[j]);
    }
  }

  lemma LatestKept(s: seq<Row>, x: Row, y: Row)
    requires SortedBy(s, ByDate) && x in KeepLast(s, VideoId) && y in s && y.videoId == x.videoId
    ensures y.trendingDate <= x.trendingDate
  {
    var i := KeepLastIsLast(s, VideoId, x);
    var j :| 0 <= j < |s| && s[j] == y;
    assert VideoId(s[j]) == VideoId(x);
    assert j <= i;
    if j < i {
      assert ByDate(s[j], s[i]);
    }
  }

  /** Both projections are idempotent. */
  lemma FirstSeenIdempotent(t: seq<Row>)
    ensures FirstSeen(FirstSeen(t)) == FirstSeen(t)
  {
    var f := FirstSeen(t);
    SortByOrdered(f, ByDate);
    KeepFirstUnique(f, VideoId);
  }

  lemma LastSeenIdempotent(t: seq<Row>)
    ensures LastSeen(LastSeen(t)) == LastSeen(t)
  {
    var l := LastSeen(t);
    SortByOrdered(l, ByDate);
    KeepLastUnique(l, VideoId);
  }
}
