/** The slider callbacks of the weekly tab, as compositions of the window, the
    de-duplication and the chart tables. Three input tables occur: the
    first-seen table filtered by the window (category bars, word clouds and
    both publish-time charts), the window de-duplicated to each video's last
    row (top-10 charts, country map and rank chart), and the raw window
    (channel leaderboard). The dates the slider indexes are the date domain of
    the whole table. */
module Callbacks {
  import opened Records
  import opened Sequences
  import opened Sorting
  import opened Dedup
  import opened Windows
  import opened Counting
  import opened Labels
  import opened Text
  import opened Charts
  import opened Histograms
  import opened RankTiers
  import opened Pivot

  /** x carries the earliest trending date of its video in df. */
  ghost predicate EarliestOf(df: seq<Row>, x: Row) {
    forall y :: y in df && y.videoId == x.videoId ==> x.trendingDate <= y.trendingDate
  }

  /** x carries the latest trending date up to hi of its video in df. */
  ghost predicate LatestUpTo(df: seq<Row>, x: Row, hi: int) {
    forall y :: y in df && y.videoId == x.videoId && y.trendingDate <= hi ==> y.trendingDate <= x.trendingDate
  }

  /** The first-seen table between slider positions i and j: one row per video
      whose first trending date lies in the range, that first row itself. */
  function FirstWindow(df: seq<Row>, i: nat, j: nat): (r: Result<seq<Row>>)
    ensures r.Ok? <==> i < |DateDomain(df)| && j < |DateDomain(df)|
    ensures r.Err? ==> r.error == IndexOutOfRange(if i >= |DateDomain(df)| then i else j)
    ensures r.Ok? ==> DistinctKeys(r.value, VideoId)
    ensures r.Ok? ==> forall x :: x in r.value ==>
      x in df && EarliestOf(df, x) && DateDomain(df)[i] <= x.trendingDate <= DateDomain(df)[j]
    ensures r.Ok? ==> forall y :: (y in df && EarliestOf(df, y) &&
      DateDomain(df)[i] <= y.trendingDate <= DateDomain(df)[j]) ==> y.videoId in KeySet(r.value, VideoId)
  {
    var r := Weekly(FirstSeen(df), DateDomain(df), i, j);
    if r.Ok? then
      FirstWindowRows(df, i, j);
      FirstWindowCovers(df, i, j);
      r
    else r
  }

  lemma FirstWindowRows(df: seq<Row>, i: nat, j: nat)
    requires i < |DateDomain(df)| && j < |DateDomain(df)|
    ensures DistinctKeys(Weekly(FirstSeen(df), DateDomain(df), i, j).value, VideoId)
    ensures forall x :: x in Weekly(FirstSeen(df), DateDomain(df), i, j).value ==>
      x in df && EarliestOf(df, x) && DateDomain(df)[i] <= x.trendingDate <= DateDomain(df)[j]
  {
    var dom := DateDomain(df);
    var f := FirstSeen(df);
    var w := Weekly(f, dom, i, j).value;
    FilterDistinctKeys(f, InRange(dom[i], dom[j]), VideoId);
    forall x | x in w ensures x in df && EarliestOf(df, x) && dom[i] <= x.trendingDate <= dom[j] {
      assert multiset(w)[x] > 0;
      assert x in multiset(f);
      forall y | y in df && y.videoId == x.videoId ensures x.trendingDate <= y.trendingDate {
        FirstSeenEarliest(df, x, y);
      }
    }
  }

  lemma FirstWindowCovers(df: seq<Row>, i: nat, j: nat)
    requires i < |DateDomain(df)| && j < |DateDomain(df)|
    ensures forall y :: (y in df && EarliestOf(df, y) &&
      DateDomain(df)[i] <= y.trendingDate <= DateDomain(df)[j]) ==>
      y.videoId in KeySet(Weekly(FirstSeen(df), DateDomain(df), i, j).value, VideoId)
  {
    var dom := DateDomain(df);
    forall y | y in df && EarliestOf(df, y) && dom[i] <= y.trendingDate <= dom[j]
      ensures y.videoId in KeySet(Weekly(FirstSeen(df), dom, i, j).value, VideoId)
    {
      FirstWindowCoversOne(df, dom, i, j, y);
    }
  }

  lemma FirstWindowCoversOne(df: seq<Row>, dom: seq<int>, i: nat, j: nat, y: Row)
    requires i < |dom| && j < |dom|
    requires y in df && EarliestOf(df, y) && dom[i] <= y.trendingDate <= dom[j]
    ensures y.videoId in KeySet(Weekly(FirstSeen(df), dom, i, j).value, VideoId)
  {
    var f := FirstSeen(df);
    var w := Weekly(f, dom, i, j).value;
    var x := FirstSeenWitness(df, y);
    assert multiset(w)[x] == multiset(f)[x] > 0;
    assert x in w;
    assert VideoId(x) in KeySet(w, VideoId);
  }

  /** A row with its video's earliest date shares that date with the video's first-seen row. */
  lemma FirstSeenWitness(df: seq<Row>, y: Row) returns (x: Row)
    requires y in df && EarliestOf(df, y)
    ensures x in FirstSeen(df) && x.videoId == y.videoId && x.trendingDate == y.trendingDate
  {
    assert VideoId(y) in KeySet(df, VideoId);
    x :| x in FirstSeen(df) && VideoId(x) == y.videoId;
    FirstSeenEarliest(df, x, y);
    assert x in multiset(df);
  }

  /** The window between slider positions i and j reduced to each video's last
      row: one row per video trending in the range, the latest one. */
  function LastWindow(df: seq<Row>, i: nat, j: nat): (r: Result<seq<Row>>)
    ensures r.Ok? <==> i < |DateDomain(df)| && j < |DateDomain(df)|
    ensures r.Err? ==> r.error == IndexOutOfRange(if i >= |DateDomain(df)| then i else j)
    ensures r.Ok? ==> DistinctKeys(r.value, VideoId)
    ensures r.Ok? ==> forall x :: x in r.value ==>
      x in df && LatestUpTo(df, x, DateDomain(df)[j]) && DateDomain(df)[i] <= x.trendingDate <= DateDomain(df)[j]
    ensures r.Ok? ==> forall y :: (y in df && DateDomain(df)[i] <= y.trendingDate <= DateDomain(df)[j]) ==>
      y.videoId in KeySet(r.value, VideoId)
  {
    var w := Weekly(df, DateDomain(df), i, j);
    if w.Ok? then
      LastWindowRows(df, i, j);
      LastWindowCovers(df, i, j);
      Ok(LastSeen(w.value))
    else Err(w.error)
  }

  lemma LastWindowRows(df: seq<Row>, i: nat, j: nat)
    requires i < |DateDomain(df)| && j < |DateDomain(df)|
    ensures forall x :: x in LastSeen(Weekly(df, DateDomain(df), i, j).value) ==>
      x in df && LatestUpTo(df, x, DateDomain(df)[j]) && DateDomain(df)[i] <= x.trendingDate <= DateDomain(df)[j]
  {
    var dom := DateDomain(df);
    var w := Weekly(df, dom, i, j).value;
    forall x | x in LastSeen(w)
      ensures x in df && LatestUpTo(df, x, dom[j]) && dom[i] <= x.trendingDate <= dom[j]
    {
      assert x in multiset(w);
      assert multiset(w)[x] > 0;
      forall y | y in df && y.videoId == x.videoId && y.trendingDate <= dom[j]
        ensures y.trendingDate <= x.trendingDate
      {
        LastWindowLatest(df, i, j, x, y);
      }
    }
  }

  lemma LastWindowLatest(df: seq<Row>, i: nat, j: nat, x: Row, y: Row)
    requires i < |DateDomain(df)| && j < |DateDomain(df)|
    requires x in LastSeen(Weekly(df, DateDomain(df), i, j).value)
    requires DateDomain(df)[i] <= x.trendingDate
    requires y in df && y.videoId == x.videoId && y.trendingDate <= DateDomain(df)[j]
    ensures y.trendingDate <= x.trendingDate
  {
    var dom := DateDomain(df);
    var w := Weekly(df, dom, i, j).value;
    if dom[i] <= y.trendingDate {
      assert y in multiset(df);
      assert multiset(w)[y] > 0;
      LastSeenLatest(w, x, y);
    }
  }

  lemma LastWindowCovers(df: seq<Row>, i: nat, j: nat)
    requires i < |DateDomain(df)| && j < |DateDomain(df)|
    ensures forall y :: (y in df && DateDomain(df)[i] <= y.trendingDate <= DateDomain(df)[j]) ==>
      y.videoId in KeySet(LastSeen(Weekly(df, DateDomain(df), i, j).value), VideoId)
  {
    var dom := DateDomain(df);
    var w := Weekly(df, dom, i, j).value;
    forall y | y in df && dom[i] <= y.trendingDate <= dom[j]
      ensures y.videoId in KeySet(LastSeen(w), VideoId)
    {
      assert y in multiset(df);
      assert multiset(w)[y] > 0;
      assert y in w;
      assert VideoId(y) in KeySet(w, VideoId);
    }
  }

  /** The weekly category bars: value_counts of the categories of the videos
      first trending in the range, each video counted once. */
  function WeeklyCategories(df: seq<Row>, i: nat, j: nat): (r: Result<seq<Entry<string>>>)
    ensures r.Ok? <==> i < |DateDomain(df)| && j < |DateDomain(df)|
    ensures r.Ok? ==> r.value == CategoryCounts(FirstWindow(df, i, j).value)
    ensures r.Ok? ==> SortedBy(r.value, ByCount) && DistinctKeys(r.value, Key)
    ensures r.Ok? ==> forall k :: k in KeySet(r.value, Key) <==> k in Map(FirstWindow(df, i, j).value, Category)
    ensures r.Ok? ==> forall e :: e in r.value ==> e.count == |Filter(FirstWindow(df, i, j).value, KeyIs(Category, e.key))|
    ensures r.Ok? ==> TotalCount(r.value) == |KeySet(FirstWindow(df, i, j).value, VideoId)|
  {
    match FirstWindow(df, i, j)
    case Err(e) => Err(e)
    case Ok(w) =>
      DistinctKeysCard(w, VideoId);
      Ok(CategoryCounts(w))
  }

  /** The weekly top-10 chart of a metric: the ten videos of the range with the
      largest value of the metric on their latest row in the range. */
  function WeeklyTop(df: seq<Row>, i: nat, j: nat, m: Metric): (r: Result<seq<Row>>)
    ensures r.Ok? <==> i < |DateDomain(df)| && j < |DateDomain(df)|
    ensures r.Ok? ==> r.value == TopByMetric(LastWindow(df, i, j).value, m)
    ensures r.Ok? ==> |r.value| == Min(10, |LastWindow(df, i, j).value|) && DistinctKeys(r.value, VideoId)
    ensures r.Ok? ==> multiset(r.value) <= multiset(LastWindow(df, i, j).value)
    ensures r.Ok? ==> SortedBy(r.value, ByKey(MetricKey(m)))
    ensures r.Ok? ==> forall x :: x in r.value ==>
      x in df && LatestUpTo(df, x, DateDomain(df)[j]) && DateDomain(df)[i] <= x.trendingDate <= DateDomain(df)[j]
    ensures r.Ok? ==> forall x, y :: x in LastWindow(df, i, j).value && x !in r.value && y in r.value ==>
      MetricOf(m, x) <= MetricOf(m, y)
  {
    match LastWindow(df, i, j)
    case Err(e) => Err(e)
    case Ok(w) =>
      WeeklyTopRows(df, i, j, m);
      WeeklyTopDropped(LastWindow(df, i, j).value, m);
      Ok(TopByMetric(w, m))
  }

  lemma WeeklyTopRows(df: seq<Row>, i: nat, j: nat, m: Metric)
    requires i < |DateDomain(df)| && j < |DateDomain(df)|
    ensures DistinctKeys(TopByMetric(LastWindow(df, i, j).value, m), VideoId)
    ensures forall x :: x in TopByMetric(LastWindow(df, i, j).value, m) ==>
      x in df && LatestUpTo(df, x, DateDomain(df)[j]) && DateDomain(df)[i] <= x.trendingDate <= DateDomain(df)[j]
  {
    var w := LastWindow(df, i, j).value;
    TopKeepsRows(w, TopByMetric(w, m));
  }

  lemma WeeklyTopDropped(w: seq<Row>, m: Metric)
    ensures forall x, y :: x in w && x !in TopByMetric(w, m) && y in TopByMetric(w, m) ==>
      MetricOf(m, x) <= MetricOf(m, y)
  {
    var t := TopByMetric(w, m);
    forall x, y | x in w && x !in t && y in t ensures MetricOf(m, x) <= MetricOf(m, y) {
      assert x in multiset(w) - multiset(t);
    }
  }

  /** A sub-multiset of a table with distinct video ids has distinct video ids. */
  lemma TopKeepsRows(w: seq<Row>, t: seq<Row>)
    requires DistinctKeys(w, VideoId) && multiset(t) <= multiset(w)
    ensures DistinctKeys(t, VideoId)
    ensures forall x :: x in t ==> x in w
  {
    forall x | x in t ensures x in w {
      assert x in multiset(w);
    }
    forall a, b | 0 <= a < b < |t| ensures VideoId(t[a]) != VideoId(t[b]) {
      assert t[a] in multiset(w) && t[b] in multiset(w);
      var p :| 0 <= p < |w| && w[p] == t[a];
      var q :| 0 <= q < |w| && w[q] == t[b];
      if t[a] == t[b] {
        TwoCopies(t, a, b);
        var p', q' := OneCopyElsewhere(w, t[a]);
      }
    }
  }

  /** The weekly publish-day chart: an empty range has no last bar to highlight
      and raises; otherwise every video first trending in the range is one unit
      of exactly one bar. */
  function WeeklyPublishDay(df: seq<Row>, i: nat, j: nat): (r: Result<seq<DayBar>>)
    ensures r.Ok? <==> i < |DateDomain(df)| && j < |DateDomain(df)| && FirstWindow(df, i, j).value != []
    ensures r.Err? && i < |DateDomain(df)| && j < |DateDomain(df)| ==> r.error == EmptyTable
    ensures r.Ok? ==> r == PublishDayChart(FirstWindow(df, i, j).value)
    ensures r.Ok? ==> forall k :: 0 <= k < |r.value| ==>
      r.value[k].day == r.value[0].day + k &&
      r.value[k].count == |Filter(FirstWindow(df, i, j).value, KeyIs(PublishDay, r.value[k].day))| &&
      r.value[k].color == if k == |r.value| - 1 then "Yellow" else "#636EFB"
    ensures r.Ok? ==> forall x :: x in FirstWindow(df, i, j).value ==>
      r.value[0].day <= x.publishDay <= r.value[|r.value| - 1].day
    ensures r.Ok? ==> BarTotal(r.value) == |KeySet(FirstWindow(df, i, j).value, VideoId)|
  {
    match FirstWindow(df, i, j)
    case Err(e) => Err(e)
    case Ok(w) =>
      if w == [] then Err(EmptyTable)
      else
        DistinctKeysCard(w, VideoId);
        PublishDayTotal(w);
        PublishDayChart(w)
  }

  /** Any valid range in which no video trends for the first time makes the
      weekly publish-day chart raise. */
  lemma PublishDayRaisesWithoutNewVideos(df: seq<Row>, i: nat, j: nat)
    requires i < |DateDomain(df)| && j < |DateDomain(df)|
    requires forall y :: y in df && EarliestOf(df, y) ==>
      !(DateDomain(df)[i] <= y.trendingDate <= DateDomain(df)[j])
    ensures WeeklyPublishDay(df, i, j) == Err(EmptyTable)
  {
  }

  lemma TwoDayDomain()
    ensures DateDomain([SampleRow(0, "A"), SampleRow(1, "A")]) == [0, 1]
  {
    var df := [SampleRow(0, "A"), SampleRow(1, "A")];
    assert Dates(df) == [0, 1] by {
      assert Dates(df)[0] == 0 && Dates(df)[1] == 1;
    }
    DomainOfTwo(DateDomain(df));
  }

  lemma DomainOfTwo(r: seq<int>)
    requires StrictlyIncreasing(r)
    requires forall d :: d in r <==> d in [0, 1]
    ensures r == [0, 1]
  {
    assert 0 in r && 1 in r;
    assert forall k :: 0 <= k < |r| ==> r[k] in [0, 1];
    IncreasingLowerBound(r, |r| - 1);
  }

  lemma {:induction false} IncreasingLowerBound(r: seq<int>, k: nat)
    requires StrictlyIncreasing(r) && k < |r| && r[0] >= 0
    ensures r[k] >= k
  {
    if k > 0 {
      IncreasingLowerBound(r, k - 1);
    }
  }

  /** One video trending on days 0 and 1: the one-day range of day 1 holds no
      first sighting, so the code raises where an empty chart is meant. */
  lemma PublishDaySecondDayRaises()
    ensures WeeklyPublishDay([SampleRow(0, "A"), SampleRow(1, "A")], 1, 1) == Err(EmptyTable)
  {
    var df := [SampleRow(0, "A"), SampleRow(1, "A")];
    TwoDayDomain();
    NoFirstSightingOnDayOne();
    PublishDayRaisesWithoutNewVideos(df, 1, 1);
  }

  /** ... and the corrected chart draws no bars there. */
  lemma PublishDayBarsSecondDay()
    ensures WeeklyPublishDayBars([SampleRow(0, "A"), SampleRow(1, "A")], 1, 1) == Ok([])
  {
    PublishDaySecondDayRaises();
  }

  lemma NoFirstSightingOnDayOne()
    ensures forall y :: y in [SampleRow(0, "A"), SampleRow(1, "A")] && EarliestOf([SampleRow(0, "A"), SampleRow(1, "A")], y) ==>
      y.trendingDate != 1
  {
    var df := [SampleRow(0, "A"), SampleRow(1, "A")];
    forall y | y in df && EarliestOf(df, y) ensures y.trendingDate != 1 {
      assert SampleRow(0, "A") in df;
    }
  }

  /** A cleared date selector matches no trending date of the table: the
      daily window is empty, and the daily publish-day chart raises. */
  lemma DailyWithoutDateRaises(df: seq<Row>, d: int)
    requires d !in DateDomain(df)
    ensures Daily(df, d) == []
    ensures PublishDayChart(Daily(df, d)) == Err(EmptyTable)
  {
    var w := Daily(df, d);
    if w != [] {
      assert multiset(w)[w[0]] > 0;
      DateDomainCovers(df, w[0]);
      assert false;
    }
  }

  /** The weekly publish-day chart with an empty range drawn as no bars. */
  function WeeklyPublishDayBars(df: seq<Row>, i: nat, j: nat): (r: Result<seq<DayBar>>)
    ensures r.Ok? <==> i < |DateDomain(df)| && j < |DateDomain(df)|
    ensures r.Ok? ==> (r.value == [] <==> FirstWindow(df, i, j).value == [])
    ensures r.Ok? ==> r.value == PublishDayBars(FirstWindow(df, i, j).value)
    ensures r.Ok? && r.value != [] ==> r == WeeklyPublishDay(df, i, j)
    ensures r.Ok? ==> BarTotal(r.value) == |KeySet(FirstWindow(df, i, j).value, VideoId)|
  {
    match FirstWindow(df, i, j)
    case Err(e) => Err(e)
    case Ok(w) =>
      DistinctKeysCard(w, VideoId);
      Ok(PublishDayBars(w))
  }

  /** The weekly publish-hour chart over the 48 half-hour bins; the top five
      categories come from the whole first-seen table, not from the range. */
  function WeeklyPublishHour(df: seq<Row>, i: nat, j: nat): (r: Result<HourChart>)
    ensures r.Ok? <==> i < |DateDomain(df)| && j < |DateDomain(df)|
    ensures r.Ok? ==> r.value == PublishHour(FirstWindow(df, i, j).value, FirstSeen(df), HalfHourBins())
    ensures r.Ok? ==> r.value.bins == HalfHourBins()
    ensures r.Ok? ==> forall k :: k in r.value.categories ==> k == Others || k in HourTop(FirstSeen(df))
    ensures r.Ok? ==> Total(r.value.counts) == |Filter(FirstWindow(df, i, j).value, PublishedIn(HalfHourBins()))|
  {
    match FirstWindow(df, i, j)
    case Err(e) => Err(e)
    case Ok(w) =>
      WeeklyPublishHourTotal(w, FirstSeen(df));
      Ok(PublishHour(w, FirstSeen(df), HalfHourBins()))
  }

  lemma WeeklyPublishHourTotal(w: seq<Row>, source: seq<Row>)
    ensures Total(PublishHour(w, source, HalfHourBins()).counts) == |Filter(w, PublishedIn(HalfHourBins()))|
  {
    PublishHourTotal(w, source, HalfHourBins());
  }

  /** The weekly channel leaderboard over the raw range: a channel's count is
      its number of (video, trending day) rows in the range. */
  function WeeklyLeaderboard(df: seq<Row>, i: nat, j: nat): (r: Result<seq<Entry<ChannelKey>>>)
    ensures r.Ok? <==> i < |DateDomain(df)| && j < |DateDomain(df)|
    ensures r.Ok? ==> r.value == Leaderboard(Weekly(df, DateDomain(df), i, j).value)
    ensures r.Ok? ==> |r.value| <= 10 && SortedBy(r.value, ByCount) && DistinctKeys(r.value, Key)
    ensures r.Ok? && |r.value| < 10 ==> forall x :: x in df && DateDomain(df)[i] <= x.trendingDate <= DateDomain(df)[j] ==>
      ChannelKeyOf(x) in KeySet(r.value, Key)
    ensures r.Ok? ==> forall e :: e in r.value ==>
      e.count == |Filter(df, And(InRange(DateDomain(df)[i], DateDomain(df)[j]), KeyIs(ChannelKeyOf, e.key)))|
  {
    match Weekly(df, DateDomain(df), i, j)
    case Err(e) => Err(e)
    case Ok(w) =>
      var dom := DateDomain(df);
      var r := Leaderboard(w);
      WeeklyRowsIn(df, dom, i, j);
      forall e | e in r
        ensures e.count == |Filter(df, And(InRange(dom[i], dom[j]), KeyIs(ChannelKeyOf, e.key)))|
      {
        FilterFilter(df, InRange(dom[i], dom[j]), KeyIs(ChannelKeyOf, e.key));
      }
      Ok(r)
  }

  /** Every row of df dated within the range is a row of the weekly table. */
  lemma WeeklyRowsIn(df: seq<Row>, dom: seq<int>, i: nat, j: nat)
    requires i < |dom| && j < |dom|
    ensures forall x :: x in df && dom[i] <= x.trendingDate <= dom[j] ==> x in Weekly(df, dom, i, j).value
  {
    forall x | x in df && dom[i] <= x.trendingDate <= dom[j] ensures x in Weekly(df, dom, i, j).value {
      assert multiset(Weekly(df, dom, i, j).value)[x] == multiset(df)[x];
    }
  }

  function HasCountry(x: Row): bool { x.country != "" }

  /** The weekly country map over the last rows of the range: it raises for a
      country code outside the table; otherwise the counts add up to the
      videos of the range that have a country. */
  function WeeklyCountries(df: seq<Row>, i: nat, j: nat): (r: Result<seq<CountryCount>>)
    ensures r.Ok? ==> i < |DateDomain(df)| && j < |DateDomain(df)|
    ensures i < |DateDomain(df)| && j < |DateDomain(df)| ==>
      (r.Ok? <==> forall x :: x in LastWindow(df, i, j).value && x.country != "" ==> x.country in CodeTable)
    ensures r.Err? && i < |DateDomain(df)| && j < |DateDomain(df)| ==> r.error.UnknownCountryCode?
    ensures i < |DateDomain(df)| && j < |DateDomain(df)| ==> r == CountryCounts(Map(LastWindow(df, i, j).value, Country))
    ensures r.Ok? ==> forall a, b :: 0 <= a < b < |r.value| ==> r.value[a].country != r.value[b].country
    ensures r.Ok? ==> forall x :: x in LastWindow(df, i, j).value && x.country != "" ==>
      exists k :: 0 <= k < |r.value| && r.value[k].country == x.country
    ensures r.Ok? ==> forall k :: 0 <= k < |r.value| ==>
      r.value[k].isoAlpha == CodeTable[r.value[k].country] &&
      r.value[k].count == |Filter(LastWindow(df, i, j).value, KeyIs(Country, r.value[k].country))|
    ensures r.Ok? ==> CountrySum(r.value) == |Filter(LastWindow(df, i, j).value, HasCountry)|
  {
    match LastWindow(df, i, j)
    case Err(e) => Err(e)
    case Ok(w) =>
      var c := CountryCounts(Map(w, Country));
      CountryCodesOf(w);
      if c.Ok? then
        CountryCountsTotal(Map(w, Country));
        FilterMap(w, Country, NonEmptyCode, HasCountry);
        CountryRows(w, c.value);
        c
      else c
  }

  /** The map's counts, read as numbers of rows of the window. */
  lemma CountryRows(w: seq<Row>, v: seq<CountryCount>)
    requires CountryCounts(Map(w, Country)) == Ok(v)
    ensures forall k :: 0 <= k < |v| ==> v[k].count == |Filter(w, KeyIs(Country, v[k].country))|
  {
    forall k | 0 <= k < |v| ensures v[k].count == |Filter(w, KeyIs(Country, v[k].country))| {
      FilterKeyCount(w, Country, v[k].country);
    }
  }

  lemma CountryCodesOf(w: seq<Row>)
    ensures forall x :: x in w ==> x.country in Map(w, Country)
    ensures (forall c :: c in Map(w, Country) && c != "" ==> c in CodeTable) <==>
      (forall x :: x in w && x.country != "" ==> x.country in CodeTable)
  {
    forall x | x in w ensures x.country in Map(w, Country) {
      var k :| 0 <= k < |w| && w[k] == x;
      assert Map(w, Country)[k] == x.country;
    }
  }

  /** The weekly rank chart, zero-filled over the fixed tier columns. */
  function WeeklyRankTiers(df: seq<Row>, i: nat, j: nat): (r: Result<TierMatrix>)
    ensures r.Ok? <==> i < |DateDomain(df)| && j < |DateDomain(df)|
    ensures r.Ok? ==> r.value == RankTierMatrix(LastWindow(df, i, j).value, AllTiers)
    ensures r.Ok? ==> r.value.tiers == AllTiers
    ensures r.Ok? ==> Total(r.value.counts) == |Filter(LastWindow(df, i, j).value, TierListed(AllTiers))|
  {
    match LastWindow(df, i, j)
    case Err(e) => Err(e)
    case Ok(w) =>
      AllTiersDistinct();
      RankTierTotal(w, AllTiers);
      Ok(RankTierMatrix(w, AllTiers))
  }

  /** The weekly rank chart as the code builds it: it raises unless the range's
      last rows cover every tier, and otherwise agrees with the zero-filled one. */
  function WeeklyRankTiersAsWritten(df: seq<Row>, i: nat, j: nat): (r: Result<TierMatrix>)
    ensures r.Ok? ==> r == WeeklyRankTiers(df, i, j)
    ensures i < |DateDomain(df)| && j < |DateDomain(df)| ==>
      (r.Ok? <==> forall t :: t in AllTiers ==> t in Map(LastWindow(df, i, j).value, TierOf))
    ensures r.Err? && i < |DateDomain(df)| && j < |DateDomain(df)| ==> r.error.MissingRankTier?
  {
    match LastWindow(df, i, j)
    case Err(e) => Err(e)
    case Ok(w) => RankTierMatrixAsWritten(w, AllTiers)
  }

  /** The texts of the three word clouds. */
  datatype Clouds = Clouds(titles: string, descriptions: string, tags: string)

  function TitleText(x: Row): string { Join(x.titleTokens, " ") }
  function DescText(x: Row): string { Join(x.descTokens, " ") }
  function TagsText(x: Row): string { TagText(x.tags) }

  /** The weekly word clouds over the videos first trending in the range: one
      comma-separated piece per video, so an empty range gives three empty
      texts, and splitting a text on commas gives back each video's title
      tokens, description tokens or tags joined by spaces when none of them
      holds a comma. */
  function WeeklyClouds(df: seq<Row>, i: nat, j: nat): (r: Result<Clouds>)
    ensures r.Ok? <==> i < |DateDomain(df)| && j < |DateDomain(df)|
    ensures (r.Ok? && FirstWindow(df, i, j).value != [] && NoCommaTags(FirstWindow(df, i, j).value)) ==>
      Split(r.value.tags, ',') == Map(FirstWindow(df, i, j).value, TagsText)
    ensures (r.Ok? && FirstWindow(df, i, j).value != [] && NoCommaTokens(FirstWindow(df, i, j).value)) ==>
      Split(r.value.titles, ',') == Map(FirstWindow(df, i, j).value, TitleText)
    ensures (r.Ok? && FirstWindow(df, i, j).value != [] && NoCommaDesc(FirstWindow(df, i, j).value)) ==>
      Split(r.value.descriptions, ',') == Map(FirstWindow(df, i, j).value, DescText)
    ensures r.Ok? && FirstWindow(df, i, j).value == [] ==> r.value == Clouds("", "", "")
  {
    match FirstWindow(df, i, j)
    case Err(e) => Err(e)
    case Ok(w) =>
      CloudPieces(w);
      Ok(Clouds(CloudText(Map(w, TitleText)), CloudText(Map(w, DescText)), CloudText(Map(w, TagsText))))
  }

  ghost predicate NoCommaTags(w: seq<Row>) {
    forall x :: x in w ==> ',' !in x.tags
  }

  ghost predicate NoCommaTokens(w: seq<Row>) {
    forall x :: x in w ==> forall k :: 0 <= k < |x.titleTokens| ==> ',' !in x.titleTokens[k]
  }

  ghost predicate NoCommaDesc(w: seq<Row>) {
    forall x :: x in w ==> forall k :: 0 <= k < |x.descTokens| ==> ',' !in x.descTokens[k]
  }

  lemma CloudPieces(w: seq<Row>)
    ensures NoCommaTags(w) ==> forall k :: 0 <= k < |w| ==> ',' !in Map(w, TagsText)[k]
    ensures NoCommaTokens(w) ==> forall k :: 0 <= k < |w| ==> ',' !in Map(w, TitleText)[k]
    ensures NoCommaDesc(w) ==> forall k :: 0 <= k < |w| ==> ',' !in Map(w, DescText)[k]
  {
    if NoCommaTags(w) {
      forall k | 0 <= k < |w| ensures ',' !in Map(w, TagsText)[k] {
        assert w[k] in w;
        TagTextNoComma(w[k].tags);
      }
    }
    if NoCommaTokens(w) {
      forall k | 0 <= k < |w| ensures ',' !in Map(w, TitleText)[k] {
        assert w[k] in w;
        JoinNoChar(w[k].titleTokens, " ", ',');
      }
    }
    if NoCommaDesc(w) {
      forall k | 0 <= k < |w| ensures ',' !in Map(w, DescText)[k] {
        assert w[k] in w;
        JoinNoChar(w[k].descTokens, " ", ',');
      }
    }
  }

  lemma TagTextNoComma(x: string)
    requires ',' !in x
    ensures ',' !in TagText(x)
  {
    if x != "[none]" {
      var r := TagText(x);
      forall k | 0 <= k < |r| ensures r[k] != ',' {
        assert x[k] != ',';
      }
    }
  }

  lemma {:induction false} JoinNoChar(pieces: seq<string>, sep: string, c: char)
    requires c !in sep && forall k :: 0 <= k < |pieces| ==> c !in pieces[k]
    ensures c !in Join(pieces, sep)
  {
    if |pieces| > 1 {
      JoinNoChar(pieces[1..], sep, c);
    }
  }
}
