/** The two publish-time histograms: videos per half-hour publish bin and
    category (stacked bars), and videos per publish day between the first and
    the last publish day, with the last bar highlighted. */
module Histograms {
  import opened Records
  import opened Sequences
  import opened Counting
  import opened Pivot

  /** The five most frequent categories of the table the top 5 is taken from. */
  function HourTop(source: seq<Row>): (r: seq<string>)
    ensures |r| <= 5 && Distinct(r)
    ensures forall k :: k in r ==> k in Map(source, Category)
    ensures |r| < 5 ==> forall k :: k in Map(source, Category) ==> k in r
    ensures forall k, l :: k in Map(source, Category) && k !in r && l in r ==>
      multiset(Map(source, Category))[k] <= multiset(Map(source, Category))[l]
  {
    TopLabels(Map(source, Category), 5)
  }

  /** A row's (publish bin, relabelled category) pair. */
  function HourPair(top: seq<string>): Row -> (string, string) {
    (x: Row) => (x.publishCat, MapOthers(top, x.category))
  }

  function InBins(bins: seq<string>): ((string, string)) -> bool {
    (p: (string, string)) => p.0 in bins
  }

  function PublishedIn(bins: seq<string>): Row -> bool {
    (x: Row) => x.publishCat in bins
  }

  function Second(p: (string, string)): string { p.1 }

  /** The stacked bar chart of publish hours: one row of counts per bin, one
      column per relabelled category. */
  datatype HourChart = HourChart(bins: seq<string>, categories: seq<string>, counts: seq<seq<nat>>)

  /** The categories that occur in the chart: those of rows published in a bin. */
  function HourCategories(window: seq<Row>, top: seq<string>, bins: seq<string>): (r: seq<string>)
    ensures Distinct(r)
    ensures forall k :: k in r <==> k in Map(Filter(Map(window, HourPair(top)), InBins(bins)), Second)
  {
    Unique(Map(Filter(Map(window, HourPair(top)), InBins(bins)), Second))
  }

  /** Relabelling leaves only kept categories and "Others". */
  lemma HourCategoriesKept(window: seq<Row>, top: seq<string>, bins: seq<string>, k: string)
    requires k in HourCategories(window, top, bins)
    ensures k == Others || k in top
  {
    var pairs := Map(window, HourPair(top));
    var f := Filter(pairs, InBins(bins));
    var a :| 0 <= a < |f| && Second(f[a]) == k;
    FilterIn(pairs, InBins(bins), f[a]);
    var b :| 0 <= b < |pairs| && pairs[b] == f[a];
    assert f[a].1 == MapOthers(top, window[b].category);
  }

  /** A pair of a row published in a bin has its category among the columns. */
  lemma HourCategoriesCover(window: seq<Row>, top: seq<string>, bins: seq<string>, p: (string, string))
    requires p in Map(window, HourPair(top)) && p.0 in bins
    ensures p.1 in HourCategories(window, top, bins)
  {
    var pairs := Map(window, HourPair(top));
    FilterIn(pairs, InBins(bins), p);
    var f := Filter(pairs, InBins(bins));
    var a :| 0 <= a < |f| && f[a] == p;
    assert Map(f, Second)[a] == p.1;
  }

  /** The publish-hour histogram of a window over the given bins; the top 5
      categories come from source. */
  function PublishHour(window: seq<Row>, source: seq<Row>, bins: seq<string>): (c: HourChart)
    ensures c.bins == bins
    ensures Distinct(c.categories)
    ensures forall k :: k in c.categories ==> k == Others || k in HourTop(source)
    ensures |c.counts| == |bins| && forall i :: 0 <= i < |bins| ==> |c.counts[i]| == |c.categories|
    ensures forall i, j :: 0 <= i < |bins| && 0 <= j < |c.categories| ==>
      c.counts[i][j] == |Filter(window, KeyIs(HourPair(HourTop(source)), (bins[i], c.categories[j])))|
  {
    var top := HourTop(source);
    var pairs := Map(window, HourPair(top));
    var cats := HourCategories(window, top, bins);
    var g := Grid(pairs, bins, cats);
    forall i, j | 0 <= i < |bins| && 0 <= j < |cats|
      ensures g[i][j] == |Filter(window, KeyIs(HourPair(top), (bins[i], cats[j])))|
    {
      FilterKeyCount(window, HourPair(top), (bins[i], cats[j]));
    }
    forall k | k in cats ensures k == Others || k in top {
      HourCategoriesKept(window, top, bins, k);
    }
    HourChart(bins, cats, g)
  }

  /** Over distinct bins every video of the window published in one of them is
      counted once: the chart's total is the number of such rows. */
  lemma PublishHourTotal(window: seq<Row>, source: seq<Row>, bins: seq<string>)
    requires Distinct(bins)
    ensures Total(PublishHour(window, source, bins).counts) == |Filter(window, PublishedIn(bins))|
  {
    var top := HourTop(source);
    var pairs := Map(window, HourPair(top));
    var cats := HourCategories(window, top, bins);
    GridTotal(pairs, bins, cats);
    forall p | p in pairs ensures InGrid(bins, cats)(p) == InBins(bins)(p) {
      if p.0 in bins {
        HourCategoriesCover(window, top, bins, p);
      }
    }
    FilterExt(pairs, InGrid(bins, cats), InBins(bins));
    FilterMap(window, HourPair(top), InBins(bins), PublishedIn(bins));
  }

  function InBin(b: string): ((string, string)) -> bool {
    (p: (string, string)) => p.0 == b
  }

  /** Each bin's bar adds up to the rows of the window published in that bin. */
  lemma PublishHourBinTotal(window: seq<Row>, source: seq<Row>, bins: seq<string>, i: nat)
    requires i < |bins|
    ensures Sum(PublishHour(window, source, bins).counts[i]) == |Filter(window, KeyIs(PublishCat, bins[i]))|
  {
    var top := HourTop(source);
    var pairs := Map(window, HourPair(top));
    var cats := HourCategories(window, top, bins);
    GridRowTotal(pairs, bins, cats, i);
    forall p | p in pairs ensures InRow(bins[i], cats)(p) == InBin(bins[i])(p) {
      if p.0 == bins[i] {
        HourCategoriesCover(window, top, bins, p);
      }
    }
    FilterExt(pairs, InRow(bins[i], cats), InBin(bins[i]));
    FilterMap(window, HourPair(top), InBin(bins[i]), KeyIs(PublishCat, bins[i]));
  }

  /** One bar of the publish-day chart. */
  datatype DayBar = DayBar(day: int, count: nat, color: string)

  /** The days lo, lo + 1, ..., lo + n - 1. */
  function Range(lo: int, n: nat): (r: seq<int>)
    ensures |r| == n
    ensures forall k :: 0 <= k < n ==> r[k] == lo + k
  {
    if n == 0 then [] else Range(lo, n - 1) + [lo + n - 1]
  }

  function MinOf(s: seq<int>): (m: int)
    requires s != []
    ensures m in s && forall x :: x in s ==> m <= x
  {
    if |s| == 1 then s[0]
    else
      var m := MinOf(s[1..]);
      assert forall x :: x in s ==> x == s[0] || x in s[1..];
      if s[0] <= m then s[0] else m
  }

  function MaxOf(s: seq<int>): (m: int)
    requires s != []
    ensures m in s && forall x :: x in s ==> x <= m
  {
    if |s| == 1 then s[0]
    else
      var m := MaxOf(s[1..]);
      assert forall x :: x in s ==> x == s[0] || x in s[1..];
      if s[0] >= m then s[0] else m
  }

  function DayCount(days: seq<int>): int -> DayBar {
    d => DayBar(d, multiset(days)[d], "#636EFB")
  }

  /** The bars of the days from the first to the last of days, every bar coloured
      "#636EFB" except the last, which is recoloured "Yellow". */
  function DayBars(days: seq<int>): (r: seq<DayBar>)
    requires days != []
    ensures |r| == MaxOf(days) - MinOf(days) + 1
    ensures forall k :: 0 <= k < |r| ==> r[k].day == MinOf(days) + k && r[k].count == multiset(days)[r[k].day]
    ensures forall k :: 0 <= k < |r| ==> r[k].color == if k == |r| - 1 then "Yellow" else "#636EFB"
  {
    var bars := Map(Range(MinOf(days), MaxOf(days) - MinOf(days) + 1), DayCount(days));
    bars[|bars| - 1 := bars[|bars| - 1].(color := "Yellow")]
  }

  lemma DaysBounds(window: seq<Row>, x: Row)
    requires x in window
    ensures MinOf(Map(window, PublishDay)) <= x.publishDay <= MaxOf(Map(window, PublishDay))
  {
    var i :| 0 <= i < |window| && window[i] == x;
    assert Map(window, PublishDay)[i] == x.publishDay;
  }

  /** resample('D').count() over the publish day with the last bar highlighted;
      an empty window has no last bar and raises. */
  function PublishDayChart(window: seq<Row>): (r: Result<seq<DayBar>>)
    ensures r.Err? <==> window == []
    ensures r.Err? ==> r.error == EmptyTable
    ensures r.Ok? ==> |r.value| >= 1
    ensures r.Ok? ==> forall k :: 0 <= k < |r.value| ==> r.value[k].day == r.value[0].day + k
    ensures r.Ok? ==> r.value[0].day in Map(window, PublishDay)
    ensures r.Ok? ==> r.value[|r.value| - 1].day in Map(window, PublishDay)
    ensures r.Ok? ==> forall x :: x in window ==>
      r.value[0].day <= x.publishDay <= r.value[|r.value| - 1].day
    ensures r.Ok? ==> forall k :: 0 <= k < |r.value| ==>
      r.value[k].count == |Filter(window, KeyIs(PublishDay, r.value[k].day))|
    ensures r.Ok? ==> forall k :: 0 <= k < |r.value| ==>
      r.value[k].color == if k == |r.value| - 1 then "Yellow" else "#636EFB"
  {
    if window == [] then Err(EmptyTable)
    else
      DayBarsCounts(window);
      DayBarsSpan(window);
      Ok(DayBars(Map(window, PublishDay)))
  }

  lemma DayBarsCounts(window: seq<Row>)
    requires window != []
    ensures forall k :: 0 <= k < |DayBars(Map(window, PublishDay))| ==>
      DayBars(Map(window, PublishDay))[k].count ==
      |Filter(window, KeyIs(PublishDay, DayBars(Map(window, PublishDay))[k].day))|
  {
    var bars := DayBars(Map(window, PublishDay));
    forall k | 0 <= k < |bars| ensures bars[k].count == |Filter(window, KeyIs(PublishDay, bars[k].day))| {
      FilterKeyCount(window, PublishDay, bars[k].day);
    }
  }

  lemma DayBarsSpan(window: seq<Row>)
    requires window != []
    ensures forall x :: x in window ==>
      DayBars(Map(window, PublishDay))[0].day <= x.publishDay <=
      DayBars(Map(window, PublishDay))[|DayBars(Map(window, PublishDay))| - 1].day
  {
    var bars := DayBars(Map(window, PublishDay));
    forall x | x in window ensures bars[0].day <= x.publishDay <= bars[|bars| - 1].day {
      DaysBounds(window, x);
    }
  }

  function BarTotal(bars: seq<DayBar>): nat {
    if bars == [] then 0 else bars[0].count + BarTotal(bars[1..])
  }

  lemma {:induction false} BarTotalOccurrences(L: seq<int>, days: seq<int>)
    ensures BarTotal(Map(L, DayCount(days))) == Occurrences(L, days)
  {
    if L != [] {
      assert Map(L, DayCount(days))[1..] == Map(L[1..], DayCount(days));
      BarTotalOccurrences(L[1..], days);
    }
  }

  lemma {:induction false} BarTotalCounts(a: seq<DayBar>, b: seq<DayBar>)
    requires |a| == |b| && forall k :: 0 <= k < |a| ==> a[k].count == b[k].count
    ensures BarTotal(a) == BarTotal(b)
  {
    if a != [] {
      BarTotalCounts(a[1..], b[1..]);
    }
  }

  lemma DayBarsTotal(days: seq<int>)
    requires days != []
    ensures BarTotal(DayBars(days)) == |days|
  {
    var lo, hi := MinOf(days), MaxOf(days);
    var L := Range(lo, hi - lo + 1);
    BarTotalCounts(DayBars(days), Map(L, DayCount(days)));
    BarTotalOccurrences(L, days);
    forall d | d in days ensures d in L {
      assert L[d - lo] == d;
    }
    OccurrencesCover(L, days);
  }

  /** The bars add up to the number of videos in the window: each video falls on
      exactly one day between the first and the last publish day. */
  lemma PublishDayTotal(window: seq<Row>)
    requires window != []
    ensures BarTotal(PublishDayChart(window).value) == |window|
  {
    DayBarsTotal(Map(window, PublishDay));
  }

  /** The publish-day chart without the failure on an empty window: no video,
      no bar; otherwise the bars of the code. */
  function PublishDayBars(window: seq<Row>): (r: seq<DayBar>)
    ensures window == [] ==> r == []
    ensures window != [] ==> r == PublishDayChart(window).value
    ensures BarTotal(r) == |window|
  {
    if window == [] then []
    else
      PublishDayTotal(window);
      PublishDayChart(window).value
  }
}
