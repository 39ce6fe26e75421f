/** The Social Blade rank chart: videos per (channel type, rank tier), with
    channel types outside the five most frequent merged into "Others", an empty
    rank shown as "N/A", and the tiers in a fixed order. */
module RankTiers {
  import opened Records
  import opened Sequences
  import opened Counting
  import opened Labels
  import opened Pivot

  /** The tier columns of the chart, in display order. */
  const AllTiers: seq<string> := ["A++", "A+", "A", "A-", "B+", "B", "B-", "C+", "D-", "N/A"]

  lemma AllTiersDistinct()
    ensures Distinct(AllTiers)
  {
  }

  function TierOf(x: Row): string { ReplaceEmpty(x.rankTier) }

  /** The five channel types with the most rows (the per-type sums of the
      (tier, type) counts are the per-type row counts). */
  function TypeTop(rows: seq<Row>): (r: seq<string>)
    ensures |r| <= 5 && Distinct(r)
    ensures forall k :: k in r ==> k in Map(rows, ChannelType)
    ensures |r| < 5 ==> forall k :: k in Map(rows, ChannelType) ==> k in r
    ensures forall k, l :: k in Map(rows, ChannelType) && k !in r && l in r ==>
      multiset(Map(rows, ChannelType))[k] <= multiset(Map(rows, ChannelType))[l]
  {
    TopLabels(Map(rows, ChannelType), 5)
  }

  /** A row's (relabelled channel type, tier) pair. */
  function TierPair(top: seq<string>): Row -> (string, string) {
    (x: Row) => (MapOthers(top, x.channelType), TierOf(x))
  }

  function First(p: (string, string)): string { p.0 }
  function Second(p: (string, string)): string { p.1 }

  function TierPairs(rows: seq<Row>): seq<(string, string)> {
    Map(rows, TierPair(TypeTop(rows)))
  }

  /** The rows of the chart: the relabelled channel types that occur. */
  function ChannelTypes(rows: seq<Row>): (r: seq<string>)
    ensures Distinct(r)
    ensures forall k :: k in r <==> k in Map(TierPairs(rows), First)
  {
    Unique(Map(TierPairs(rows), First))
  }

  lemma ChannelTypesKept(rows: seq<Row>, k: string)
    requires k in ChannelTypes(rows)
    ensures k == Others || k in TypeTop(rows)
  {
    var pairs := TierPairs(rows);
    var a :| 0 <= a < |pairs| && First(pairs[a]) == k;
    assert pairs[a].0 == MapOthers(TypeTop(rows), rows[a].channelType);
  }

  lemma ChannelTypesCover(rows: seq<Row>, p: (string, string))
    requires p in TierPairs(rows)
    ensures p.0 in ChannelTypes(rows)
  {
    var pairs := TierPairs(rows);
    var a :| 0 <= a < |pairs| && pairs[a] == p;
    assert Map(pairs, First)[a] == p.0;
  }

  /** The chart as a matrix: one row per channel type, one column per tier. */
  datatype TierMatrix = TierMatrix(types: seq<string>, tiers: seq<string>, counts: seq<seq<nat>>)

  /** The zero-filled matrix over the given tier columns: a tier no video has
      is a column of zeros. */
  function RankTierMatrix(rows: seq<Row>, tiers: seq<string>): (m: TierMatrix)
    ensures m.tiers == tiers
    ensures Distinct(m.types)
    ensures forall k :: k in m.types ==> k == Others || k in TypeTop(rows)
    ensures |m.counts| == |m.types| && forall i :: 0 <= i < |m.types| ==> |m.counts[i]| == |tiers|
    ensures forall i, j :: 0 <= i < |m.types| && 0 <= j < |tiers| ==>
      m.counts[i][j] == |Filter(rows, KeyIs(TierPair(TypeTop(rows)), (m.types[i], tiers[j])))|
  {
    var types := ChannelTypes(rows);
    var g := Grid(TierPairs(rows), types, tiers);
    forall i, j | 0 <= i < |types| && 0 <= j < |tiers|
      ensures g[i][j] == |Filter(rows, KeyIs(TierPair(TypeTop(rows)), (types[i], tiers[j])))|
    {
      FilterKeyCount(rows, TierPair(TypeTop(rows)), (types[i], tiers[j]));
    }
    forall k | k in types ensures k == Others || k in TypeTop(rows) {
      ChannelTypesKept(rows, k);
    }
    TierMatrix(types, tiers, g)
  }

  function PairTierIs(c: string): ((string, string)) -> bool {
    (p: (string, string)) => p.1 == c
  }

  /** Relabelling channel types does not change how many videos each tier
      has: column j sums to the rows whose (replaced) tier is tiers[j]. */
  lemma RankTierColumnTotal(rows: seq<Row>, tiers: seq<string>, j: nat)
    requires j < |tiers|
    ensures ColumnSum(RankTierMatrix(rows, tiers).counts, j) == |Filter(rows, KeyIs(TierOf, tiers[j]))|
  {
    var pairs := TierPairs(rows);
    var types := ChannelTypes(rows);
    GridColumnTotal(pairs, types, tiers, j);
    forall p | p in pairs ensures InColumn(types, tiers[j])(p) == PairTierIs(tiers[j])(p) {
      ChannelTypesCover(rows, p);
    }
    FilterExt(pairs, InColumn(types, tiers[j]), PairTierIs(tiers[j]));
    FilterMap(rows, TierPair(TypeTop(rows)), PairTierIs(tiers[j]), KeyIs(TierOf, tiers[j]));
  }

  function PairTierListed(tiers: seq<string>): ((string, string)) -> bool {
    (p: (string, string)) => p.1 in tiers
  }

  function TierListed(tiers: seq<string>): Row -> bool {
    (x: Row) => TierOf(x) in tiers
  }

  /** Over distinct tiers the matrix counts every row whose tier is listed, once;
      rows of any other tier are dropped by the column selection. */
  lemma RankTierTotal(rows: seq<Row>, tiers: seq<string>)
    requires Distinct(tiers)
    ensures Total(RankTierMatrix(rows, tiers).counts) == |Filter(rows, TierListed(tiers))|
  {
    var pairs := TierPairs(rows);
    var types := ChannelTypes(rows);
    GridTotal(pairs, types, tiers);
    forall p | p in pairs ensures InGrid(types, tiers)(p) == PairTierListed(tiers)(p) {
      ChannelTypesCover(rows, p);
    }
    FilterExt(pairs, InGrid(types, tiers), PairTierListed(tiers));
    FilterMap(rows, TierPair(TypeTop(rows)), PairTierListed(tiers), TierListed(tiers));
  }

  function Absent(present: seq<string>): string -> bool {
    t => t !in present
  }

  /** The matrix as the code builds it: pivot, fillna(0), then select the
      tier columns, which raises when a listed tier has no video. */
  function RankTierMatrixAsWritten(rows: seq<Row>, tiers: seq<string>): (r: Result<TierMatrix>)
    ensures r.Ok? <==> forall t :: t in tiers ==> t in Map(rows, TierOf)
    ensures r.Ok? ==> r.value == RankTierMatrix(rows, tiers)
    ensures r.Err? ==> (r.error.MissingRankTier? && r.error.tier in tiers &&
      r.error.tier !in Map(rows, TierOf))
  {
    var missing := Filter(tiers, Absent(Map(rows, TierOf)));
    forall t ensures t in missing <==> t in tiers && t !in Map(rows, TierOf) {
      FilterIn(tiers, Absent(Map(rows, TierOf)), t);
    }
    if missing == [] then Ok(RankTierMatrix(rows, tiers))
    else
      assert missing[0] in missing;
      Err(MissingRankTier(missing[0]))
  }

  /** A window without rows (an inverted slider range, say) makes the code raise
      where the zero-filled matrix is empty. */
  lemma AsWrittenEmptyWindow()
    ensures RankTierMatrixAsWritten([], AllTiers) == Err(MissingRankTier("A++"))
    ensures RankTierMatrix([], AllTiers).types == []
  {
    assert Map([], TierOf) == [];
    FilterAll(AllTiers, Absent([]));
  }

  /** One video of tier "A" is a valid input, yet the code raises for the
      missing tier "A++" ... */
  lemma AsWrittenSingleTier()
    ensures RankTierMatrixAsWritten([SampleRow(0, "A")], AllTiers) == Err(MissingRankTier("A++"))
  {
    var rows := [SampleRow(0, "A")];
    assert Map(rows, TierOf) == ["A"];
    var missing := Filter(AllTiers, Absent(["A"]));
    assert missing[0] == "A++" by {
      FilterCons("A++", AllTiers[1..], Absent(["A"]));
      assert AllTiers == ["A++"] + AllTiers[1..];
    }
  }

  /** ... while the zero-filled chart counts that video. */
  lemma SingleTierCounted()
    ensures Total(RankTierMatrix([SampleRow(0, "A")], AllTiers).counts) == 1
  {
    var rows := [SampleRow(0, "A")];
    assert Filter(rows, TierListed(AllTiers)) == rows by {
      assert TierListed(AllTiers)(SampleRow(0, "A"));
      FilterAll(rows, TierListed(AllTiers));
    }
    AllTiersDistinct();
    RankTierTotal(rows, AllTiers);
  }
}
