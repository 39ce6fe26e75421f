/** The tables behind the bar charts and leaderboards: the ten rows with the
    largest views, likes or comments, the daily top-ranked table, the
    category counts, the channel leaderboard and the per-country counts of the
    choropleth map. */
module Charts {
  import opened Records
  import opened Sequences
  import opened Sorting
  import opened Counting
  import opened Labels

  function MetricKey(m: Metric): Row -> int {
    r => MetricOf(m, r)
  }

  /** sort_values(metric, ascending=True) followed by [-10:]. */
  function TopByMetric(t: seq<Row>, m: Metric): (r: seq<Row>)
    ensures |r| == Min(10, |t|)
    ensures SortedBy(r, ByKey(MetricKey(m)))
    ensures multiset(r) <= multiset(t)
    ensures forall x, y :: x in multiset(t) - multiset(r) && y in r ==> MetricOf(m, x) <= MetricOf(m, y)
  {
    var s := SortBy(t, ByKey(MetricKey(m)));
    var k := |s| - Min(10, |s|);
    var r := s[k..];
    KeySuffix(t, s, MetricKey(m), k);
    forall x, y | x in multiset(t) - multiset(r) && y in r ensures MetricOf(m, x) <= MetricOf(m, y) {
      assert MetricKey(m)(x) <= MetricKey(m)(y);
    }
    r
  }

  /** Any suffix of a table sorted by an integer key leaves out only rows
      whose key is below that of every row it keeps. */
  lemma KeySuffix<T(!new)>(t: seq<T>, s: seq<T>, key: T -> int, k: nat)
    requires s == SortBy(t, ByKey(key)) && k <= |s|
    ensures SortedBy(s[k..], ByKey(key))
    ensures multiset(s[k..]) <= multiset(t)
    ensures forall x, y :: x in multiset(t) - multiset(s[k..]) && y in s[k..] ==> key(x) <= key(y)
  {
    ByKeyTotal(key);
    SortBySorted(t, ByKey(key));
    SortedSuffix(s, ByKey(key), k);
  }

  /** The bar labels of a top-10 chart: each title shortened to 20 characters
      under the chart's override set. */
  function BarLabels(rows: seq<Row>, overrides: set<string>): (r: seq<string>)
    ensures |r| == |rows|
    ensures forall i :: 0 <= i < |rows| ==> r[i] == ShortenTitle(rows[i].title, 20, overrides)
  {
    Map(rows, (x: Row) => ShortenTitle(x.title, 20, overrides))
  }

  /** The override set each metric's chart uses. */
  function OverridesFor(m: Metric): set<string> {
    if m == Comments then CommentsOverrides else ViewsLikesOverrides
  }

  function RankedTop(r: Row): bool { r.rank <= 10 }

  /** The daily top-ranked table: rows with rank at most 10, by ascending rank. */
  function TopRanked(t: seq<Row>): (r: seq<Row>)
    ensures SortedBy(r, ByKey(Rank))
    ensures forall x {:trigger multiset(r)[x]} :: multiset(r)[x] == if x.rank <= 10 then multiset(t)[x] else 0
  {
    var f := Filter(t, RankedTop);
    FilterMultiset(t, RankedTop);
    ByKeyTotal(Rank);
    SortBySorted(f, ByKey(Rank));
    SortBy(f, ByKey(Rank))
  }

  /** value_counts of the category column. */
  function CategoryCounts(t: seq<Row>): (r: seq<Entry<string>>)
    ensures SortedBy(r, ByCount)
    ensures DistinctKeys(r, Key)
    ensures forall k :: k in KeySet(r, Key) <==> k in Map(t, Category)
    ensures forall e :: e in r ==> e.count == |Filter(t, KeyIs(Category, e.key))| > 0
    ensures TotalCount(r) == |t|
  {
    var r := ValueCounts(Map(t, Category));
    forall e | e in r ensures e.count == |Filter(t, KeyIs(Category, e.key))| {
      FilterKeyCount(t, Category, e.key);
    }
    ValueCountsTotal(Map(t, Category));
    r
  }

  /** The channel leaderboard: the ten (title, avatar, type, subscribers) keys
      with the most rows, by non-increasing count. */
  function Leaderboard(t: seq<Row>): (r: seq<Entry<ChannelKey>>)
    ensures |r| <= 10
    ensures SortedBy(r, ByCount)
    ensures DistinctKeys(r, Key)
    ensures forall e :: e in r ==> e.count == |Filter(t, KeyIs(ChannelKeyOf, e.key))| > 0
    ensures forall k :: k in KeySet(r, Key) ==> k in Map(t, ChannelKeyOf)
    ensures |r| < 10 ==> forall x :: x in t ==> ChannelKeyOf(x) in KeySet(r, Key)
    ensures forall e, x :: e in r && x in t && ChannelKeyOf(x) !in KeySet(r, Key) ==>
      |Filter(t, KeyIs(ChannelKeyOf, ChannelKeyOf(x)))| <= e.count
  {
    var keys := Map(t, ChannelKeyOf);
    var r := TopCounts(keys, 10);
    forall x | x in t ensures ChannelKeyOf(x) in keys {
      var i :| 0 <= i < |t| && t[i] == x;
      assert keys[i] == ChannelKeyOf(x);
    }
    forall e | e in r ensures e.count == |Filter(t, KeyIs(ChannelKeyOf, e.key))| {
      FilterKeyCount(t, ChannelKeyOf, e.key);
    }
    forall e, x | e in r && x in t && ChannelKeyOf(x) !in KeySet(r, Key)
      ensures |Filter(t, KeyIs(ChannelKeyOf, ChannelKeyOf(x)))| <= e.count
    {
      FilterKeyCount(t, ChannelKeyOf, ChannelKeyOf(x));
      var i :| 0 <= i < |t| && t[i] == x;
      assert keys[i] == ChannelKeyOf(x);
    }
    r
  }

  /** ISO 3166-1 alpha-2 to alpha-3, for the sixteen countries the data holds. */
  const CodeTable: map<string, string> := map[
    "AU" := "AUS", "CN" := "CHN", "DE" := "DEU", "ES" := "ESP",
    "GB" := "GBR", "GH" := "GHA", "ID" := "IDN", "IE" := "IRL",
    "IN" := "IND", "IT" := "ITA", "JP" := "JPN", "KR" := "KOR",
    "MY" := "MYS", "RU" := "RUS", "US" := "USA", "VN" := "VNM"]

  /** One location of the choropleth map. */
  datatype CountryCount = CountryCount(country: string, count: nat, isoAlpha: string)

  /** Maps each counted code through the table; the first code it lacks raises. */
  function ToIso(kept: seq<Entry<string>>): (r: Result<seq<CountryCount>>)
    ensures r.Ok? <==> forall e :: e in kept ==> e.key in CodeTable
    ensures r.Ok? ==> |r.value| == |kept| && forall i :: 0 <= i < |kept| ==>
      kept[i].key in CodeTable &&
      r.value[i] == CountryCount(kept[i].key, kept[i].count, CodeTable[kept[i].key])
    ensures r.Err? ==> (r.error.UnknownCountryCode? && r.error.code !in CodeTable &&
      exists e :: e in kept && e.key == r.error.code)
  {
    if kept == [] then Ok([])
    else if kept[0].key !in CodeTable then Err(UnknownCountryCode(kept[0].key))
    else
      match ToIso(kept[1..])
      case Err(e) => Err(e)
      case Ok(rest) =>
        assert forall e :: e in kept ==> e == kept[0] || e in kept[1..];
        Ok([CountryCount(kept[0].key, kept[0].count, CodeTable[kept[0].key])] + rest)
  }

  function HasCode(e: Entry<string>): bool { e.key != "" }
  function NonEmptyCode(c: string): bool { c != "" }

  /** groupby('country').count(), rows with an empty country dropped, codes
      mapped to alpha-3. */
  function CountryCounts(codes: seq<string>): (r: Result<seq<CountryCount>>)
    ensures r.Ok? <==> forall c :: c in codes && c != "" ==> c in CodeTable
    ensures r.Err? ==> (r.error.UnknownCountryCode? && r.error.code in codes &&
      r.error.code != "" && r.error.code !in CodeTable)
    ensures r.Ok? ==> forall i :: 0 <= i < |r.value| ==>
      r.value[i].country != "" && r.value[i].country in CodeTable &&
      r.value[i].isoAlpha == CodeTable[r.value[i].country] &&
      r.value[i].count == multiset(codes)[r.value[i].country]
    ensures r.Ok? ==> forall a, b :: 0 <= a < b < |r.value| ==> r.value[a].country != r.value[b].country
    ensures r.Ok? ==> forall c :: c in codes && c != "" ==>
      exists k :: 0 <= k < |r.value| && r.value[k].country == c
  {
    var u := Tally(codes);
    var kept := Filter(u, HasCode);
    forall e ensures e in kept <==> e in u && e.key != "" {
      FilterIn(u, HasCode, e);
    }
    forall c | c in codes && c != "" ensures exists e :: e in kept && e.key == c {
      var e :| e in u && Key(e) == c;
    }
    FilterDistinctKeys(u, HasCode, Key);
    var r := ToIso(kept);
    if r.Ok? then
      CountryLocations(codes, kept, r.value);
      r
    else r
  }

  /** The locations of the map are those of the counted codes: one per code,
      each with its occurrence count. */
  lemma CountryLocations(codes: seq<string>, kept: seq<Entry<string>>, v: seq<CountryCount>)
    requires DistinctKeys(kept, Key)
    requires forall c :: c in codes && c != "" ==> exists e :: e in kept && e.key == c
    requires forall e :: e in kept ==> e.count == multiset(codes)[e.key]
    requires ToIso(kept) == Ok(v)
    ensures forall i :: 0 <= i < |v| ==> v[i].count == multiset(codes)[v[i].country]
    ensures forall a, b :: 0 <= a < b < |v| ==> v[a].country != v[b].country
    ensures forall c :: c in codes && c != "" ==> exists k :: 0 <= k < |v| && v[k].country == c
  {
    forall i | 0 <= i < |v| ensures v[i].count == multiset(codes)[v[i].country] {
      assert kept[i] in kept;
    }
    forall a, b | 0 <= a < b < |v| ensures v[a].country != v[b].country {
      assert Key(kept[a]) != Key(kept[b]);
    }
    forall c | c in codes && c != "" ensures exists k :: 0 <= k < |v| && v[k].country == c {
      var e :| e in kept && e.key == c;
      var k :| 0 <= k < |kept| && kept[k] == e;
      assert v[k].country == c;
    }
  }

  /** The counts on the map add up to the number of rows with a country code. */
  lemma CountryCountsTotal(codes: seq<string>)
    requires CountryCounts(codes).Ok?
    ensures CountrySum(CountryCounts(codes).value) == |Filter(codes, NonEmptyCode)|
  {
    var U := Unique(codes);
    var kept := Filter(U, NonEmptyCode);
    var entries := Filter(Tally(codes), HasCode);
    forall c | c in U ensures HasCode(CountIn(codes)(c)) == NonEmptyCode(c) {}
    FilterMap(U, CountIn(codes), HasCode, NonEmptyCode);
    assert entries == Map(kept, CountIn(codes));
    CountrySumEntries(CountryCounts(codes).value, entries);
    TotalCountOccurrences(kept, codes);
    FilterDistinct(U, NonEmptyCode);
    OccurrencesCount(kept, codes);
    forall c | c in codes ensures Among(kept)(c) == NonEmptyCode(c) {
      FilterIn(U, NonEmptyCode, c);
    }
    FilterExt(codes, Among(kept), NonEmptyCode);
  }

  function CountrySum(r: seq<CountryCount>): nat {
    if r == [] then 0 else r[0].count + CountrySum(r[1..])
  }

  lemma {:induction false} CountrySumEntries(r: seq<CountryCount>, kept: seq<Entry<string>>)
    requires |r| == |kept| && forall i :: 0 <= i < |r| ==> r[i].count == kept[i].count
    ensures CountrySum(r) == TotalCount(kept)
  {
    if r != [] {
      CountrySumEntries(r[1..], kept[1..]);
    }
  }

  lemma UniqueExample()
    ensures Unique(["ID", "ID", "US", ""]) == ["ID", "US", ""]
  {
    UniqueOfFour("ID", "US", "");
  }

  /** The first-appearance order of [a, a, b, c], built one row at a time. */
  lemma UniqueOfFour<T(!new)>(a: T, b: T, c: T)
    requires a != b && a != c && b != c
    ensures Unique([a, a, b, c]) == [a, b, c]
  {
    KeepFirstOfFour(a, b, c);
  }

  lemma KeepFirstOfFour<T>(a: T, b: T, c: T)
    requires a != b && a != c && b != c
    ensures KeepFirst([a, a, b, c], Identity) == [a, b, c]
  {
    var s := [a, a, b];
    assert s + [c] == [a, a, b, c] && [a, b] + [c] == [a, b, c];
    KeepFirstOfThree(a, b);
    KeepFirstNew(s, c, Identity);
  }

  lemma KeepFirstOfThree<T>(a: T, b: T)
    requires a != b
    ensures KeepFirst([a, a, b], Identity) == [a, b]
  {
    var s := [a, a];
    assert s + [b] == [a, a, b] && [a] + [b] == [a, b];
    KeepFirstOfTwo(a);
    KeepFirstNew(s, b, Identity);
  }

  lemma KeepFirstOfTwo<T>(a: T)
    ensures KeepFirst([a, a], Identity) == [a]
  {
    var e: seq<T> := [];
    var s := [a];
    assert e + [a] == s && s + [a] == [a, a];
    assert Identity(a) in KeySet(s, Identity) by { assert s[0] == a; }
    KeepFirstNew(e, a, Identity);
    KeepFirstRepeat(s, a, Identity);
  }

  lemma ToIsoExample()
    ensures ToIso([Entry("ID", 2), Entry("US", 1)]) ==
      Ok([CountryCount("ID", 2, "IDN"), CountryCount("US", 1, "USA")])
  {
    var us := [Entry("US", 1)];
    assert [Entry("ID", 2), Entry("US", 1)][1..] == us;
    assert us[1..] == [];
    assert ToIso(us) == Ok([CountryCount("US", 1, "USA")]) by {
      assert ToIso([]) == Ok([]);
      assert [CountryCount("US", 1, "USA")] + [] == [CountryCount("US", 1, "USA")];
    }
    assert "ID" in CodeTable && CodeTable["ID"] == "IDN";
    assert [CountryCount("ID", 2, "IDN")] + [CountryCount("US", 1, "USA")] ==
      [CountryCount("ID", 2, "IDN"), CountryCount("US", 1, "USA")];
  }

  lemma CountryCountsExample()
    ensures CountryCounts(["ID", "ID", "US", ""]) ==
      Ok([CountryCount("ID", 2, "IDN"), CountryCount("US", 1, "USA")])
  {
    var codes := ["ID", "ID", "US", ""];
    UniqueExample();
    assert multiset(codes)["ID"] == 2 && multiset(codes)["US"] == 1 && multiset(codes)[""] == 1;
    var u := Tally(codes);
    assert u == [Entry("ID", 2), Entry("US", 1), Entry("", 1)];
    var kept := [Entry("ID", 2), Entry("US", 1)];
    assert Filter(u, HasCode) == kept;
    ToIsoExample();
  }
}
