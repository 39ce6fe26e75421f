/** The date domain of the trending table and the two ways a callback narrows
    the table to a period: one trending date (the daily tab's date selector)
    or the dates between two positions of the domain (the weekly tab's range
    slider). This module also builds the slider's marks. */
module Windows {
  import opened Records
  import opened Sequences
  import opened Sorting

  predicate StrictlyIncreasing(s: seq<int>) {
    forall i, j :: 0 <= i < j < |s| ==> s[i] < s[j]
  }

  /** The trending-date column. */
  function Dates(t: seq<Row>): (r: seq<int>)
    ensures |r| == |t|
  {
    Map(t, TrendingDate)
  }

  lemma SortedDistinctIncreasing(s: seq<int>)
    requires SortedBy(s, IntLe) && Distinct(s)
    ensures StrictlyIncreasing(s)
  {
    forall i, j | 0 <= i < j < |s| ensures s[i] < s[j] {
      assert IntLe(s[i], s[j]) && s[i] != s[j];
    }
  }

  /** np.unique of the trending dates: each date of the table once, ascending. */
  function DateDomain(t: seq<Row>): (r: seq<int>)
    ensures StrictlyIncreasing(r)
    ensures forall d :: d in r <==> d in Dates(t)
  {
    var u := Unique(Dates(t));
    var s := SortBy(u, IntLe);
    IntLeTotal();
    SortBySorted(u, IntLe);
    DistinctPermutation(u, s);
    SortedDistinctIncreasing(s);
    assert forall d :: d in s <==> d in multiset(u);
    s
  }

  /** Every row's trending date is a point of the domain. */
  lemma DateDomainCovers(t: seq<Row>, x: Row)
    requires x in t
    ensures x.trendingDate in DateDomain(t)
  {
    var k :| 0 <= k < |t| && t[k] == x;
    assert Dates(t)[k] == x.trendingDate;
  }

  /** The daily filter: the rows trending on day d, in table order. */
  function Daily(t: seq<Row>, d: int): (r: seq<Row>)
    ensures forall x {:trigger multiset(r)[x]} ::
      multiset(r)[x] == if x.trendingDate == d then multiset(t)[x] else 0
  {
    FilterMultiset(t, KeyIs(TrendingDate, d));
    Filter(t, KeyIs(TrendingDate, d))
  }

  function InRange(lo: int, hi: int): Row -> bool {
    (x: Row) => lo <= x.trendingDate <= hi
  }

  /** The weekly filter over slider positions i and j of the domain. A position
      past the end of the domain raises, as indexing date_list does. */
  function Weekly(t: seq<Row>, dom: seq<int>, i: nat, j: nat): (r: Result<seq<Row>>)
    ensures r.Ok? <==> i < |dom| && j < |dom|
    ensures r.Err? ==> r.error == IndexOutOfRange(if i >= |dom| then i else j)
    ensures r.Ok? ==> forall x {:trigger multiset(r.value)[x]} ::
      multiset(r.value)[x] == if dom[i] <= x.trendingDate <= dom[j] then multiset(t)[x] else 0
  {
    if i >= |dom| then Err(IndexOutOfRange(i))
    else if j >= |dom| then Err(IndexOutOfRange(j))
    else
      FilterMultiset(t, InRange(dom[i], dom[j]));
      Ok(Filter(t, InRange(dom[i], dom[j])))
  }

  /** A one-position range is the daily filter of that date. */
  lemma WeeklySingleDay(t: seq<Row>, dom: seq<int>, i: nat)
    requires i < |dom|
    ensures Weekly(t, dom, i, i) == Ok(Daily(t, dom[i]))
  {
    FilterExt(t, InRange(dom[i], dom[i]), KeyIs(TrendingDate, dom[i]));
  }

  /** An inverted range (right handle before the left one) selects nothing. */
  lemma WeeklyInverted(t: seq<Row>, dom: seq<int>, i: nat, j: nat)
    requires StrictlyIncreasing(dom) && j < i < |dom|
    ensures Weekly(t, dom, i, j) == Ok([])
  {
    FilterNone(t, InRange(dom[i], dom[j]));
  }

  /** The full range over the table's own domain keeps the whole table. */
  lemma WeeklyFullRange(t: seq<Row>)
    requires t != []
    ensures Weekly(t, DateDomain(t), 0, |DateDomain(t)| - 1) == Ok(t)
  {
    var dom := DateDomain(t);
    assert Dates(t)[0] in dom;
    DomainBounds(t, dom);
    FilterAll(t, InRange(dom[0], dom[|dom| - 1]));
  }

  /** Every row lies between the first and the last date of the domain. */
  lemma DomainBounds(t: seq<Row>, dom: seq<int>)
    requires dom == DateDomain(t) && dom != []
    ensures forall x :: x in t ==> InRange(dom[0], dom[|dom| - 1])(x)
  {
    forall x | x in t ensures InRange(dom[0], dom[|dom| - 1])(x) {
      DateDomainCovers(t, x);
      var k :| 0 <= k < |dom| && dom[k] == x.trendingDate;
      IncreasingBounds(dom, k);
    }
  }

  lemma IncreasingBounds(s: seq<int>, k: nat)
    requires StrictlyIncreasing(s) && k < |s|
    ensures s[0] <= s[k] <= s[|s| - 1]
  {
    if 0 < k {
      assert s[0] < s[k];
    }
    if k < |s| - 1 {
      assert s[k] < s[|s| - 1];
    }
  }

  /** The sizes of the daily tables over a list of dates. */
  function DaySizes(t: seq<Row>, L: seq<int>): nat {
    if L == [] then 0 else |Daily(t, L[0])| + DaySizes(t, L[1..])
  }

  lemma {:induction false} DaySizesOccurrences(t: seq<Row>, L: seq<int>)
    ensures DaySizes(t, L) == Occurrences(L, Dates(t))
  {
    if L != [] {
      FilterKeyCount(t, TrendingDate, L[0]);
      DaySizesOccurrences(t, L[1..]);
    }
  }

  /** The daily tables of the domain's dates partition the table: every row
      falls on exactly one of them. */
  lemma DailyPartition(t: seq<Row>)
    ensures DaySizes(t, DateDomain(t)) == |t|
  {
    var dom := DateDomain(t);
    DaySizesOccurrences(t, dom);
    OccurrencesCover(dom, Dates(t));
  }

  /** One mark of the range slider: its text and its style colour. */
  datatype Mark = Mark(text: string, color: string)

  /** Labels every position of the domain; the date format is a parameter
      (the dashboard uses the month abbreviation and the day). */
  method SliderMarks(dom: seq<int>, format: int -> string) returns (marks: map<nat, Mark>)
    ensures forall i: nat :: i in marks <==> i < |dom|
    ensures forall i: nat :: i < |dom| ==> marks[i] == Mark(format(dom[i]), "#ffffff")
  {
    marks := map[];
    var ind := 0;
    while ind < |dom|
      invariant ind <= |dom|
      invariant forall i: nat :: i in marks <==> i < ind
      invariant forall i: nat :: i < ind ==> marks[i] == Mark(format(dom[i]), "#ffffff")
    {
      marks := marks[ind := Mark(format(dom[ind]), "#ffffff")];
      ind := ind + 1;
    }
  }
}
