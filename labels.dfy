/** The text labels the charts put on their axes: the 48 half-hour publish
    bins (create_bins), the truncated video titles of the top-10 bar charts
    (shorten_title) and the "N/A" label of an empty Social Blade rank
    (replace_empty). */
module Labels {
  import opened Sequences

  predicate IsDigit(c: char) { '0' <= c <= '9' }

  function Digit(d: nat): (c: char)
    requires d < 10
    ensures IsDigit(c)
  {
    ('0' as int + d) as char
  }

  /** str(n) for a natural number: its decimal digits without leading zeros. */
  function Decimal(n: nat): (r: string)
    ensures |r| >= 1
    ensures forall i :: 0 <= i < |r| ==> IsDigit(r[i])
  {
    if n < 10 then [Digit(n)] else Decimal(n / 10) + [Digit(n % 10)]
  }

  function DigitValue(c: char): nat {
    if IsDigit(c) then c as int - '0' as int else 0
  }

  /** int(s) for a string of decimal digits. */
  function ParseDecimal(s: string): nat {
    if s == [] then 0 else 10 * ParseDecimal(s[..|s| - 1]) + DigitValue(s[|s| - 1])
  }

  lemma {:induction false} DecimalRoundTrip(n: nat)
    ensures ParseDecimal(Decimal(n)) == n
  {
    if n >= 10 {
      var s := Decimal(n);
      assert s[..|s| - 1] == Decimal(n / 10);
      DecimalRoundTrip(n / 10);
    }
  }

  /** The k-th half-hour bin: hour k / 2, minute 00 or 30. */
  function HalfHourLabel(k: nat): string {
    Decimal(k / 2) + (if k % 2 == 0 then ":00" else ":30")
  }

  /** Reads a bin label back to its position. */
  function ParseHalfHour(s: string): nat {
    if |s| < 3 then 0
    else 2 * ParseDecimal(s[..|s| - 3]) + (if s[|s| - 2] == '3' then 1 else 0)
  }

  lemma HalfHourRoundTrip(k: nat)
    ensures ParseHalfHour(HalfHourLabel(k)) == k
  {
    var s := HalfHourLabel(k);
    assert s[..|s| - 3] == Decimal(k / 2);
    DecimalRoundTrip(k / 2);
  }

  /** Different positions have different labels. */
  lemma HalfHourInjective(k: nat, l: nat)
    requires k != l
    ensures HalfHourLabel(k) != HalfHourLabel(l)
  {
    HalfHourRoundTrip(k);
    HalfHourRoundTrip(l);
  }

  /** The bins after h iterations of the loop of create_bins. */
  function BinsUpTo(h: nat): (r: seq<string>)
    ensures |r| == 2 * h
    ensures forall k :: 0 <= k < 2 * h ==> r[k] == HalfHourLabel(k)
  {
    if h == 0 then []
    else
      var r := BinsUpTo(h - 1) + [Decimal(h - 1) + ":00", Decimal(h - 1) + ":30"];
      assert HalfHourLabel(2 * h - 2) == r[2 * h - 2];
      assert HalfHourLabel(2 * h - 1) == r[2 * h - 1];
      r
  }

  /** The publish-hour bins: "0:00", "0:30", ..., "23:30", each once. */
  function HalfHourBins(): (r: seq<string>)
    ensures |r| == 48
    ensures forall k :: 0 <= k < 48 ==> r[k] == HalfHourLabel(k)
    ensures forall i, j :: 0 <= i < j < |r| ==> r[i] != r[j]
  {
    var r := BinsUpTo(24);
    forall i, j | 0 <= i < j < |r| ensures r[i] != r[j] {
      HalfHourInjective(i, j);
    }
    r
  }

  lemma HalfHourBinsEnds()
    ensures HalfHourBins()[0] == "0:00" && HalfHourBins()[1] == "0:30"
    ensures HalfHourBins()[20] == "10:00" && HalfHourBins()[47] == "23:30"
  {
    var r := HalfHourBins();
    assert r[0] == HalfHourLabel(0) && r[1] == HalfHourLabel(1);
    assert r[20] == HalfHourLabel(20) && r[47] == HalfHourLabel(47);
    LabelsAt();
  }

  lemma LabelsAt()
    ensures HalfHourLabel(0) == "0:00" && HalfHourLabel(1) == "0:30"
    ensures HalfHourLabel(20) == "10:00" && HalfHourLabel(47) == "23:30"
  {
    TwoDigits(1, 0);
    TwoDigits(2, 3);
  }

  lemma TwoDigits(a: nat, b: nat)
    requires 1 <= a < 10 && b < 10
    ensures Decimal(10 * a + b) == [Digit(a), Digit(b)]
  {
    assert (10 * a + b) / 10 == a && (10 * a + b) % 10 == b;
  }

  /** create_bins: for each hour, append the ":00" and then the ":30" label. */
  method CreateBins() returns (ans: seq<string>)
    ensures ans == HalfHourBins()
    ensures |ans| == 48 && forall k :: 0 <= k < 48 ==> ans[k] == HalfHourLabel(k)
  {
    ans := [];
    for i := 0 to 24
      invariant ans == BinsUpTo(i)
    {
      ans := ans + [Decimal(i) + ":00"];
      ans := ans + [Decimal(i) + ":30"];
    }
  }

  /** Python's x[:k], where a negative k counts from the end. */
  function PyPrefix(x: string, k: int): (r: string)
    ensures 0 <= k <= |x| ==> r == x[..k]
    ensures k > |x| ==> r == x
    ensures k < 0 ==> r == x[..Max(0, |x| + k)]
    ensures |r| == if k >= 0 then Min(k, |x|) else Max(0, |x| + k)
  {
    if k >= 0 then x[..Min(k, |x|)] else x[..Max(0, |x| + k)]
  }

  /** shorten_title: a title shorter than n characters is kept; a longer one is
      cut to n characters followed by "...", except the literal titles of the
      chart's override set, which are cut to n - 1 characters followed by "...1". */
  function ShortenTitle(x: string, n: nat, overrides: set<string>): (r: string)
    ensures |x| < n ==> r == x
    ensures |x| >= n && x !in overrides ==> r == x[..n] + "..." && |r| == n + 3
    ensures |x| >= n && x in overrides && n >= 1 ==> r == x[..n - 1] + "...1" && |r| == n + 3
  {
    if |x| < n then x
    else if x in overrides then PyPrefix(x, n - 1) + "...1"
    else PyPrefix(x, n) + "..."
  }

  /** No chart label is longer than n + 3 characters. */
  lemma ShortenTitleBound(x: string, n: nat, overrides: set<string>)
    requires n >= 1
    ensures |ShortenTitle(x, n, overrides)| <= n + 3
  {
  }

  /** The label of an override title never coincides with the label of any
      other title: kept whole, the two titles differ and have different
      lengths from every cut label; cut, it ends in '1' where a generic label
      ends in '.', and it is longer than any title kept whole. */
  lemma OverrideDistinct(x: string, y: string, n: nat, overrides: set<string>)
    requires n >= 1 && x in overrides && y !in overrides
    ensures ShortenTitle(x, n, overrides) != ShortenTitle(y, n, overrides)
  {
    var a, b := ShortenTitle(x, n, overrides), ShortenTitle(y, n, overrides);
    if |x| < n && |y| < n {
      assert a == x && b == y;
    } else if |x| < n {
      assert |a| < n < |b|;
    } else if |y| >= n {
      assert a[|a| - 1] == '1' && b[|b| - 1] == '.';
    } else {
      assert |b| < n < |a|;
    }
  }

  /** Two generic labels of the same length agree exactly when the titles share
      their first n characters. */
  lemma GenericLabels(x: string, y: string, n: nat, overrides: set<string>)
    requires |x| >= n && |y| >= n && x !in overrides && y !in overrides
    ensures ShortenTitle(x, n, overrides) == ShortenTitle(y, n, overrides) <==> x[..n] == y[..n]
  {
    var a, b := ShortenTitle(x, n, overrides), ShortenTitle(y, n, overrides);
    if a == b {
      assert a[..n] == x[..n] && b[..n] == y[..n];
    }
  }

  const Blackpink: string := "BLACKPINK - 'How You Like That' M/V"

  /** The override set of the views and likes charts. */
  const ViewsLikesOverrides: set<string> := {Blackpink}

  /** The override set of the comments chart. */
  const CommentsOverrides: set<string> := {
    Blackpink,
    "Tiara Andini - Maafkan Aku #TerlanjurMencinta (Official Music Video)",
    "Ziva Magnolya - Tak Sanggup Melupa #TerlanjurMencinta (Official Music Video)",
    "Lyodra - Mengapa Kita #TerlanjurMencinta (Official Music Video)"
  }

  lemma BlackpinkLabel()
    ensures ShortenTitle(Blackpink, 20, ViewsLikesOverrides) == "BLACKPINK - 'How Yo...1"
    ensures ShortenTitle(Blackpink, 20, {}) == "BLACKPINK - 'How You..."
  {
  }

  /** replace_empty: an empty rank becomes "N/A"; any other rank is kept. */
  function ReplaceEmpty(x: string): (r: string)
    ensures r != ""
    ensures x != "" ==> r == x
    ensures x == "" ==> r == "N/A"
  {
    if x == "" then "N/A" else x
  }
}
