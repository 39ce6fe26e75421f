/** The weekly channel view-gain chart: one line per channel title, taken from
    the channel's last row, over its daily view gains without the first nine
    days and the last one, the channels in ascending title order, and a
    dropdown whose i-th button shows only the i-th line. */
module ViewGains {
  import opened Records
  import opened Sequences
  import opened Sorting
  import opened Text

  /** iloc[:, 9:-1] on the expanded gains: the days from the tenth to the
      second-to-last. */
  function DropEnds(g: seq<ViewGain>): (r: seq<ViewGain>)
    ensures |r| == Max(0, |g| - 10)
    ensures forall k :: 0 <= k < |r| ==> r[k] == g[k + 9]
  {
    if |g| >= 10 then g[9..|g| - 1] else []
  }

  /** One line of the chart. */
  datatype Series = Series(channel: string, points: seq<ViewGain>)

  function Channel(s: Series): string { s.channel }

  function ToSeries(x: Row): Series { Series(x.channelTitle, DropEnds(x.pastViewGains)) }

  function TitleLe(a: Row, b: Row): bool { StrLe(a.channelTitle, b.channelTitle) }

  lemma TitleLeTotal()
    ensures TotalPreorder(TitleLe)
  {
    forall a: Row, b: Row ensures TitleLe(a, b) || TitleLe(b, a) {
      StrLeTotal(a.channelTitle, b.channelTitle);
    }
    forall a: Row, b: Row, c: Row | TitleLe(a, b) && TitleLe(b, c) ensures TitleLe(a, c) {
      StrLeTrans(a.channelTitle, b.channelTitle, c.channelTitle);
    }
  }

  /** drop_duplicates('channelTitle', keep='last') then sort_values('channelTitle'):
      the last row of each channel title, in ascending title order. */
  function LastPerChannel(t: seq<Row>): (r: seq<Row>)
    ensures SortedBy(r, TitleLe)
    ensures DistinctKeys(r, ChannelTitle)
    ensures KeySet(r, ChannelTitle) == KeySet(t, ChannelTitle)
    ensures multiset(r) == multiset(KeepLast(t, ChannelTitle)) <= multiset(t)
  {
    var u := KeepLast(t, ChannelTitle);
    var r := SortBy(u, TitleLe);
    TitleLeTotal();
    SortBySorted(u, TitleLe);
    DistinctKeysPermutation(u, r, ChannelTitle);
    KeySetPermutation(u, r, ChannelTitle);
    r
  }

  /** The lines of the chart. The slider position does not enter: the chart
      always covers the whole table. */
  function ViewGainSeries(t: seq<Row>): (r: seq<Series>)
    ensures forall i, j :: 0 <= i < j < |r| ==>
      StrLe(r[i].channel, r[j].channel) && r[i].channel != r[j].channel
    ensures forall c :: c in Map(r, Channel) <==> c in Map(t, ChannelTitle)
    ensures forall i, k :: 0 <= i < |r| && LastRowOf(t, k, r[i].channel) ==>
      r[i].points == DropEnds(t[k].pastViewGains)
  {
    var s := LastPerChannel(t);
    var r := Map(s, ToSeries);
    SeriesChannels(t, s);
    forall i, j | 0 <= i < j < |r| ensures StrLe(r[i].channel, r[j].channel) && r[i].channel != r[j].channel {
      assert TitleLe(s[i], s[j]);
    }
    forall i, k | 0 <= i < |r| && LastRowOf(t, k, r[i].channel)
      ensures r[i].points == DropEnds(t[k].pastViewGains)
    {
      assert s[i] in multiset(KeepLast(t, ChannelTitle));
      SeriesFromLast(t, s[i], k);
    }
    r
  }

  lemma SeriesChannels(t: seq<Row>, s: seq<Row>)
    requires s == LastPerChannel(t)
    ensures forall c :: c in Map(Map(s, ToSeries), Channel) <==> c in Map(t, ChannelTitle)
  {
    var r := Map(s, ToSeries);
    assert Map(r, Channel) == Map(s, ChannelTitle);
    forall c ensures c in Map(s, ChannelTitle) <==> c in Map(t, ChannelTitle) {
      MapKeySet(t, ChannelTitle, c);
      MapKeySet(s, ChannelTitle, c);
    }
  }

  /** Row k of t is the last row of channel c. */
  ghost predicate LastRowOf(t: seq<Row>, k: int, c: string) {
    0 <= k < |t| && t[k].channelTitle == c && forall l :: k < l < |t| ==> t[l].channelTitle != c
  }

  lemma SeriesFromLast(t: seq<Row>, x: Row, k: int)
    requires x in KeepLast(t, ChannelTitle) && LastRowOf(t, k, x.channelTitle)
    ensures x == t[k]
  {
    var k0 := KeepLastIsLast(t, ChannelTitle, x);
  }

  /** One entry of the dropdown: its label, the visibility of every line, and
      the title it sets. */
  datatype Button = Button(text: string, visible: seq<bool>, title: string)

  /** The dropdown, built one button per channel: the i-th button shows the
      i-th line and hides all the others. */
  method DropdownButtons(channels: seq<string>) returns (buttons: seq<Button>)
    ensures |buttons| == |channels|
    ensures forall i :: 0 <= i < |channels| ==>
      buttons[i].text == channels[i] && buttons[i].title == channels[i] &&
      |buttons[i].visible| == |channels|
    ensures forall i, j :: 0 <= i < |channels| && 0 <= j < |channels| ==>
      buttons[i].visible[j] == (i == j)
  {
    buttons := [];
    for ind := 0 to |channels|
      invariant |buttons| == ind
      invariant forall i :: 0 <= i < ind ==>
        buttons[i].text == channels[i] && buttons[i].title == channels[i] &&
        |buttons[i].visible| == |channels|
      invariant forall i, j :: 0 <= i < ind && 0 <= j < |channels| ==>
        buttons[i].visible[j] == (i == j)
    {
      var visible := seq(|channels|, _ => false);
      visible := visible[ind := true];
      buttons := buttons + [Button(channels[ind], visible, channels[ind])];
    }
  }
}
