/** String operations of the dashboard: str.split on one separator character,
    str.join, the tag splitter of the word-cloud callback (tags_split) and the
    lexicographic order sort_values uses on channel titles. */
module Text {
  import opened Sorting

  /** x.split(c): the pieces between occurrences of c, empty pieces included. */
  function Split(x: string, c: char): (r: seq<string>)
    ensures |r| >= 1
    ensures forall i :: 0 <= i < |r| ==> c !in r[i]
  {
    if x == [] then [[]]
    else
      var rest := Split(x[1..], c);
      if x[0] == c then [[]] + rest
      else [[x[0]] + rest[0]] + rest[1..]
  }

  /** sep.join(pieces). */
  function Join(pieces: seq<string>, sep: string): string {
    if |pieces| == 0 then ""
    else if |pieces| == 1 then pieces[0]
    else pieces[0] + sep + Join(pieces[1..], sep)
  }

  /** x with every c replaced by d. */
  function Replace(x: string, c: char, d: char): (r: string)
    ensures |r| == |x|
    ensures forall i :: 0 <= i < |x| ==> r[i] == if x[i] == c then d else x[i]
  {
    if x == [] then [] else [if x[0] == c then d else x[0]] + Replace(x[1..], c, d)
  }

  /** Splitting on c and joining with d replaces every c by d. */
  lemma {:induction false} JoinSplit(x: string, c: char, d: char)
    ensures Join(Split(x, c), [d]) == Replace(x, c, d)
  {
    if x != [] {
      var rest := Split(x[1..], c);
      JoinSplit(x[1..], c, d);
      if x[0] == c {
        assert Split(x, c)[1..] == rest;
      } else {
        var r := Split(x, c);
        assert r[1..] == rest[1..];
        if |rest| > 1 {
          assert rest == [rest[0]] + rest[1..];
        }
      }
    }
  }

  lemma ReplaceSame(x: string, c: char)
    ensures Replace(x, c, c) == x
  {
  }

  /** Joining with c and splitting on c recovers pieces that do not contain c. */
  lemma {:induction false} SplitJoin(pieces: seq<string>, c: char)
    requires |pieces| >= 1
    requires forall i :: 0 <= i < |pieces| ==> c !in pieces[i]
    ensures Split(Join(pieces, [c]), c) == pieces
  {
    if |pieces| == 1 {
      SplitPiece(pieces[0], c, []);
      assert pieces[0] + [] == pieces[0];
      assert Split([], c) == [[]];
      assert [pieces[0]] == pieces;
    } else {
      SplitJoin(pieces[1..], c);
      SplitPiece(pieces[0], c, [c] + Join(pieces[1..], [c]));
      assert Split([c] + Join(pieces[1..], [c]), c) == [[]] + pieces[1..] by {
        assert ([c] + Join(pieces[1..], [c]))[1..] == Join(pieces[1..], [c]);
      }
      assert pieces[0] + [c] + Join(pieces[1..], [c]) == pieces[0] + ([c] + Join(pieces[1..], [c]));
      assert pieces[0] + [] == pieces[0];
      assert [pieces[0]] + pieces[1..] == pieces;
    }
  }

  /** A piece without c in front of y merges with the first piece of y. */
  lemma {:induction false} SplitPiece(p: string, c: char, y: string)
    requires c !in p
    ensures Split(p + y, c) == [p + Split(y, c)[0]] + Split(y, c)[1..]
  {
    if p != [] {
      SplitPiece(p[1..], c, y);
      var S, rest := Split(y, c), Split(p[1..] + y, c);
      assert (p + y)[1..] == p[1..] + y;
      assert (p + y)[0] == p[0] != c;
      assert rest[0] == p[1..] + S[0] && rest[1..] == S[1..];
      assert [p[0]] + (p[1..] + S[0]) == p + S[0];
    } else {
      var s := Split(y, c);
      assert p + y == y && p + s[0] == s[0];
      assert [s[0]] + s[1..] == s;
    }
  }

  /** tags_split: the placeholder "[none]" stands for no tags; otherwise the
      tags are separated by '|'. */
  function TagsSplit(x: string): (r: seq<string>)
    ensures x == "[none]" ==> r == []
    ensures x != "[none]" ==> |r| >= 1 && forall i :: 0 <= i < |r| ==> '|' !in r[i]
  {
    if x == "[none]" then [] else Split(x, '|')
  }

  /** The word-cloud text of one row's tags: the tags joined by spaces. */
  function TagText(x: string): (r: string)
    ensures x == "[none]" ==> r == ""
    ensures x != "[none]" ==> r == Replace(x, '|', ' ')
  {
    if x == "[none]" then ""
    else
      JoinSplit(x, '|', ' ');
      Join(TagsSplit(x), " ")
  }

  /** The text fed to one word cloud: the rows' texts joined by commas. */
  function CloudText(texts: seq<string>): (r: string)
    ensures |texts| >= 1 && (forall i :: 0 <= i < |texts| ==> ',' !in texts[i]) ==>
      Split(r, ',') == texts
  {
    if |texts| >= 1 && (forall i :: 0 <= i < |texts| ==> ',' !in texts[i]) then
      SplitJoin(texts, ',');
      Join(texts, ",")
    else Join(texts, ",")
  }

  /** Python's string comparison: lexicographic by code point. */
  function StrLe(a: string, b: string): bool {
    if a == [] then true
    else if b == [] then false
    else if a[0] != b[0] then a[0] < b[0]
    else StrLe(a[1..], b[1..])
  }

  lemma {:induction false} StrLeTotal(a: string, b: string)
    ensures StrLe(a, b) || StrLe(b, a)
  {
    if a != [] && b != [] && a[0] == b[0] {
      StrLeTotal(a[1..], b[1..]);
    }
  }

  lemma {:induction false} StrLeTrans(a: string, b: string, c: string)
    requires StrLe(a, b) && StrLe(b, c)
    ensures StrLe(a, c)
  {
    if a != [] && b != [] && c != [] && a[0] == b[0] == c[0] {
      StrLeTrans(a[1..], b[1..], c[1..]);
    }
  }

  lemma {:induction false} StrLeAntisymmetric(a: string, b: string)
    requires StrLe(a, b) && StrLe(b, a)
    ensures a == b
  {
    if a != [] && b != [] {
      StrLeAntisymmetric(a[1..], b[1..]);
      assert a == [a[0]] + a[1..] && b == [b[0]] + b[1..];
    }
  }

  lemma StrLeTotalPreorder()
    ensures TotalPreorder(StrLe)
  {
    forall a, b ensures StrLe(a, b) || StrLe(b, a) {
      StrLeTotal(a, b);
    }
    forall a, b, c | StrLe(a, b) && StrLe(b, c) ensures StrLe(a, c) {
      StrLeTrans(a, b, c);
    }
  }
}
