/** groupby on two columns, count, then pivot and zero-fill: a matrix whose
    rows and columns are given label lists and whose cell (r, c) is the number
    of records carrying the pair (r, c), zero for a pair that never occurs. */
module Pivot {
  import opened Sequences

  function CellCount<R(==), C(==)>(pairs: seq<(R, C)>): ((R, C)) -> nat {
    p => multiset(pairs)[p]
  }

  /** The pairs of one matrix row, in column order. */
  function RowPairs<R, C>(r: R, cols: seq<C>): seq<(R, C)> {
    Map(cols, (c: C) => (r, c))
  }

  /** The pairs of one matrix column, in row order. */
  function ColumnPairs<R, C>(rows: seq<R>, c: C): seq<(R, C)> {
    Map(rows, (r: R) => (r, c))
  }

  /** All pairs of the matrix, row by row. */
  function Product<R, C>(rows: seq<R>, cols: seq<C>): seq<(R, C)> {
    if rows == [] then [] else RowPairs(rows[0], cols) + Product(rows[1..], cols)
  }

  /** The pivoted, zero-filled count matrix. */
  function Grid<R(==), C(==)>(pairs: seq<(R, C)>, rows: seq<R>, cols: seq<C>): (g: seq<seq<nat>>)
    ensures |g| == |rows|
    ensures forall i :: 0 <= i < |rows| ==> |g[i]| == |cols|
    ensures forall i, j :: 0 <= i < |rows| && 0 <= j < |cols| ==>
      g[i][j] == multiset(pairs)[(rows[i], cols[j])]
  {
    Map(rows, (r: R) => Map(RowPairs(r, cols), CellCount(pairs)))
  }

  function Sum(s: seq<nat>): nat {
    if s == [] then 0 else s[0] + Sum(s[1..])
  }

  function Total(g: seq<seq<nat>>): nat {
    if g == [] then 0 else Sum(g[0]) + Total(g[1..])
  }

  /** The sum of column j (rows too short to have one contribute nothing). */
  function ColumnSum(g: seq<seq<nat>>, j: nat): nat {
    if g == [] then 0 else (if j < |g[0]| then g[0][j] else 0) + ColumnSum(g[1..], j)
  }

  lemma {:induction false} SumOccurrences<R, C>(pairs: seq<(R, C)>, L: seq<(R, C)>)
    ensures Sum(Map(L, CellCount(pairs))) == Occurrences(L, pairs)
  {
    if L != [] {
      var m := Map(L, CellCount(pairs));
      assert m[1..] == Map(L[1..], CellCount(pairs));
      SumOccurrences(pairs, L[1..]);
    }
  }

  lemma {:induction false} TotalOccurrences<R, C>(pairs: seq<(R, C)>, rows: seq<R>, cols: seq<C>)
    ensures Total(Grid(pairs, rows, cols)) == Occurrences(Product(rows, cols), pairs)
  {
    if rows != [] {
      var g := Grid(pairs, rows, cols);
      assert g[1..] == Grid(pairs, rows[1..], cols);
      TotalOccurrences(pairs, rows[1..], cols);
      SumOccurrences(pairs, RowPairs(rows[0], cols));
      OccurrencesAppend(RowPairs(rows[0], cols), Product(rows[1..], cols), pairs);
    }
  }

  lemma {:induction false} ColumnOccurrences<R, C>(pairs: seq<(R, C)>, rows: seq<R>, cols: seq<C>, j: nat)
    requires j < |cols|
    ensures ColumnSum(Grid(pairs, rows, cols), j) == Occurrences(ColumnPairs(rows, cols[j]), pairs)
  {
    if rows != [] {
      var g := Grid(pairs, rows, cols);
      assert g[1..] == Grid(pairs, rows[1..], cols);
      ColumnOccurrences(pairs, rows[1..], cols, j);
      assert ColumnPairs(rows, cols[j])[1..] == ColumnPairs(rows[1..], cols[j]);
    }
  }

  lemma {:induction false} ProductMembers<R, C>(rows: seq<R>, cols: seq<C>, p: (R, C))
    ensures p in Product(rows, cols) <==> p.0 in rows && p.1 in cols
  {
    if rows != [] {
      ProductMembers(rows[1..], cols, p);
      if p.0 == rows[0] && p.1 in cols {
        var j :| 0 <= j < |cols| && cols[j] == p.1;
        assert RowPairs(rows[0], cols)[j] == p;
      }
      assert p.0 in rows <==> p.0 == rows[0] || p.0 in rows[1..];
    }
  }

  lemma {:induction false} ProductDistinct<R, C>(rows: seq<R>, cols: seq<C>)
    requires Distinct(rows) && Distinct(cols)
    ensures Distinct(Product(rows, cols))
  {
    if rows != [] {
      ProductDistinct(rows[1..], cols);
      var a := RowPairs(rows[0], cols);
      forall p | p in a ensures p !in Product(rows[1..], cols) {
        ProductMembers(rows[1..], cols, p);
        assert rows[0] !in rows[1..];
      }
      DistinctAppend(a, Product(rows[1..], cols));
    }
  }

  function InGrid<R(==), C(==)>(rows: seq<R>, cols: seq<C>): ((R, C)) -> bool {
    (p: (R, C)) => p.0 in rows && p.1 in cols
  }

  function InColumn<R(==), C(==)>(rows: seq<R>, c: C): ((R, C)) -> bool {
    (p: (R, C)) => p.0 in rows && p.1 == c
  }

  function InRow<R(==), C(==)>(r: R, cols: seq<C>): ((R, C)) -> bool {
    (p: (R, C)) => p.0 == r && p.1 in cols
  }

  /** Over distinct row and column labels the matrix total is the number of
      pairs whose row and column labels both appear: nothing is lost or counted twice. */
  lemma GridTotal<R(!new), C(!new)>(pairs: seq<(R, C)>, rows: seq<R>, cols: seq<C>)
    requires Distinct(rows) && Distinct(cols)
    ensures Total(Grid(pairs, rows, cols)) == |Filter(pairs, InGrid(rows, cols))|
  {
    TotalOccurrences(pairs, rows, cols);
    ProductDistinct(rows, cols);
    OccurrencesCount(Product(rows, cols), pairs);
    forall p | p in pairs ensures Among(Product(rows, cols))(p) == InGrid(rows, cols)(p) {
      ProductMembers(rows, cols, p);
    }
    FilterExt(pairs, Among(Product(rows, cols)), InGrid(rows, cols));
  }

  /** Over distinct row labels column j sums to the pairs with that column label. */
  lemma GridColumnTotal<R(!new), C(!new)>(pairs: seq<(R, C)>, rows: seq<R>, cols: seq<C>, j: nat)
    requires Distinct(rows) && j < |cols|
    ensures ColumnSum(Grid(pairs, rows, cols), j) == |Filter(pairs, InColumn(rows, cols[j]))|
  {
    var L := ColumnPairs(rows, cols[j]);
    ColumnOccurrences(pairs, rows, cols, j);
    assert Distinct(L) by {
      forall a, b | 0 <= a < b < |L| ensures L[a] != L[b] {
        assert L[a].0 == rows[a] && L[b].0 == rows[b];
      }
    }
    OccurrencesCount(L, pairs);
    forall p | p in pairs ensures Among(L)(p) == InColumn(rows, cols[j])(p) {
      if p.0 in rows && p.1 == cols[j] {
        var i :| 0 <= i < |rows| && rows[i] == p.0;
        assert L[i] == p;
      }
    }
    FilterExt(pairs, Among(L), InColumn(rows, cols[j]));
  }

  /** Over distinct column labels row i sums to the pairs with that row label. */
  lemma GridRowTotal<R(!new), C(!new)>(pairs: seq<(R, C)>, rows: seq<R>, cols: seq<C>, i: nat)
    requires Distinct(cols) && i < |rows|
    ensures Sum(Grid(pairs, rows, cols)[i]) == |Filter(pairs, InRow(rows[i], cols))|
  {
    var L := RowPairs(rows[i], cols);
    assert Grid(pairs, rows, cols)[i] == Map(L, CellCount(pairs));
    SumOccurrences(pairs, L);
    assert Distinct(L) by {
      forall a, b | 0 <= a < b < |L| ensures L[a] != L[b] {
        assert L[a].1 == cols[a] && L[b].1 == cols[b];
      }
    }
    OccurrencesCount(L, pairs);
    forall p | p in pairs ensures Among(L)(p) == InRow(rows[i], cols)(p) {
      if p.0 == rows[i] && p.1 in cols {
        var j :| 0 <= j < |cols| && cols[j] == p.1;
        assert L[j] == p;
      }
    }
    FilterExt(pairs, Among(L), InRow(rows[i], cols));
  }
}
