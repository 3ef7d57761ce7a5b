/**
 * The loops that MatCsr and DataCsrMap share word for word: the list
 * constructor's scan, the two counting loops and the fold over one
 * unordered row. Each is proved against the SparseRows function it computes.
 */
module SparseLoops {
  import opened Literal
  import opened SparseRows

  /** The inner scan of the list constructor: insert every non-zero at its column position. */
  method EncodeRowLoop(row: seq<real>) returns (m: Row)
    ensures m == EncodeRow(row)
  {
    m := map[];
    var icol := 0;
    while icol < |row|
      invariant 0 <= icol <= |row|
      invariant m == EncodeRow(row[..icol])
    {
      assert row[..icol + 1][..icol] == row[..icol];
      if row[icol] != 0.0 {
        m := m[icol := row[icol]];
      }
      icol := icol + 1;
    }
    assert row[..|row|] == row;
  }

  /** The list constructor's outer scan: one map per literal row, and the longest row length. */
  method EncodeLiteral(lit: seq<seq<real>>) returns (rows: seq<Row>, maxCol: nat)
    ensures Mat(rows, |lit|, maxCol) == FromLiteral(lit)
  {
    rows := [];
    maxCol := 0;
    var r := 0;
    while r < |lit|
      invariant 0 <= r <= |lit|
      invariant |rows| == r
      invariant rows == FromLiteral(lit).rows[..r]
      invariant maxCol == MaxLen(lit[..r])
    {
      MaxLenStep(lit, r);
      LiteralRowsStep(lit, r);
      var rowSize := |lit[r]|;
      if maxCol < rowSize {
        maxCol := rowSize;
      }
      var m := EncodeRowLoop(lit[r]);
      rows := rows + [m];
      r := r + 1;
    }
    assert lit[..|lit|] == lit;
    assert FromLiteral(lit).rows[..|lit|] == FromLiteral(lit).rows;
  }

  /** The list constructor's rows grow by one encoded row at a time. */
  lemma LiteralRowsStep(lit: seq<seq<real>>, r: nat)
    requires r < |lit|
    ensures FromLiteral(lit).rows[..r + 1] == FromLiteral(lit).rows[..r] + [EncodeRow(lit[r])]
  {
  }

  /** NumElements(): add up the row-map sizes. */
  method CountEntries(rows: seq<Row>) returns (n: nat)
    ensures n == SizesSum(rows)
  {
    n := 0;
    var r := 0;
    while r < |rows|
      invariant 0 <= r <= |rows|
      invariant n == SizesSum(rows[..r])
    {
      assert rows[..r + 1][..r] == rows[..r];
      n := n + |rows[r]|;
      r := r + 1;
    }
    assert rows[..|rows|] == rows;
  }

  /** NumElementsCol(i): count the rows whose map finds key i. */
  method CountColumn(rows: seq<Row>, i: nat) returns (n: nat)
    ensures n == ColCount(rows, i)
  {
    n := 0;
    var r := 0;
    while r < |rows|
      invariant 0 <= r <= |rows|
      invariant n == ColCount(rows[..r], i)
    {
      assert rows[..r + 1][..r] == rows[..r];
      if i in rows[r] {
        n := n + 1;
      }
      r := r + 1;
    }
    assert rows[..|rows|] == rows;
  }

  /**
   * The inner loop of Reduce and RowReduce: ret := fn(value, ret) for every
   * entry of an unordered row, in whatever order the keys come out.
   */
  method FoldRowEntries(row: Row, fn: (real, real) -> real, acc: real) returns (ret: real)
    requires CommAssoc(fn)
    ensures ret == FoldMap(fn, row, acc)
  {
    ret := acc;
    var todo := row.Keys;
    ghost var done: Row := map[];
    while todo != {}
      invariant todo <= row.Keys
      invariant done.Keys == row.Keys - todo
      invariant forall c :: c in done ==> done[c] == row[c]
      invariant ret == FoldMap(fn, done, acc)
      decreases todo
    {
      var c :| c in todo;
      FoldMapRemove(fn, done[c := row[c]], c, acc);
      assert done[c := row[c]] - {c} == done;
      done := done[c := row[c]];
      ret := fn(row[c], ret);
      todo := todo - {c};
    }
    assert done == row;
  }
}
