/**
 * Averages over the stored entries of a row-of-maps matrix: sum over count,
 * for the whole matrix or for one row or column, failing on a zero count.
 */
module BasicStatistic {
  import opened Common
  import opened Literal
  import opened SparseRows

  /** Avarage(data): Reduce(+) over NumElements(), or a divide-by-zero failure. */
  ghost function Average(m: Mat): (r: Result<real>)
    ensures r.Failure? <==> m.NumElements() == 0
    ensures r.Failure? ==> r.error == DivideByZero
  {
    var n := m.NumElements();
    var sum := m.Reduce(Add);
    if n == 0 then Failure(DivideByZero) else Success(sum / n as real)
  }

  /**
   * Avarage(data, i, axis): for ROW, RowReduce(i, +) over NumElementsLine(i),
   * whose checked row access fails first for a missing row; for COL,
   * ColReduce(i, +) over NumElementsCol(i). A zero count is a divide-by-zero failure.
   */
  ghost function LineAverage(m: Mat, i: nat, axis: Axis): (r: Result<real>)
    ensures r.Failure? && r.error == OutOfRange ==> axis == ROW && i >= |m.rows|
  {
    if axis == ROW then
      match m.NumElementsLine(i)
      case Failure(e) => Failure(e)
      case Success(n) =>
        if n == 0 then Failure(DivideByZero) else Success(m.RowReduce(i, Add) / n as real)
    else
      var n := m.NumElementsCol(i);
      if n == 0 then Failure(DivideByZero) else Success(m.ColReduce(i, Add) / n as real)
  }

  /** The whole-matrix average times the number of stored entries is the sum of all values. */
  lemma AverageIsMean(m: Mat)
    requires m.Valid()
    ensures m.NumElements() > 0 ==>
      Average(m).Success? && Average(m).value * m.NumElements() as real == m.DenseSum()
  {
    ReduceAddIsSum(m);
  }

  /** A row average is the row's sum over its stored entries; a missing row is out of range. */
  lemma RowAverageIsMean(m: Mat, i: nat)
    requires m.Valid()
    ensures i >= m.sizeRows ==> LineAverage(m, i, ROW) == Failure(OutOfRange)
    ensures i < m.sizeRows && |m.rows[i]| == 0 ==> LineAverage(m, i, ROW) == Failure(DivideByZero)
    ensures i < m.sizeRows && |m.rows[i]| > 0 ==>
      LineAverage(m, i, ROW).Success? &&
      LineAverage(m, i, ROW).value * |m.rows[i]| as real == DenseRowSum(m.rows[i], m.sizeCols)
  {
    if i < m.sizeRows {
      RowReduceAddIsSum(m, i);
    }
  }

  /** A column average is the column's sum over the number of rows storing it. */
  lemma ColAverageIsMean(m: Mat, i: nat)
    ensures m.NumElementsCol(i) == 0 <==> LineAverage(m, i, COL) == Failure(DivideByZero)
    ensures m.NumElementsCol(i) > 0 ==>
      LineAverage(m, i, COL).Success? &&
      LineAverage(m, i, COL).value * m.NumElementsCol(i) as real == ColSum(m.rows, i)
  {
    ColReduceAddIsSum(m.rows, i);
  }

  // ---------------------------------------------------------------------------
  // Averages of a list-constructed matrix, in terms of the literal

  lemma {:induction false} DenseRowSumBeyond(row: Row, n: nat, cols: nat)
    requires n <= cols
    requires forall c :: c in row ==> c < n
    ensures DenseRowSum(row, cols) == DenseRowSum(row, n)
    decreases cols
  {
    if cols > n {
      DenseRowSumBeyond(row, n, cols - 1);
    }
  }

  /** The dense sum of an encoded row is the sum of the literal row. */
  lemma {:induction false} DenseRowSumEncode(row: seq<real>, cols: nat)
    requires |row| <= cols
    ensures DenseRowSum(EncodeRow(row), cols) == SeqSum(row)
    decreases |row|
  {
    EncodeRowEntries(row);
    DenseRowSumBeyond(EncodeRow(row), |row|, cols);
    if |row| > 0 {
      var p := row[..|row| - 1];
      EncodeRowEntries(p);
      DenseRowSumEncode(p, |p|);
      DenseRowSumAgree(EncodeRow(p), EncodeRow(row), |p|);
    }
  }

  /** Column c of a literal, zero where a row is too short. */
  function Column(lit: seq<seq<real>>, c: nat): seq<real> {
    seq(|lit|, r requires 0 <= r < |lit| => if c < |lit[r]| then lit[r][c] else 0.0)
  }

  /** Column sums and counts of the list-constructed matrix are those of the literal column. */
  lemma {:induction false} ColumnOfLiteral(lit: seq<seq<real>>, c: nat)
    ensures ColSum(FromLiteral(lit).rows, c) == SeqSum(Column(lit, c))
    ensures FromLiteral(lit).NumElementsCol(c) == NonZeroCount(Column(lit, c))
    decreases |lit|
  {
    if |lit| > 0 {
      var p := lit[..|lit| - 1];
      ColumnOfLiteral(p, c);
      assert FromLiteral(lit).rows[..|lit| - 1] == FromLiteral(p).rows;
      assert Column(lit, c)[..|lit| - 1] == Column(p, c);
      EncodeRowEntries(lit[|lit| - 1]);
    }
  }

  lemma {:induction false} DenseSumOfLiteral(lit: seq<seq<real>>, cols: nat)
    requires forall r :: 0 <= r < |lit| ==> |lit[r]| <= cols
    ensures DenseRowsSum(FromLiteral(lit).rows, cols) == LiteralSum(lit)
    decreases |lit|
  {
    if |lit| > 0 {
      var p := lit[..|lit| - 1];
      DenseSumOfLiteral(p, cols);
      assert FromLiteral(lit).rows[..|lit| - 1] == FromLiteral(p).rows;
      DenseRowSumEncode(lit[|lit| - 1], cols);
    }
  }

  /** Sum of every literal. */
  function LiteralSum(lit: seq<seq<real>>): real
    decreases |lit|
  {
    if |lit| == 0 then 0.0 else LiteralSum(lit[..|lit| - 1]) + SeqSum(lit[|lit| - 1])
  }

  /** On a list-constructed matrix the average is the sum of the literals over the number of non-zero literals. */
  lemma AverageOfLiteral(lit: seq<seq<real>>)
    requires LiteralNonZeros(lit) > 0
    ensures Average(FromLiteral(lit)) == Success(LiteralSum(lit) / LiteralNonZeros(lit) as real)
  {
    var m := FromLiteral(lit);
    FromLiteralStoresNonZeros(lit);
    NumElementsOfLiteral(lit);
    ReduceAddIsSum(m);
    DenseSumOfLiteral(lit, MaxLen(lit));
    assert m.Reduce(Add) == LiteralSum(lit);
  }

  /** A row average of a list-constructed matrix is the literal row's sum over its non-zeros. */
  lemma RowAverageOfLiteral(lit: seq<seq<real>>, i: nat)
    requires i < |lit| && NonZeroCount(lit[i]) > 0
    ensures LineAverage(FromLiteral(lit), i, ROW) == Success(SeqSum(lit[i]) / NonZeroCount(lit[i]) as real)
  {
    var m := FromLiteral(lit);
    FromLiteralStoresNonZeros(lit);
    RowReduceAddIsSum(m, i);
    EncodeRowSize(lit[i]);
    DenseRowSumEncode(lit[i], MaxLen(lit));
    assert m.rows[i] == EncodeRow(lit[i]);
    assert m.RowReduce(i, Add) == SeqSum(lit[i]);
    assert m.NumElementsLine(i) == Success(NonZeroCount(lit[i]));
  }

  /** A column average of a list-constructed matrix is the literal column's sum over its non-zeros. */
  lemma ColAverageOfLiteral(lit: seq<seq<real>>, i: nat)
    requires NonZeroCount(Column(lit, i)) > 0
    ensures LineAverage(FromLiteral(lit), i, COL) == Success(SeqSum(Column(lit, i)) / NonZeroCount(Column(lit, i)) as real)
  {
    ColReduceAddIsSum(FromLiteral(lit).rows, i);
    ColumnOfLiteral(lit, i);
  }
}

module BasicStatisticExample {
  import opened Common
  import opened Literal
  import opened SparseRows
  import opened BasicStatistic

  /** The 6-by-9 rating matrix of the statistics test. */
  function TestLiteral(): seq<seq<real>> {
    [[0.44, 0.8, 0.0, 0.0, 0.0, 0.0, 0.0, 0.0, 0.0],
     [0.0, 0.8, 1.4, 0.0, 0.0, 0.0, 0.0, 0.0, 0.0],
     [0.22, 0.0, 0.0, 0.7, 0.4, 0.0, 0.0, 0.0, 0.0],
     [0.22, 0.0, 0.0, 0.0, 0.0, 0.7, 0.7, 0.7, 0.0],
     [0.0, 0.0, 0.0, 0.0, 0.4, 0.0, 0.0, 0.0, 0.7],
     [0.22, 0.0, 0.0, 0.0, 0.4, 0.0, 0.0, 0.0, 0.0]]
  }

  /** Index-recursive forms of SeqSum and NonZeroCount (no slices), for evaluating on literals. */
  function SumTo(s: seq<real>, k: nat): real
    requires k <= |s|
  {
    if k == 0 then 0.0 else SumTo(s, k - 1) + s[k - 1]
  }

  function CountTo(s: seq<real>, k: nat): nat
    requires k <= |s|
  {
    if k == 0 then 0 else CountTo(s, k - 1) + (if s[k - 1] != 0.0 then 1 else 0)
  }

  lemma {:induction false} SumToIsSeqSum(s: seq<real>, k: nat)
    requires k <= |s|
    ensures SumTo(s, k) == SeqSum(s[..k]) && CountTo(s, k) == NonZeroCount(s[..k])
    decreases k
  {
    if k > 0 {
      SumToIsSeqSum(s, k - 1);
      assert s[..k][..k - 1] == s[..k - 1];
    }
  }

  lemma SumsOf(s: seq<real>)
    ensures SeqSum(s) == SumTo(s, |s|) && NonZeroCount(s) == CountTo(s, |s|)
  {
    SumToIsSeqSum(s, |s|);
    assert s[..|s|] == s;
  }

  /** Row 2 averages to (0.22 + 0.7 + 0.4) / 3 and column 0 to 1.1 / 4. */
  lemma TestLineAverages()
    ensures LineAverage(FromLiteral(TestLiteral()), 2, ROW) == Success(0.44)
    ensures LineAverage(FromLiteral(TestLiteral()), 0, COL) == Success(0.275)
  {
    var lit := TestLiteral();
    assert lit[2] == [0.22, 0.0, 0.0, 0.7, 0.4, 0.0, 0.0, 0.0, 0.0];
    SumsOf([0.22, 0.0, 0.0, 0.7, 0.4, 0.0, 0.0, 0.0, 0.0]);
    assert SumTo([0.22, 0.0, 0.0, 0.7, 0.4, 0.0, 0.0, 0.0, 0.0], 9) == 1.32;
    assert CountTo([0.22, 0.0, 0.0, 0.7, 0.4, 0.0, 0.0, 0.0, 0.0], 9) == 3;
    assert SeqSum(lit[2]) == 1.32 && NonZeroCount(lit[2]) == 3;
    RowAverageOfLiteral(lit, 2);
    assert Column(lit, 0) == [0.44, 0.0, 0.22, 0.22, 0.0, 0.22];
    SumsOf([0.44, 0.0, 0.22, 0.22, 0.0, 0.22]);
    assert SeqSum(Column(lit, 0)) == 1.1 && NonZeroCount(Column(lit, 0)) == 4;
    ColAverageOfLiteral(lit, 0);
  }
}
