/**
 * The abstract state of the map-of-maps sparse matrix (MatCsr and DataCsrMap):
 * one map per row from column index to stored value, plus the row and column
 * counts fixed at construction. Every pure operation of the two classes is a
 * function here; the classes' loops are proved against these functions.
 */
module SparseRows {
  import opened Common
  import opened Literal

  /** One sparse row: column index -> stored value. */
  type Row = map<nat, real>

  /** The stored entries of one literal row: every non-zero literal, keyed by its column position. */
  function EncodeRow(row: seq<real>): Row
    decreases |row|
  {
    if |row| == 0 then map[]
    else
      var m := EncodeRow(row[..|row| - 1]);
      var v := row[|row| - 1];
      if v != 0.0 then m[|row| - 1 := v] else m
  }

  lemma {:induction false} EncodeRowEntries(row: seq<real>)
    ensures forall c: nat :: c in EncodeRow(row) <==> c < |row| && row[c] != 0.0
    ensures forall c: nat :: c in EncodeRow(row) ==> EncodeRow(row)[c] == row[c]
    decreases |row|
  {
    if |row| > 0 {
      var p := row[..|row| - 1];
      EncodeRowEntries(p);
      assert forall c :: 0 <= c < |p| ==> p[c] == row[c];
    }
  }

  /** A row stores exactly as many entries as the literal has non-zeros. */
  lemma {:induction false} EncodeRowSize(row: seq<real>)
    ensures |EncodeRow(row)| == NonZeroCount(row)
    decreases |row|
  {
    if |row| > 0 {
      var p := row[..|row| - 1];
      EncodeRowSize(p);
      EncodeRowEntries(p);
    }
  }

  /** The matrix state: rows, SizeRows and SizeCols. */
  datatype Mat = Mat(rows: seq<Row>, sizeRows: nat, sizeCols: nat)
  {
    /** The invariant every constructor establishes: one map per row, every key below SizeCols. */
    ghost predicate Valid() {
      && |rows| == sizeRows
      && forall r, c :: 0 <= r < |rows| && c in rows[r] ==> c < sizeCols
    }

    /**
     * operator()(x, y): the stored value, or zero when the key is absent.
     * x > SizeRows and y > SizeCols are rejected by the bound checks; x == SizeRows
     * is rejected by the checked row access; y == SizeCols gets through and reads zero.
     */
    function Element(x: nat, y: nat): (r: Result<real>)
      ensures Valid() ==> (r.Success? <==> x < sizeRows && y <= sizeCols)
      ensures r.Failure? ==> r.error == OutOfRange
      ensures Valid() && y == sizeCols && r.Success? ==> r.value == 0.0
    {
      if x > sizeRows then Failure(OutOfRange)
      else if y > sizeCols then Failure(OutOfRange)
      else if x >= |rows| then Failure(OutOfRange)
      else if y in rows[x] then Success(rows[x][y])
      else Success(0.0)
    }

    /** NumElements(): number of stored entries. */
    function NumElements(): nat {
      SizesSum(rows)
    }

    /** NumElementsLine(i): number of stored entries of row i; the checked row access fails past the end. */
    function NumElementsLine(i: nat): (r: Result<nat>)
      ensures r.Success? <==> i < |rows|
      ensures r.Failure? ==> r.error == OutOfRange
    {
      if i < |rows| then Success(|rows[i]|) else Failure(OutOfRange)
    }

    /** NumElementsCol(i): number of rows that store an entry in column i. */
    function NumElementsCol(i: nat): nat {
      ColCount(rows, i)
    }

    /** NumElementsLines(): one count per row. */
    function NumElementsLines(): (r: seq<nat>)
      ensures |r| == |rows|
      ensures forall k :: 0 <= k < |rows| ==> NumElementsLine(k) == Success(r[k])
    {
      seq(|rows|, k requires 0 <= k < |rows| => |rows[k]|)
    }

    /** NumElementsCols(): one count per column below SizeCols. */
    function NumElementsCols(): (r: seq<nat>)
      ensures |r| == sizeCols
      ensures forall c :: 0 <= c < sizeCols ==> r[c] == NumElementsCol(c)
    {
      seq(sizeCols, c requires 0 <= c < sizeCols => ColCount(rows, c))
    }

    /** NumElements(axis): per-row counts for ROW, per-column counts for COL. */
    function NumElementsAxis(axis: Axis): seq<nat> {
      if axis == ROW then NumElementsLines() else NumElementsCols()
    }

    /** Reduce(fn): fn(value, acc) folded over every stored value, starting from 0. */
    ghost function Reduce(fn: (real, real) -> real): real {
      FoldRows(fn, rows, 0.0)
    }

    /** RowReduce(i, fn): fn folded over the stored values of row i, starting from 0. */
    ghost function RowReduce(i: nat, fn: (real, real) -> real): real
      requires i < |rows|
    {
      FoldMap(fn, rows[i], 0.0)
    }

    /** ColReduce(i, fn): fn folded over the entries of column i, row by row, starting from 0. */
    function ColReduce(i: nat, fn: (real, real) -> real): real {
      ColFold(fn, rows, i, 0.0)
    }

    /** Map(fn): state after fn has replaced every stored value. */
    function Map(fn: real -> real): Mat {
      Mat(seq(|rows|, r requires 0 <= r < |rows| => MapRow(rows[r], fn)), sizeRows, sizeCols)
    }

    /** RowMap(i, fn): state after fn has replaced the stored values of row i. */
    function RowMap(i: nat, fn: real -> real): Mat
      requires i < |rows|
    {
      Mat(rows[i := MapRow(rows[i], fn)], sizeRows, sizeCols)
    }

    /** ColMap(i, fn): state after fn has replaced the stored entries of column i. */
    function ColMap(i: nat, fn: real -> real): Mat {
      Mat(seq(|rows|, r requires 0 <= r < |rows| => ColMapRow(rows[r], i, fn)), sizeRows, sizeCols)
    }

    /** Sum of all values with absent entries read as zero (an order-free reference for Reduce(+)). */
    function DenseSum(): real {
      DenseRowsSum(rows, sizeCols)
    }
  }

  /** The list constructor's state. */
  function FromLiteral(lit: seq<seq<real>>): Mat {
    Mat(seq(|lit|, r requires 0 <= r < |lit| => EncodeRow(lit[r])), |lit|, MaxLen(lit))
  }

  /** The (rows, cols) constructor's state: `rows` empty rows. */
  function FromDims(rows: nat, cols: nat): Mat {
    Mat(seq(rows, _ => map[]), rows, cols)
  }

  function Add(a: real, b: real): real {
    a + b
  }

  function SizesSum(rows: seq<Row>): nat
    decreases |rows|
  {
    if |rows| == 0 then 0 else SizesSum(rows[..|rows| - 1]) + |rows[|rows| - 1]|
  }

  function ColCount(rows: seq<Row>, c: nat): nat
    decreases |rows|
  {
    if |rows| == 0 then 0
    else ColCount(rows[..|rows| - 1], c) + (if c in rows[|rows| - 1] then 1 else 0)
  }

  function Sum(s: seq<nat>): nat
    decreases |s|
  {
    if |s| == 0 then 0 else Sum(s[..|s| - 1]) + s[|s| - 1]
  }

  function MapRow(row: Row, fn: real -> real): Row {
    map k | k in row :: fn(row[k])
  }

  function ColMapRow(row: Row, i: nat, fn: real -> real): Row {
    if i in row then row[i := fn(row[i])] else row
  }

  /** What parallel_reduce demands of its combiner, which here is fn itself. */
  ghost predicate CommAssoc(fn: (real, real) -> real) {
    && (forall a, b :: fn(a, b) == fn(b, a))
    && (forall a, b, c :: fn(a, fn(b, c)) == fn(fn(a, b), c))
  }

  /**
   * fn(value, acc) folded over the entries of a row in an unspecified order
   * (unordered_map iteration order); the key taken last is outermost.
   */
  ghost function FoldMap(fn: (real, real) -> real, m: Row, acc: real): real
    decreases m.Keys
  {
    if m.Keys == {} then acc
    else
      var k :| k in m.Keys;
      fn(m[k], FoldMap(fn, m - {k}, acc))
  }

  /** The whole-matrix fold: the accumulator threads through the rows in order. */
  ghost function FoldRows(fn: (real, real) -> real, rows: seq<Row>, acc: real): real
    decreases |rows|
  {
    if |rows| == 0 then acc
    else FoldMap(fn, rows[|rows| - 1], FoldRows(fn, rows[..|rows| - 1], acc))
  }

  /** The column fold: rows in order, only those that store column c. */
  function ColFold(fn: (real, real) -> real, rows: seq<Row>, c: nat, acc: real): real
    decreases |rows|
  {
    if |rows| == 0 then acc
    else
      var a := ColFold(fn, rows[..|rows| - 1], c, acc);
      if c in rows[|rows| - 1] then fn(rows[|rows| - 1][c], a) else a
  }

  /** Sum over the columns below `cols` of a row, absent entries read as zero. */
  function DenseRowSum(row: Row, cols: nat): real
    decreases cols
  {
    if cols == 0 then 0.0
    else DenseRowSum(row, cols - 1) + (if cols - 1 in row then row[cols - 1] else 0.0)
  }

  function DenseRowsSum(rows: seq<Row>, cols: nat): real
    decreases |rows|
  {
    if |rows| == 0 then 0.0 else DenseRowsSum(rows[..|rows| - 1], cols) + DenseRowSum(rows[|rows| - 1], cols)
  }

  /** Sum of the entries of column c, absent entries read as zero. */
  function ColSum(rows: seq<Row>, c: nat): real
    decreases |rows|
  {
    if |rows| == 0 then 0.0
    else ColSum(rows[..|rows| - 1], c) + (if c in rows[|rows| - 1] then rows[|rows| - 1][c] else 0.0)
  }

  // ---------------------------------------------------------------------------
  // The list and (rows, cols) constructors

  /**
   * The list constructor stores exactly the non-zero literals, each keyed by its
   * column position; SizeRows is the number of literal rows and SizeCols the
   * longest literal row, so every key is below SizeCols and every value is non-zero.
   */
  lemma FromLiteralStoresNonZeros(lit: seq<seq<real>>)
    ensures FromLiteral(lit).Valid()
    ensures FromLiteral(lit).sizeRows == |lit| && FromLiteral(lit).sizeCols == MaxLen(lit)
    ensures forall r, c: nat :: 0 <= r < |lit| ==>
      (c in FromLiteral(lit).rows[r] <==> c < |lit[r]| && lit[r][c] != 0.0)
    ensures forall r, c :: 0 <= r < |lit| && c in FromLiteral(lit).rows[r] ==>
      FromLiteral(lit).rows[r][c] == lit[r][c] && FromLiteral(lit).rows[r][c] != 0.0
  {
    forall r | 0 <= r < |lit| {
      EncodeRowEntries(lit[r]);
    }
  }

  /** Reading the list-constructed matrix gives back the literal, padded with zeros up to SizeCols. */
  lemma ElementOfLiteral(lit: seq<seq<real>>, x: nat, y: nat)
    ensures FromLiteral(lit).Element(x, y) ==
      if x < |lit| && y <= MaxLen(lit) then Success(if y < |lit[x]| then lit[x][y] else 0.0)
      else Failure(OutOfRange)
  {
    FromLiteralStoresNonZeros(lit);
  }

  /** The list constructor stores one entry per non-zero literal. */
  lemma {:induction false} NumElementsOfLiteral(lit: seq<seq<real>>)
    ensures FromLiteral(lit).NumElements() == LiteralNonZeros(lit)
    decreases |lit|
  {
    if |lit| > 0 {
      var p := lit[..|lit| - 1];
      NumElementsOfLiteral(p);
      assert FromLiteral(lit).rows[..|lit| - 1] == FromLiteral(p).rows;
      EncodeRowSize(lit[|lit| - 1]);
    }
  }

  lemma {:induction false} SizesSumEmpty(rows: seq<Row>)
    requires forall r :: 0 <= r < |rows| ==> rows[r] == map[]
    ensures SizesSum(rows) == 0
    decreases |rows|
  {
    if |rows| > 0 {
      SizesSumEmpty(rows[..|rows| - 1]);
    }
  }

  /** The (rows, cols) constructor yields `rows` empty rows: valid, and nothing stored. */
  lemma FromDimsEmpty(rows: nat, cols: nat)
    ensures FromDims(rows, cols).Valid()
    ensures FromDims(rows, cols).NumElements() == 0
    ensures forall c :: FromDims(rows, cols).NumElementsCol(c) == 0
  {
    SizesSumEmpty(FromDims(rows, cols).rows);
    forall c ensures FromDims(rows, cols).NumElementsCol(c) == 0 {
      ColCountEmpty(FromDims(rows, cols).rows, c);
    }
  }

  lemma {:induction false} ColCountEmpty(rows: seq<Row>, c: nat)
    requires forall r :: 0 <= r < |rows| ==> rows[r] == map[]
    ensures ColCount(rows, c) == 0
    decreases |rows|
  {
    if |rows| > 0 {
      ColCountEmpty(rows[..|rows| - 1], c);
    }
  }

  // ---------------------------------------------------------------------------
  // Counting

  lemma {:induction false} SumLines(rows: seq<Row>, counts: seq<nat>)
    requires |counts| == |rows|
    requires forall k :: 0 <= k < |rows| ==> counts[k] == |rows[k]|
    ensures Sum(counts) == SizesSum(rows)
    decreases |rows|
  {
    if |rows| > 0 {
      SumLines(rows[..|rows| - 1], counts[..|counts| - 1]);
    }
  }

  /** The per-row counts add up to NumElements(). */
  lemma NumElementsLinesSum(m: Mat)
    ensures Sum(m.NumElementsLines()) == m.NumElements()
  {
    SumLines(m.rows, m.NumElementsLines());
  }

  /** Number of keys of a row below `cols`. */
  function KeysBelow(row: Row, cols: nat): nat
    decreases cols
  {
    if cols == 0 then 0 else KeysBelow(row, cols - 1) + (if cols - 1 in row then 1 else 0)
  }

  lemma {:induction false} KeysBelowIsSize(row: Row, cols: nat)
    ensures KeysBelow(row, cols) == |set c | c in row && c < cols|
    decreases cols
  {
    if cols > 0 {
      KeysBelowIsSize(row, cols - 1);
      var s := set c | c in row && c < cols - 1;
      if cols - 1 in row {
        assert (set c | c in row && c < cols) == s + {cols - 1};
      } else {
        assert (set c | c in row && c < cols) == s;
      }
    }
  }

  /** Sum over the columns below `cols` of the per-column counts. */
  function ColCountsSum(rows: seq<Row>, cols: nat): nat
    decreases cols
  {
    if cols == 0 then 0 else ColCountsSum(rows, cols - 1) + ColCount(rows, cols - 1)
  }

  lemma {:induction false} ColCountsSumSwap(rows: seq<Row>, cols: nat)
    ensures ColCountsSum(rows, cols) == RowKeysSum(rows, cols)
    decreases cols
  {
    if cols > 0 {
      ColCountsSumSwap(rows, cols - 1);
      ColCountIsRowKeys(rows, cols);
    } else {
      RowKeysSumZero(rows);
    }
  }

  lemma {:induction false} RowKeysSumZero(rows: seq<Row>)
    ensures RowKeysSum(rows, 0) == 0
    decreases |rows|
  {
    if |rows| > 0 {
      RowKeysSumZero(rows[..|rows| - 1]);
    }
  }

  function RowKeysSum(rows: seq<Row>, cols: nat): nat
    decreases |rows|
  {
    if |rows| == 0 then 0 else RowKeysSum(rows[..|rows| - 1], cols) + KeysBelow(rows[|rows| - 1], cols)
  }

  lemma {:induction false} ColCountIsRowKeys(rows: seq<Row>, cols: nat)
    requires cols > 0
    ensures RowKeysSum(rows, cols) == RowKeysSum(rows, cols - 1) + ColCount(rows, cols - 1)
    decreases |rows|
  {
    if |rows| > 0 {
      ColCountIsRowKeys(rows[..|rows| - 1], cols);
    }
  }

  lemma {:induction false} RowKeysSumIsSizes(rows: seq<Row>, cols: nat)
    requires forall r, c :: 0 <= r < |rows| && c in rows[r] ==> c < cols
    ensures RowKeysSum(rows, cols) == SizesSum(rows)
    decreases |rows|
  {
    if |rows| > 0 {
      var p := rows[..|rows| - 1];
      RowKeysSumIsSizes(p, cols);
      var last := rows[|rows| - 1];
      KeysBelowIsSize(last, cols);
      assert (set c | c in last && c < cols) == last.Keys;
    }
  }

  lemma {:induction false} SumCols(rows: seq<Row>, counts: seq<nat>)
    requires forall c :: 0 <= c < |counts| ==> counts[c] == ColCount(rows, c)
    ensures Sum(counts) == ColCountsSum(rows, |counts|)
    decreases |counts|
  {
    if |counts| > 0 {
      SumCols(rows, counts[..|counts| - 1]);
    }
  }

  /** Because every key is below SizeCols, the per-column counts also add up to NumElements(). */
  lemma NumElementsColsSum(m: Mat)
    requires m.Valid()
    ensures Sum(m.NumElementsCols()) == m.NumElements()
  {
    SumCols(m.rows, m.NumElementsCols());
    ColCountsSumSwap(m.rows, m.sizeCols);
    RowKeysSumIsSizes(m.rows, m.sizeCols);
  }

  // ---------------------------------------------------------------------------
  // Folds

  /** With a commutative, associative fn the fold may take any key last. */
  lemma {:induction false} FoldMapRemove(fn: (real, real) -> real, m: Row, k: nat, acc: real)
    requires CommAssoc(fn)
    requires k in m
    ensures FoldMap(fn, m, acc) == fn(m[k], FoldMap(fn, m - {k}, acc))
    decreases m.Keys
  {
    var j :| j in m.Keys && FoldMap(fn, m, acc) == fn(m[j], FoldMap(fn, m - {j}, acc));
    if j != k {
      var rest := m - {j} - {k};
      assert m - {k} - {j} == rest;
      FoldMapRemove(fn, m - {j}, k, acc);
      FoldMapRemove(fn, m - {k}, j, acc);
      var x := FoldMap(fn, rest, acc);
      var a, b := m[j], m[k];
      assert (m - {j})[k] == b && (m - {k})[j] == a;
      calc {
        FoldMap(fn, m, acc);
        fn(a, fn(b, x));
        { assert fn(a, fn(b, x)) == fn(fn(a, b), x); }
        fn(fn(a, b), x);
        { assert fn(a, b) == fn(b, a); }
        fn(fn(b, a), x);
        { assert fn(b, fn(a, x)) == fn(fn(b, a), x); }
        fn(b, fn(a, x));
        fn(b, FoldMap(fn, m - {k}, acc));
      }
    }
  }

  lemma AddCommAssoc()
    ensures CommAssoc(Add)
  {
  }

  lemma {:induction false} DenseRowSumAgree(a: Row, b: Row, cols: nat)
    requires forall c :: c < cols ==> (c in a <==> c in b)
    requires forall c :: c < cols && c in a ==> a[c] == b[c]
    ensures DenseRowSum(a, cols) == DenseRowSum(b, cols)
    decreases cols
  {
    if cols > 0 {
      DenseRowSumAgree(a, b, cols - 1);
    }
  }

  /** Folding + over a row's stored entries, in any order, adds their dense sum to the start value. */
  lemma {:induction false} FoldMapAddIsDenseSum(m: Row, cols: nat, acc: real)
    requires forall c :: c in m ==> c < cols
    ensures FoldMap(Add, m, acc) == acc + DenseRowSum(m, cols)
    decreases cols
  {
    AddCommAssoc();
    if cols == 0 {
      assert m.Keys == {};
    } else if cols - 1 in m {
      var rest := m - {cols - 1};
      FoldMapRemove(Add, m, cols - 1, acc);
      FoldMapAddIsDenseSum(rest, cols - 1, acc);
      DenseRowSumAgree(rest, m, cols - 1);
    } else {
      FoldMapAddIsDenseSum(m, cols - 1, acc);
    }
  }

  lemma {:induction false} FoldRowsAddIsDenseSum(rows: seq<Row>, cols: nat)
    requires forall r, c :: 0 <= r < |rows| && c in rows[r] ==> c < cols
    ensures FoldRows(Add, rows, 0.0) == DenseRowsSum(rows, cols)
    decreases |rows|
  {
    if |rows| > 0 {
      FoldRowsAddIsDenseSum(rows[..|rows| - 1], cols);
      FoldMapAddIsDenseSum(rows[|rows| - 1], cols, FoldRows(Add, rows[..|rows| - 1], 0.0));
    }
  }

  /** Reduce(+) is the sum of every value, absent entries counting as zero. */
  lemma ReduceAddIsSum(m: Mat)
    requires m.Valid()
    ensures m.Reduce(Add) == m.DenseSum()
  {
    FoldRowsAddIsDenseSum(m.rows, m.sizeCols);
  }

  /** RowReduce(i, +) is the sum of row i. */
  lemma RowReduceAddIsSum(m: Mat, i: nat)
    requires m.Valid() && i < m.sizeRows
    ensures m.RowReduce(i, Add) == DenseRowSum(m.rows[i], m.sizeCols)
  {
    FoldMapAddIsDenseSum(m.rows[i], m.sizeCols, 0.0);
  }

  /** ColReduce(i, +) is the sum of column i. */
  lemma {:induction false} ColReduceAddIsSum(rows: seq<Row>, c: nat)
    ensures ColFold(Add, rows, c, 0.0) == ColSum(rows, c)
    decreases |rows|
  {
    if |rows| > 0 {
      ColReduceAddIsSum(rows[..|rows| - 1], c);
    }
  }

  /** The whole-matrix fold splits at a row boundary. */
  lemma FoldRowsStep(fn: (real, real) -> real, rows: seq<Row>, r: nat, acc: real)
    requires r < |rows|
    ensures FoldRows(fn, rows[..r + 1], acc) == FoldMap(fn, rows[r], FoldRows(fn, rows[..r], acc))
  {
    assert rows[..r + 1][..r] == rows[..r];
  }

  // ---------------------------------------------------------------------------
  // Maps

  /** Map keeps every key set, hence every count and the invariant; each stored v becomes fn(v). */
  lemma MapKeepsKeys(m: Mat, fn: real -> real)
    ensures |m.Map(fn).rows| == |m.rows|
    ensures forall r :: 0 <= r < |m.rows| ==> m.Map(fn).rows[r].Keys == m.rows[r].Keys
    ensures forall r, c :: 0 <= r < |m.rows| && c in m.rows[r] ==> m.Map(fn).rows[r][c] == fn(m.rows[r][c])
    ensures m.Valid() ==> m.Map(fn).Valid()
    ensures m.Map(fn).NumElements() == m.NumElements()
    ensures forall c :: m.Map(fn).NumElementsCol(c) == m.NumElementsCol(c)
  {
    SameKeysSameCounts(m.rows, m.Map(fn).rows);
  }

  /** RowMap(i) changes only row i, and keeps its keys. */
  lemma RowMapOnlyRow(m: Mat, i: nat, fn: real -> real)
    requires i < |m.rows|
    ensures |m.RowMap(i, fn).rows| == |m.rows|
    ensures forall r :: 0 <= r < |m.rows| && r != i ==> m.RowMap(i, fn).rows[r] == m.rows[r]
    ensures m.RowMap(i, fn).rows[i].Keys == m.rows[i].Keys
    ensures forall c :: c in m.rows[i] ==> m.RowMap(i, fn).rows[i][c] == fn(m.rows[i][c])
    ensures m.Valid() ==> m.RowMap(i, fn).Valid()
    ensures m.RowMap(i, fn).NumElements() == m.NumElements()
  {
    SameKeysSameCounts(m.rows, m.RowMap(i, fn).rows);
  }

  /** ColMap(i) changes only the entries with key i; rows without key i and other keys are unchanged. */
  lemma ColMapOnlyColumn(m: Mat, i: nat, fn: real -> real)
    ensures |m.ColMap(i, fn).rows| == |m.rows|
    ensures forall r :: 0 <= r < |m.rows| ==> m.ColMap(i, fn).rows[r].Keys == m.rows[r].Keys
    ensures forall r :: 0 <= r < |m.rows| && i !in m.rows[r] ==> m.ColMap(i, fn).rows[r] == m.rows[r]
    ensures forall r, c :: 0 <= r < |m.rows| && c in m.rows[r] ==>
      m.ColMap(i, fn).rows[r][c] == if c == i then fn(m.rows[r][c]) else m.rows[r][c]
    ensures m.Valid() ==> m.ColMap(i, fn).Valid()
    ensures m.ColMap(i, fn).NumElements() == m.NumElements()
  {
    SameKeysSameCounts(m.rows, m.ColMap(i, fn).rows);
  }

  lemma {:induction false} SameKeysSameCounts(a: seq<Row>, b: seq<Row>)
    requires |a| == |b|
    requires forall r :: 0 <= r < |a| ==> a[r].Keys == b[r].Keys
    ensures SizesSum(a) == SizesSum(b)
    ensures forall c :: ColCount(a, c) == ColCount(b, c)
    decreases |a|
  {
    if |a| > 0 {
      SameKeysSameCounts(a[..|a| - 1], b[..|b| - 1]);
      assert |a[|a| - 1]| == |a[|a| - 1].Keys|;
      assert |b[|b| - 1]| == |b[|b| - 1].Keys|;
    }
  }
}
