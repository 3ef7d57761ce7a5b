/**
 * DataCsrMap: the same row-of-maps matrix as MatCsr, with unordered row maps,
 * and with in-place maps and folds over the stored values.
 */
module DataCsrMapMat {
  import opened Common
  import opened SparseRows
  import opened SparseLoops

  /**
   * The (rows, cols) constructor as written: it sets the two sizes but never
   * creates the row maps, so the matrix has no rows at all.
   */
  function DimsAsWritten(r: nat, c: nat): Mat {
    Mat([], r, c)
  }

  /**
   * With at least one row the state breaks the one-map-per-row invariant, and
   * reading (0, 0), which the bound checks let through, fails in the row access;
   * the intended state FromDims reads zero there.
   */
  lemma DimsAsWrittenBreaksRows(r: nat, c: nat)
    requires r > 0
    ensures !DimsAsWritten(r, c).Valid()
    ensures DimsAsWritten(r, c).Element(0, 0) == Failure(OutOfRange)
    ensures FromDims(r, c).Element(0, 0) == Success(0.0)
  {
  }

  class DataCsrMap {
    var rows: seq<Row>
    var sizeRows: nat
    var sizeCols: nat

    function Model(): Mat
      reads this
    {
      Mat(rows, sizeRows, sizeCols)
    }

    ghost predicate Valid()
      reads this
    {
      Model().Valid()
    }

    /** DataCsrMap(): no rows, no columns. */
    constructor Empty()
      ensures Model() == Mat([], 0, 0)
      ensures Valid()
    {
      rows := [];
      sizeRows := 0;
      sizeCols := 0;
    }

    /** DataCsrMap(rows, cols), as intended: `r` empty rows (see DimsAsWritten for the code as written). */
    constructor Dims(r: nat, c: nat)
      ensures Model() == FromDims(r, c)
      ensures Valid()
    {
      rows := seq(r, _ => map[]);
      sizeRows := r;
      sizeCols := c;
    }

    /** DataCsrMap({...}): one map per literal row holding its non-zeros; SizeCols is the longest row. */
    constructor FromList(lit: seq<seq<real>>)
      ensures Model() == FromLiteral(lit)
      ensures Valid()
    {
      var encoded, maxCol := EncodeLiteral(lit);
      rows := encoded;
      sizeCols := maxCol;
      sizeRows := |lit|;
      new;
      FromLiteralStoresNonZeros(lit);
    }

    /** NumElements(): the number of stored entries. */
    method NumElements() returns (n: nat)
      ensures n == Model().NumElements()
    {
      n := CountEntries(rows);
    }

    /** NumElementsCol(i): the number of rows storing column i. */
    method NumElementsCol(i: nat) returns (n: nat)
      ensures n == Model().NumElementsCol(i)
    {
      n := CountColumn(rows, i);
    }

    /** RowMap(i, fn): overwrite every entry of row i with fn of its value, key by key. */
    method RowMap(i: nat, fn: real -> real)
      requires i < |rows|
      modifies this
      ensures Model() == old(Model()).RowMap(i, fn)
    {
      ghost var orig := rows[i];
      var todo := rows[i].Keys;
      while todo != {}
        invariant todo <= orig.Keys
        invariant |rows| == |old(rows)| && sizeRows == old(sizeRows) && sizeCols == old(sizeCols)
        invariant forall r :: 0 <= r < |rows| && r != i ==> rows[r] == old(rows)[r]
        invariant rows[i].Keys == orig.Keys
        invariant forall c :: c in orig && c !in todo ==> rows[i][c] == fn(orig[c])
        invariant forall c :: c in todo ==> rows[i][c] == orig[c]
        decreases todo
      {
        var c :| c in todo;
        rows := rows[i := rows[i][c := fn(rows[i][c])]];
        todo := todo - {c};
      }
      assert rows[i] == MapRow(orig, fn);
      assert rows == old(rows)[i := MapRow(orig, fn)];
    }

    /** Map(fn): overwrite every stored value with fn of it, row after row. */
    method Map(fn: real -> real)
      modifies this
      ensures Model() == old(Model()).Map(fn)
    {
      var r := 0;
      while r < |rows|
        invariant 0 <= r <= |rows|
        invariant |rows| == |old(rows)| && sizeRows == old(sizeRows) && sizeCols == old(sizeCols)
        invariant forall k :: 0 <= k < r ==> rows[k] == MapRow(old(rows)[k], fn)
        invariant forall k :: r <= k < |rows| ==> rows[k] == old(rows)[k]
      {
        RowMap(r, fn);
        r := r + 1;
      }
    }

    /** ColMap(i, fn): in every row that stores column i, overwrite that entry with fn of it. */
    method ColMap(i: nat, fn: real -> real)
      modifies this
      ensures Model() == old(Model()).ColMap(i, fn)
    {
      var r := 0;
      while r < |rows|
        invariant 0 <= r <= |rows|
        invariant |rows| == |old(rows)| && sizeRows == old(sizeRows) && sizeCols == old(sizeCols)
        invariant forall k :: 0 <= k < r ==> rows[k] == ColMapRow(old(rows)[k], i, fn)
        invariant forall k :: r <= k < |rows| ==> rows[k] == old(rows)[k]
      {
        if i in rows[r] {
          var updated: Row := rows[r][i := fn(rows[r][i])];
          rows := rows[r := updated];
        }
        r := r + 1;
      }
    }

    /** Reduce(fn): fold fn(value, ret) over every stored value, rows in order, starting from 0. */
    method Reduce(fn: (real, real) -> real) returns (ret: real)
      requires CommAssoc(fn)
      ensures ret == Model().Reduce(fn)
    {
      ret := 0.0;
      var r := 0;
      while r < |rows|
        invariant 0 <= r <= |rows|
        invariant ret == FoldRows(fn, rows[..r], 0.0)
      {
        FoldRowsStep(fn, rows, r, 0.0);
        ret := FoldRowEntries(rows[r], fn, ret);
        r := r + 1;
      }
      assert rows[..|rows|] == rows;
    }

    /**
     * RowReduce(i, fn): fold fn(value, ret) over row i starting from 0. The
     * source computes this fold but never returns it; the model returns it.
     */
    method RowReduce(i: nat, fn: (real, real) -> real) returns (ret: real)
      requires i < |rows|
      requires CommAssoc(fn)
      ensures ret == Model().RowReduce(i, fn)
    {
      ret := FoldRowEntries(rows[i], fn, 0.0);
    }

    /** ColReduce(i, fn): fold fn(value, ret) over the entries of column i, rows in order, from 0. */
    method ColReduce(i: nat, fn: (real, real) -> real) returns (ret: real)
      ensures ret == Model().ColReduce(i, fn)
    {
      ret := 0.0;
      var r := 0;
      while r < |rows|
        invariant 0 <= r <= |rows|
        invariant ret == ColFold(fn, rows[..r], i, 0.0)
      {
        assert rows[..r + 1][..r] == rows[..r];
        if i in rows[r] {
          ret := fn(rows[r][i], ret);
        }
        r := r + 1;
      }
      assert rows[..|rows|] == rows;
    }
  }
}
