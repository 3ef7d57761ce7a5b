/**
 * MatCsr: a sparse matrix kept as one ordered map per row, plus the numbers of
 * rows and columns. Its abstract state is the SparseRows.Mat value Model().
 */
module MatCsrMat {
  import opened Common
  import opened SparseRows
  import opened SparseLoops

  class MatCsr {
    var rows: seq<Row>
    var sizeRows: nat
    var sizeCols: nat

    function Model(): Mat
      reads this
    {
      Mat(rows, sizeRows, sizeCols)
    }

    /** Every constructor establishes this, and no method breaks it. */
    ghost predicate Valid()
      reads this
    {
      Model().Valid()
    }

    /** MatCsr(): no rows, no columns. */
    constructor Empty()
      ensures Model() == Mat([], 0, 0)
      ensures Valid()
    {
      rows := [];
      sizeRows := 0;
      sizeCols := 0;
    }

    /** MatCsr(rows, cols): `r` empty row maps. */
    constructor Dims(r: nat, c: nat)
      ensures Model() == FromDims(r, c)
      ensures Valid()
    {
      rows := seq(r, _ => map[]);
      sizeRows := r;
      sizeCols := c;
    }

    /** MatCsr({...}): one map per literal row holding its non-zeros; SizeCols is the longest row. */
    constructor FromList(lit: seq<seq<real>>)
      ensures Model() == FromLiteral(lit)
      ensures Valid()
    {
      var encoded, maxCol := EncodeLiteral(lit);
      rows := encoded;
      sizeCols := maxCol;
      sizeRows := |lit|;
      new;
      FromLiteralStoresNonZeros(lit);
    }

    /** The copy constructor. */
    constructor Copy(m: MatCsr)
      ensures Model() == m.Model()
    {
      rows := m.rows;
      sizeRows := m.sizeRows;
      sizeCols := m.sizeCols;
    }

    /** The move constructor: takes the rows and sizes, and leaves `m` with no rows and zero sizes. */
    constructor Move(m: MatCsr)
      modifies m
      ensures Model() == old(m.Model())
      ensures m.Model() == Mat([], 0, 0)
    {
      rows := m.rows;
      sizeRows := m.sizeRows;
      sizeCols := m.sizeCols;
      new;
      m.rows := [];
      m.sizeRows := 0;
      m.sizeCols := 0;
    }

    /** Copy assignment: this takes m's state; assigning an object to itself changes nothing. */
    method Assign(m: MatCsr)
      modifies this
      ensures Model() == old(m.Model())
    {
      if this != m {
        rows := m.rows;
        sizeCols := m.sizeCols;
        sizeRows := m.sizeRows;
      }
    }

    /** NumElements(): the number of stored entries. */
    method NumElements() returns (n: nat)
      ensures n == Model().NumElements()
    {
      n := CountEntries(rows);
    }

    /** NumElementsCol(i): the number of rows storing column i. */
    method NumElementsCol(i: nat) returns (n: nat)
      ensures n == Model().NumElementsCol(i)
    {
      n := CountColumn(rows, i);
    }

    /** NumElementsLines(): a vector of SizeRows zeros, entry k overwritten by the size of row k. */
    method NumElementsLines() returns (rets: seq<nat>)
      requires Valid()
      ensures rets == Model().NumElementsLines()
    {
      rets := seq(sizeRows, _ => 0);
      var k := 0;
      while k < |rows|
        invariant 0 <= k <= |rows|
        invariant |rets| == |rows|
        invariant forall j :: 0 <= j < k ==> rets[j] == |rows[j]|
      {
        rets := rets[k := |rows[k]|];
        k := k + 1;
      }
    }

    /** NumElementsCols(): for every row, bump the counter of each column below SizeCols it stores. */
    method NumElementsCols() returns (nums: seq<nat>)
      ensures nums == Model().NumElementsCols()
    {
      nums := seq(sizeCols, _ => 0);
      var r := 0;
      while r < |rows|
        invariant 0 <= r <= |rows|
        invariant |nums| == sizeCols
        invariant forall c :: 0 <= c < sizeCols ==> nums[c] == ColCount(rows[..r], c)
      {
        assert rows[..r + 1][..r] == rows[..r];
        var i := 0;
        while i < sizeCols
          invariant 0 <= i <= sizeCols
          invariant |nums| == sizeCols
          invariant forall c :: 0 <= c < i ==> nums[c] == ColCount(rows[..r + 1], c)
          invariant forall c :: i <= c < sizeCols ==> nums[c] == ColCount(rows[..r], c)
        {
          if i in rows[r] {
            nums := nums[i := nums[i] + 1];
          }
          i := i + 1;
        }
        r := r + 1;
      }
      assert rows[..|rows|] == rows;
    }

    /** NumElements(axis): the per-row counts for ROW, the per-column counts for COL. */
    method NumElementsAxis(axis: Axis) returns (v: seq<nat>)
      requires Valid()
      ensures v == Model().NumElementsAxis(axis)
    {
      if axis == ROW {
        v := NumElementsLines();
      } else {
        v := NumElementsCols();
      }
    }
  }
}
