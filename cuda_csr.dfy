/**
 * The GPU-side DataCsr: the same three arrays as DataCsr, except that a row
 * storing nothing gets the offset INVALID_LINE, plus in-place Map and RowMap
 * over elems.
 */
module CudaCsrMat {
  import opened Literal
  import opened CsrEncoding
  import opened DataCsrMat

  /** elems after fn has rewritten positions [start, end). */
  function MapRange(s: seq<real>, start: nat, end: nat, fn: real -> real): seq<real> {
    seq(|s|, k requires 0 <= k < |s| => if start <= k < end then fn(s[k]) else s[k])
  }

  /**
   * What RowMap as written needs in order to stay inside elems: it takes the
   * end of row i from rows_offset_[i + 1], so that entry must exist and must
   * not be INVALID_LINE.
   */
  ghost predicate AsWrittenRowMapDefined(coffs: seq<int>, total: nat, i: nat)
    requires i < |coffs|
  {
    coffs[i] == INVALID_LINE || (i + 1 < |coffs| && 0 <= coffs[i] <= coffs[i + 1] <= total)
  }

  /**
   * Two list-constructed matrices on which RowMap(0) as written leaves elems:
   * with one row there is no rows_offset_[1]; when the next row is empty,
   * rows_offset_[1] is INVALID_LINE.
   */
  lemma AsWrittenRowMapFails()
    ensures CudaOffsets([[1.0]]) == [0] && |AllVals([[1.0]])| == 1
    ensures !AsWrittenRowMapDefined(CudaOffsets([[1.0]]), |AllVals([[1.0]])|, 0)
    ensures CudaOffsets([[1.0], [0.0]]) == [0, INVALID_LINE] && |AllVals([[1.0], [0.0]])| == 1
    ensures !AsWrittenRowMapDefined(CudaOffsets([[1.0], [0.0]]), |AllVals([[1.0], [0.0]])|, 0)
  {
    var a: seq<seq<real>> := [[1.0]];
    var b: seq<seq<real>> := [[1.0], [0.0]];
    assert [1.0][..0] == [];
    assert Vals([1.0]) == [1.0];
    assert [0.0][..0] == [];
    assert Vals([0.0]) == [];
    assert ValsParts(a)[..0] == [];
    assert ValsParts(a) == [[1.0]];
    assert ValsParts(a)[..1] == [[1.0]];
    assert AllVals(a) == [1.0];
    assert ValsParts(b)[..0] == [];
    assert ValsParts(b) == [[1.0], []];
    assert ValsParts(b)[..1] == [[1.0]];
    assert Flatten(ValsParts(b)[..1]) == [1.0];
    assert AllVals(b) == [1.0];
  }

  /**
   * The list-constructed arrays satisfy what the corrected RowMap needs, for every row.
   */
  lemma ListStateFitsRowMap(lit: seq<seq<real>>, i: nat)
    requires i < |lit|
    ensures |CudaOffsets(lit)| == |lit|
    ensures CudaOffsets(lit)[i] != INVALID_LINE ==>
      0 <= CudaOffsets(lit)[i] <= CudaRowEnd(CudaOffsets(lit), i, |AllVals(lit)|) <= |AllVals(lit)|
  {
    if CudaOffsets(lit)[i] != INVALID_LINE {
      CudaRowSlice(lit, i);
    }
  }

  /**
   * On list-constructed arrays the corrected RowMap(i) rewrites exactly row i's
   * stored values, and every other row's slice of elems is left as it was.
   */
  lemma RowMapTouchesOnlyRow(lit: seq<seq<real>>, i: nat, fn: real -> real)
    requires i < |lit|
    requires CudaOffsets(lit)[i] != INVALID_LINE
    ensures 0 <= CudaOffsets(lit)[i] <= CudaRowEnd(CudaOffsets(lit), i, |AllVals(lit)|) <= |AllVals(lit)|
    ensures var e := MapRange(AllVals(lit), CudaOffsets(lit)[i], CudaRowEnd(CudaOffsets(lit), i, |AllVals(lit)|), fn);
      && e[CudaOffsets(lit)[i]..CudaRowEnd(CudaOffsets(lit), i, |AllVals(lit)|)]
         == seq(|Vals(lit[i])|, k requires 0 <= k < |Vals(lit[i])| => fn(Vals(lit[i])[k]))
      && forall r :: 0 <= r < |lit| && r != i ==>
           Offsets(lit)[r] <= RowEnd(Offsets(lit), r, |AllVals(lit)|) <= |e| &&
           e[Offsets(lit)[r]..RowEnd(Offsets(lit), r, |AllVals(lit)|)] == Vals(lit[r])
  {
    CudaRowSlice(lit, i);
    var total := |AllVals(lit)|;
    var start, end := CudaOffsets(lit)[i], CudaRowEnd(CudaOffsets(lit), i, total);
    var e := MapRange(AllVals(lit), start, end, fn);
    assert e[start..end] == seq(|Vals(lit[i])|, k requires 0 <= k < |Vals(lit[i])| => fn(Vals(lit[i])[k]));
    forall r | 0 <= r < |lit| && r != i
      ensures Offsets(lit)[r] <= RowEnd(Offsets(lit), r, total) <= |e|
      ensures e[Offsets(lit)[r]..RowEnd(Offsets(lit), r, total)] == Vals(lit[r])
    {
      OtherRowUnchanged(lit, i, r, fn);
    }
  }

  /** Rewriting [start, end) leaves any range outside it as it was. */
  lemma MapRangeOutside(s: seq<real>, start: nat, end: nat, a: nat, b: nat, fn: real -> real)
    requires a <= b <= |s|
    requires b <= start || end <= a
    ensures MapRange(s, start, end, fn)[a..b] == s[a..b]
  {
  }

  /** After rewriting row i's range, row r != i still holds its own values. */
  lemma OtherRowUnchanged(lit: seq<seq<real>>, i: nat, r: nat, fn: real -> real)
    requires i < |lit| && r < |lit| && r != i
    ensures Offsets(lit)[i] <= RowEnd(Offsets(lit), i, |AllVals(lit)|) <= |AllVals(lit)|
    ensures Offsets(lit)[r] <= RowEnd(Offsets(lit), r, |AllVals(lit)|) <= |AllVals(lit)|
    ensures MapRange(AllVals(lit), Offsets(lit)[i], RowEnd(Offsets(lit), i, |AllVals(lit)|), fn)
              [Offsets(lit)[r]..RowEnd(Offsets(lit), r, |AllVals(lit)|)] == Vals(lit[r])
  {
    var total := |AllVals(lit)|;
    var offs := Offsets(lit);
    RowSlice(lit, r);
    RowSlice(lit, i);
    OffsetsMonotone(lit);
    var start, end := offs[i], RowEnd(offs, i, total);
    if r < i {
      assert RowEnd(offs, r, total) == offs[r + 1] <= start;
    } else {
      assert end == offs[i + 1] <= offs[r];
    }
    MapRangeOutside(AllVals(lit), start, end, offs[r], RowEnd(offs, r, total), fn);
  }

  class CudaCsr {
    var rowsOffset: seq<int>
    var colsIndex: seq<nat>
    var elems: seq<real>
    var sizeRows: nat
    var sizeCols: nat

    /** DataCsr(): nothing stored, no rows, no columns. */
    constructor Empty()
      ensures rowsOffset == [] && colsIndex == [] && elems == []
      ensures sizeRows == 0 && sizeCols == 0
    {
      rowsOffset := [];
      colsIndex := [];
      elems := [];
      sizeRows := 0;
      sizeCols := 0;
    }

    /**
     * DataCsr({...}): like the CPU-side list constructor, then a row that added
     * nothing has its offset overwritten with INVALID_LINE.
     */
    constructor FromList(lit: seq<seq<real>>)
      ensures rowsOffset == CudaOffsets(lit)
      ensures colsIndex == AllCols(lit) && elems == AllVals(lit)
      ensures sizeRows == |lit| && sizeCols == MaxLen(lit)
    {
      var offs: seq<int> := [];
      var cols: seq<nat> := [];
      var vals: seq<real> := [];
      var i := 0;
      var maxCol := 0;
      var numRows := 0;
      while numRows < |lit|
        invariant 0 <= numRows <= |lit|
        invariant |offs| == numRows
        invariant offs == CudaOffsets(lit)[..numRows]
        invariant vals == Flatten(ValsParts(lit)[..numRows]) && cols == Flatten(ColsParts(lit)[..numRows])
        invariant i == |vals|
        invariant maxCol == MaxLen(lit[..numRows])
      {
        var row := lit[numRows];
        ListRowStep(lit, numRows);
        var iPrev := i;
        offs := offs + [i];
        vals, cols, maxCol := ScanRow(row, vals, cols, maxCol);
        i := |vals|;
        if i == iPrev {
          offs := offs[|offs| - 1 := INVALID_LINE];
        }
        numRows := numRows + 1;
      }
      assert lit[..|lit|] == lit;
      assert CudaOffsets(lit)[..|lit|] == CudaOffsets(lit);
      assert ValsParts(lit)[..|lit|] == ValsParts(lit);
      assert ColsParts(lit)[..|lit|] == ColsParts(lit);
      rowsOffset := offs;
      colsIndex := cols;
      elems := vals;
      sizeCols := maxCol;
      sizeRows := numRows;
    }

    /** DataCsr(rows, cols): rows + 1 zero offsets and nothing stored. */
    constructor Dims(r: nat, c: nat)
      ensures rowsOffset == seq(r + 1, _ => 0)
      ensures colsIndex == [] && elems == []
      ensures sizeRows == r && sizeCols == c
    {
      rowsOffset := seq(r + 1, _ => 0);
      colsIndex := [];
      elems := [];
      sizeRows := r;
      sizeCols := c;
    }

    /**
     * Copy assignment: copies the three arrays (not the sizes); assigning an
     * object to itself changes nothing.
     */
    method Assign(m: CudaCsr)
      modifies this
      ensures rowsOffset == old(m.rowsOffset) && colsIndex == old(m.colsIndex) && elems == old(m.elems)
      ensures sizeRows == old(sizeRows) && sizeCols == old(sizeCols)
    {
      if this != m {
        rowsOffset := m.rowsOffset;
        colsIndex := m.colsIndex;
        elems := m.elems;
      }
    }

    /** The loop both maps share: elems[k] := fn(elems[k]) for k in [start, end). */
    method MapSlice(start: nat, end: nat, fn: real -> real)
      requires start <= end <= |elems|
      modifies this
      ensures elems == MapRange(old(elems), start, end, fn)
      ensures rowsOffset == old(rowsOffset) && colsIndex == old(colsIndex)
      ensures sizeRows == old(sizeRows) && sizeCols == old(sizeCols)
    {
      var k := start;
      while k < end
        invariant start <= k <= end
        invariant |elems| == |old(elems)|
        invariant forall j :: 0 <= j < |elems| ==>
          elems[j] == if start <= j < k then fn(old(elems)[j]) else old(elems)[j]
        invariant rowsOffset == old(rowsOffset) && colsIndex == old(colsIndex)
        invariant sizeRows == old(sizeRows) && sizeCols == old(sizeCols)
      {
        elems := elems[k := fn(elems[k])];
        k := k + 1;
      }
    }

    /** Map(fn): every stored value v becomes fn(v); offsets, columns and lengths stay. */
    method Map(fn: real -> real)
      modifies this
      ensures |elems| == |old(elems)|
      ensures forall k :: 0 <= k < |elems| ==> elems[k] == fn(old(elems)[k])
      ensures rowsOffset == old(rowsOffset) && colsIndex == old(colsIndex)
      ensures sizeRows == old(sizeRows) && sizeCols == old(sizeCols)
    {
      MapSlice(0, |elems|, fn);
    }

    /**
     * RowMap(i, fn) as written: nothing for an INVALID_LINE row; otherwise the
     * range runs from rows_offset_[i] to rows_offset_[i + 1].
     */
    method RowMapAsWritten(i: nat, fn: real -> real)
      requires i < |rowsOffset|
      requires AsWrittenRowMapDefined(rowsOffset, |elems|, i)
      modifies this
      ensures rowsOffset == old(rowsOffset) && colsIndex == old(colsIndex)
      ensures sizeRows == old(sizeRows) && sizeCols == old(sizeCols)
      ensures rowsOffset[i] == INVALID_LINE ==> elems == old(elems)
      ensures rowsOffset[i] != INVALID_LINE ==> elems == MapRange(old(elems), rowsOffset[i], rowsOffset[i + 1], fn)
    {
      if rowsOffset[i] == INVALID_LINE {
        return;
      }
      MapSlice(rowsOffset[i], rowsOffset[i + 1], fn);
    }

    /**
     * RowMap(i, fn), corrected: the range ends where the next row that stores
     * something starts, or at the end of elems.
     */
    method RowMap(i: nat, fn: real -> real)
      requires i < |rowsOffset|
      requires rowsOffset[i] != INVALID_LINE ==>
        0 <= rowsOffset[i] <= CudaRowEnd(rowsOffset, i, |elems|) <= |elems|
      modifies this
      ensures rowsOffset == old(rowsOffset) && colsIndex == old(colsIndex)
      ensures sizeRows == old(sizeRows) && sizeCols == old(sizeCols)
      ensures rowsOffset[i] == INVALID_LINE ==> elems == old(elems)
      ensures rowsOffset[i] != INVALID_LINE ==>
        elems == MapRange(old(elems), rowsOffset[i], CudaRowEnd(rowsOffset, i, |old(elems)|), fn)
    {
      if rowsOffset[i] == INVALID_LINE {
        return;
      }
      MapSlice(rowsOffset[i], CudaRowEnd(rowsOffset, i, |elems|), fn);
    }
  }
}
