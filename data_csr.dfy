/**
 * DataCsr: the compressed-sparse-row matrix (elems, cols_index and one start
 * offset per row). The two copies of its constructors are the same code and
 * share this model.
 */
module DataCsrMat {
  import opened Literal
  import opened CsrEncoding

  class DataCsr {
    var rowsOffset: seq<nat>
    var colsIndex: seq<nat>
    var elems: seq<real>
    var sizeRows: nat
    var sizeCols: nat

    /** DataCsr(): nothing stored, no rows, no columns. */
    constructor Empty()
      ensures rowsOffset == [] && colsIndex == [] && elems == []
      ensures sizeRows == 0 && sizeCols == 0
    {
      rowsOffset := [];
      colsIndex := [];
      elems := [];
      sizeRows := 0;
      sizeCols := 0;
    }

    /**
     * DataCsr({...}): for every row push the running count of stored values,
     * then push each non-zero and its column; SizeCols is the longest row.
     */
    constructor FromList(lit: seq<seq<real>>)
      ensures rowsOffset == Offsets(lit)
      ensures colsIndex == AllCols(lit) && elems == AllVals(lit)
      ensures sizeRows == |lit| && sizeCols == MaxLen(lit)
    {
      var offs: seq<nat> := [];
      var cols: seq<nat> := [];
      var vals: seq<real> := [];
      var i := 0;
      var maxCol := 0;
      var numRows := 0;
      while numRows < |lit|
        invariant 0 <= numRows <= |lit|
        invariant |offs| == numRows
        invariant offs == Offsets(lit)[..numRows]
        invariant vals == Flatten(ValsParts(lit)[..numRows]) && cols == Flatten(ColsParts(lit)[..numRows])
        invariant i == |vals|
        invariant maxCol == MaxLen(lit[..numRows])
      {
        var row := lit[numRows];
        ListRowStep(lit, numRows);
        offs := offs + [i];
        vals, cols, maxCol := ScanRow(row, vals, cols, maxCol);
        i := |vals|;
        numRows := numRows + 1;
      }
      assert lit[..|lit|] == lit;
      assert Offsets(lit)[..|lit|] == Offsets(lit);
      assert ValsParts(lit)[..|lit|] == ValsParts(lit);
      assert ColsParts(lit)[..|lit|] == ColsParts(lit);
      rowsOffset := offs;
      colsIndex := cols;
      elems := vals;
      sizeCols := maxCol;
      sizeRows := numRows;
    }

    /** DataCsr(rows, cols): rows + 1 zero offsets and nothing stored. */
    constructor Dims(r: nat, c: nat)
      ensures rowsOffset == seq(r + 1, _ => 0)
      ensures colsIndex == [] && elems == []
      ensures sizeRows == r && sizeCols == c
    {
      rowsOffset := seq(r + 1, _ => 0);
      colsIndex := [];
      elems := [];
      sizeRows := r;
      sizeCols := c;
    }
  }

  /** What one more row adds to the list constructor's running state. */
  lemma ListRowStep(lit: seq<seq<real>>, n: nat)
    requires n < |lit|
    ensures Flatten(ValsParts(lit)[..n + 1]) == Flatten(ValsParts(lit)[..n]) + Vals(lit[n])
    ensures Flatten(ColsParts(lit)[..n + 1]) == Flatten(ColsParts(lit)[..n]) + Cols(lit[n])
    ensures MaxLen(lit[..n + 1]) == Max(MaxLen(lit[..n]), |lit[n]|)
    ensures Offsets(lit)[..n + 1] == Offsets(lit)[..n] + [|Flatten(ValsParts(lit)[..n])|]
    ensures CudaOffsets(lit)[..n + 1] ==
            CudaOffsets(lit)[..n] + [if |Vals(lit[n])| == 0 then INVALID_LINE else |Flatten(ValsParts(lit)[..n])|]
  {
    MaxLenStep(lit, n);
    FlattenStep(ValsParts(lit), n);
    FlattenStep(ColsParts(lit), n);
    OffsetsStep(lit, n);
  }

  /**
   * The inner scan of the list constructor: append each non-zero of `row` and
   * its column, and raise maxCol to every column count reached.
   */
  method ScanRow(row: seq<real>, vals0: seq<real>, cols0: seq<nat>, maxCol0: nat)
    returns (vals: seq<real>, cols: seq<nat>, maxCol: nat)
    ensures vals == vals0 + Vals(row) && cols == cols0 + Cols(row)
    ensures maxCol == Max(maxCol0, |row|)
  {
    vals, cols, maxCol := vals0, cols0, maxCol0;
    var icol := 0;
    while icol < |row|
      invariant 0 <= icol <= |row|
      invariant vals == vals0 + Vals(row[..icol]) && cols == cols0 + Cols(row[..icol])
      invariant maxCol == Max(maxCol0, icol)
    {
      assert row[..icol + 1][..icol] == row[..icol];
      if row[icol] != 0.0 {
        vals := vals + [row[icol]];
        cols := cols + [icol];
      }
      icol := icol + 1;
      if icol > maxCol {
        maxCol := icol;
      }
    }
    assert row[..|row|] == row;
  }

  function Max(a: nat, b: nat): nat {
    if a < b then b else a
  }
}
