/**
 * The compressed-sparse-row encoding of a nested literal: the non-zeros of
 * every row, left to right and row after row (elems), their column positions
 * (cols_index) and the position in elems where each row starts (rows_offset).
 * Decoding is the reference the encoding is proved against.
 */
module CsrEncoding {
  import opened Literal

  /** The offset the GPU-side variant gives a row that stores nothing. */
  const INVALID_LINE: int := -1

  /** The non-zeros of one row, left to right. */
  function Vals(row: seq<real>): seq<real>
    decreases |row|
  {
    if |row| == 0 then []
    else Vals(row[..|row| - 1]) + (if row[|row| - 1] != 0.0 then [row[|row| - 1]] else [])
  }

  /** The column positions of the non-zeros of one row, left to right. */
  function Cols(row: seq<real>): seq<nat>
    decreases |row|
  {
    if |row| == 0 then []
    else Cols(row[..|row| - 1]) + (if row[|row| - 1] != 0.0 then [|row| - 1] else [])
  }

  /**
   * Per row: the two sequences are parallel, one entry per non-zero; each column
   * lies inside the row and holds that value; columns strictly increase; and
   * every non-zero is listed.
   */
  lemma {:induction false} RowEncoding(row: seq<real>)
    ensures |Vals(row)| == |Cols(row)| == NonZeroCount(row)
    ensures forall j :: 0 <= j < |Cols(row)| ==>
      Cols(row)[j] < |row| && row[Cols(row)[j]] == Vals(row)[j] && Vals(row)[j] != 0.0
    ensures forall i, j :: 0 <= i < j < |Cols(row)| ==> Cols(row)[i] < Cols(row)[j]
    ensures forall c: nat :: c < |row| && row[c] != 0.0 ==> c in Cols(row)
    decreases |row|
  {
    RowLengths(row);
    if |row| > 0 {
      var p := row[..|row| - 1];
      RowEncoding(p);
      assert forall k :: 0 <= k < |p| ==> p[k] == row[k];
    }
  }

  /** One value and one column per non-zero. */
  lemma {:induction false} RowLengths(row: seq<real>)
    ensures |Vals(row)| == |Cols(row)| == NonZeroCount(row)
    decreases |row|
  {
    if |row| > 0 {
      RowLengths(row[..|row| - 1]);
    }
  }

  /** Concatenation of a sequence of parts. */
  function Flatten<T>(parts: seq<seq<T>>): seq<T>
    decreases |parts|
  {
    if |parts| == 0 then [] else Flatten(parts[..|parts| - 1]) + parts[|parts| - 1]
  }

  lemma FlattenStep<T>(parts: seq<seq<T>>, r: nat)
    requires r < |parts|
    ensures Flatten(parts[..r + 1]) == Flatten(parts[..r]) + parts[r]
  {
    assert parts[..r + 1][..r] == parts[..r];
  }

  /** Part r sits in the concatenation right after the parts before it. */
  lemma {:induction false} FlattenPart<T>(parts: seq<seq<T>>, r: nat)
    requires r < |parts|
    ensures |Flatten(parts[..r])| + |parts[r]| <= |Flatten(parts)|
    ensures Flatten(parts)[|Flatten(parts[..r])|..|Flatten(parts[..r])| + |parts[r]|] == parts[r]
    decreases |parts|
  {
    var n := |parts|;
    var q := parts[..n - 1];
    if r == n - 1 {
      assert parts[..r] == q;
    } else {
      FlattenPart(q, r);
      assert q[..r] == parts[..r];
      var s := |Flatten(parts[..r])|;
      assert Flatten(parts)[s..s + |parts[r]|] == Flatten(q)[s..s + |parts[r]|];
    }
  }

  function ValsParts(lit: seq<seq<real>>): seq<seq<real>> {
    seq(|lit|, r requires 0 <= r < |lit| => Vals(lit[r]))
  }

  function ColsParts(lit: seq<seq<real>>): seq<seq<nat>> {
    seq(|lit|, r requires 0 <= r < |lit| => Cols(lit[r]))
  }

  /** elems_: every non-zero, row-major. */
  function AllVals(lit: seq<seq<real>>): seq<real> {
    Flatten(ValsParts(lit))
  }

  /** cols_index_: the column of each entry of elems_. */
  function AllCols(lit: seq<seq<real>>): seq<nat> {
    Flatten(ColsParts(lit))
  }

  /** rows_offset_: for each row, the number of non-zeros stored before it. */
  function Offsets(lit: seq<seq<real>>): seq<nat> {
    seq(|lit|, r requires 0 <= r < |lit| => |Flatten(ValsParts(lit)[..r])|)
  }

  /** The GPU-side rows_offset_: INVALID_LINE for a row without non-zeros. */
  function CudaOffsets(lit: seq<seq<real>>): seq<int> {
    seq(|lit|, r requires 0 <= r < |lit| => if |Vals(lit[r])| == 0 then INVALID_LINE else Offsets(lit)[r])
  }

  /** Both offset arrays grow by the entry of row n. */
  lemma OffsetsStep(lit: seq<seq<real>>, n: nat)
    requires n < |lit|
    ensures Offsets(lit)[..n + 1] == Offsets(lit)[..n] + [|Flatten(ValsParts(lit)[..n])|]
    ensures CudaOffsets(lit)[..n + 1] ==
            CudaOffsets(lit)[..n] + [if |Vals(lit[n])| == 0 then INVALID_LINE else |Flatten(ValsParts(lit)[..n])|]
  {
    assert Offsets(lit)[n] == |Flatten(ValsParts(lit)[..n])|;
    assert CudaOffsets(lit)[n] == if |Vals(lit[n])| == 0 then INVALID_LINE else Offsets(lit)[n];
  }

  lemma {:induction false} PrefixSizes(lit: seq<seq<real>>, r: nat)
    requires r <= |lit|
    ensures |Flatten(ValsParts(lit)[..r])| == LiteralNonZeros(lit[..r])
    ensures |Flatten(ColsParts(lit)[..r])| == LiteralNonZeros(lit[..r])
    decreases r
  {
    if r > 0 {
      PrefixSizes(lit, r - 1);
      FlattenStep(ValsParts(lit), r - 1);
      FlattenStep(ColsParts(lit), r - 1);
      RowLengths(lit[r - 1]);
      assert lit[..r][..r - 1] == lit[..r - 1];
    }
  }

  /** Offset r is the number of non-zero literals in the rows before r; both arrays hold every non-zero. */
  lemma OffsetsCount(lit: seq<seq<real>>)
    ensures |Offsets(lit)| == |lit|
    ensures forall r :: 0 <= r < |lit| ==> Offsets(lit)[r] == LiteralNonZeros(lit[..r])
    ensures |AllVals(lit)| == |AllCols(lit)| == LiteralNonZeros(lit)
  {
    forall r | 0 <= r < |lit|
      ensures Offsets(lit)[r] == LiteralNonZeros(lit[..r])
    {
      PrefixSizes(lit, r);
    }
    PrefixSizes(lit, |lit|);
    assert ValsParts(lit)[..|lit|] == ValsParts(lit);
    assert ColsParts(lit)[..|lit|] == ColsParts(lit);
    assert lit[..|lit|] == lit;
  }

  /** Where row r ends: where the next row starts, or the end of elems for the last row. */
  function RowEnd(offs: seq<nat>, r: nat, total: nat): nat {
    if r + 1 < |offs| then offs[r + 1] else total
  }

  /** Row r occupies [Offsets[r], Offsets[r] + its non-zeros), and that is where the next row starts. */
  lemma OffsetStep(lit: seq<seq<real>>, r: nat)
    requires r < |lit|
    ensures Offsets(lit)[r] + |Vals(lit[r])| == RowEnd(Offsets(lit), r, |AllVals(lit)|)
  {
    var P := ValsParts(lit);
    FlattenStep(P, r);
    if r + 1 == |lit| {
      assert P[..r + 1] == P;
    }
  }

  /** Offsets never decrease. */
  lemma OffsetsMonotone(lit: seq<seq<real>>)
    ensures forall i, j :: 0 <= i <= j < |lit| ==> Offsets(lit)[i] <= Offsets(lit)[j]
  {
    OffsetsCount(lit);
    forall i, j | 0 <= i <= j < |lit|
      ensures LiteralNonZeros(lit[..i]) <= LiteralNonZeros(lit[..j])
    {
      NonZerosMonotone(lit, i, j);
    }
  }

  lemma {:induction false} NonZerosMonotone(lit: seq<seq<real>>, i: nat, j: nat)
    requires i <= j <= |lit|
    ensures LiteralNonZeros(lit[..i]) <= LiteralNonZeros(lit[..j])
    decreases j - i
  {
    if i < j {
      NonZerosMonotone(lit, i, j - 1);
      assert lit[..j][..j - 1] == lit[..j - 1];
    }
  }

  /** Row r's slice of elems_ and cols_index_ is exactly that row's non-zeros and their columns. */
  lemma RowSlice(lit: seq<seq<real>>, r: nat)
    requires r < |lit|
    ensures Offsets(lit)[r] <= RowEnd(Offsets(lit), r, |AllVals(lit)|) <= |AllVals(lit)| == |AllCols(lit)|
    ensures AllVals(lit)[Offsets(lit)[r]..RowEnd(Offsets(lit), r, |AllVals(lit)|)] == Vals(lit[r])
    ensures AllCols(lit)[Offsets(lit)[r]..RowEnd(Offsets(lit), r, |AllVals(lit)|)] == Cols(lit[r])
  {
    OffsetStep(lit, r);
    OffsetsCount(lit);
    FlattenPart(ValsParts(lit), r);
    FlattenPart(ColsParts(lit), r);
    PrefixSizes(lit, r);
    RowLengths(lit[r]);
  }

  // ---------------------------------------------------------------------------
  // Decoding

  /** The value stored for column c among entries [start, end), or zero. */
  function LookUp(cols: seq<nat>, elems: seq<real>, start: nat, end: nat, c: nat): real
    requires start <= end <= |cols| && end <= |elems|
    decreases end
  {
    if start == end then 0.0
    else if cols[end - 1] == c then elems[end - 1]
    else LookUp(cols, elems, start, end - 1, c)
  }

  /** LookUp sees only the entries of its range. */
  lemma {:induction false} LookUpShift(a1: seq<nat>, b1: seq<real>, s1: nat,
                                       a2: seq<nat>, b2: seq<real>, s2: nat, len: nat, c: nat)
    requires s1 + len <= |a1| && s1 + len <= |b1|
    requires s2 + len <= |a2| && s2 + len <= |b2|
    requires a1[s1..s1 + len] == a2[s2..s2 + len] && b1[s1..s1 + len] == b2[s2..s2 + len]
    ensures LookUp(a1, b1, s1, s1 + len, c) == LookUp(a2, b2, s2, s2 + len, c)
    decreases len
  {
    if len > 0 {
      assert a1[s1 + len - 1] == a1[s1..s1 + len][len - 1] == a2[s2..s2 + len][len - 1] == a2[s2 + len - 1];
      assert b1[s1 + len - 1] == b1[s1..s1 + len][len - 1] == b2[s2..s2 + len][len - 1] == b2[s2 + len - 1];
      assert a1[s1..s1 + (len - 1)] == a1[s1..s1 + len][..len - 1];
      assert a2[s2..s2 + (len - 1)] == a2[s2..s2 + len][..len - 1];
      assert b1[s1..s1 + (len - 1)] == b1[s1..s1 + len][..len - 1];
      assert b2[s2..s2 + (len - 1)] == b2[s2..s2 + len][..len - 1];
      LookUpShift(a1, b1, s1, a2, b2, s2, len - 1, c);
    }
  }

  /** Decoding a row's own encoding gives back the literal, zero past its end. */
  lemma {:induction false} LookUpRow(row: seq<real>, c: nat)
    ensures |Vals(row)| == |Cols(row)|
    ensures LookUp(Cols(row), Vals(row), 0, |Cols(row)|, c) == if c < |row| then row[c] else 0.0
    decreases |row|
  {
    RowLengths(row);
    if |row| > 0 {
      var p := row[..|row| - 1];
      var n := |Cols(p)|;
      RowLengths(p);
      LookUpRow(p, c);
      if row[|row| - 1] != 0.0 && c != |row| - 1 {
        assert Cols(row)[..n] == Cols(p) && Vals(row)[..n] == Vals(p);
        assert Cols(row)[0..0 + n] == Cols(p)[0..0 + n] && Vals(row)[0..0 + n] == Vals(p)[0..0 + n];
        LookUpShift(Cols(row), Vals(row), 0, Cols(p), Vals(p), 0, n, c);
        assert Cols(row)[n] == |row| - 1;
        assert LookUp(Cols(row), Vals(row), 0, n + 1, c) == LookUp(Cols(row), Vals(row), 0, n, c);
        if c < |p| {
          assert p[c] == row[c];
        }
      } else if row[|row| - 1] != 0.0 {
        assert Cols(row)[n] == |row| - 1 && Vals(row)[n] == row[|row| - 1];
      } else {
        assert Cols(row) == Cols(p) && Vals(row) == Vals(p);
        if c < |p| {
          assert p[c] == row[c];
        }
      }
    }
  }

  /** Row r decoded from entries [start, end), as a dense row of `width` values. */
  function DecodeRow(cols: seq<nat>, elems: seq<real>, start: nat, end: nat, width: nat): seq<real>
    requires start <= end <= |cols| && end <= |elems|
  {
    seq(width, c requires 0 <= c < width => LookUp(cols, elems, start, end, c))
  }

  /** A literal row padded with zeros to `width` values. */
  function Pad(row: seq<real>, width: nat): seq<real> {
    seq(width, c requires 0 <= c < width => if c < |row| then row[c] else 0.0)
  }

  /** Decoding row r from the whole encoding (its slice of the arrays) reproduces literal row r. */
  lemma DecodeSlice(lit: seq<seq<real>>, r: nat, start: nat, end: nat, width: nat)
    requires r < |lit|
    requires start == Offsets(lit)[r] && end == RowEnd(Offsets(lit), r, |AllVals(lit)|)
    ensures start <= end <= |AllCols(lit)| == |AllVals(lit)|
    ensures DecodeRow(AllCols(lit), AllVals(lit), start, end, width) == Pad(lit[r], width)
  {
    RowSlice(lit, r);
    RowLengths(lit[r]);
    var len := end - start;
    var cs, vs := Cols(lit[r]), Vals(lit[r]);
    assert cs[0..0 + len] == cs && vs[0..0 + len] == vs;
    forall c | 0 <= c < width
      ensures LookUp(AllCols(lit), AllVals(lit), start, end, c) == if c < |lit[r]| then lit[r][c] else 0.0
    {
      LookUpShift(AllCols(lit), AllVals(lit), start, cs, vs, 0, len, c);
      LookUpRow(lit[r], c);
    }
  }

  /** Round trip: every row decoded from (Offsets, AllCols, AllVals) is the literal row padded to MaxLen. */
  lemma DecodeRoundTrip(lit: seq<seq<real>>)
    ensures forall r :: 0 <= r < |lit| ==>
      Offsets(lit)[r] <= RowEnd(Offsets(lit), r, |AllVals(lit)|) <= |AllCols(lit)| == |AllVals(lit)| &&
      DecodeRow(AllCols(lit), AllVals(lit), Offsets(lit)[r], RowEnd(Offsets(lit), r, |AllVals(lit)|), MaxLen(lit))
        == Pad(lit[r], MaxLen(lit))
  {
    forall r | 0 <= r < |lit|
      ensures Offsets(lit)[r] <= RowEnd(Offsets(lit), r, |AllVals(lit)|) <= |AllCols(lit)| == |AllVals(lit)|
      ensures DecodeRow(AllCols(lit), AllVals(lit), Offsets(lit)[r], RowEnd(Offsets(lit), r, |AllVals(lit)|), MaxLen(lit))
        == Pad(lit[r], MaxLen(lit))
    {
      DecodeSlice(lit, r, Offsets(lit)[r], RowEnd(Offsets(lit), r, |AllVals(lit)|), MaxLen(lit));
    }
  }

  // ---------------------------------------------------------------------------
  // The GPU-side variant: INVALID_LINE offsets

  /** The first valid offset at or after row j, or `total` when there is none. */
  function NextStart(coffs: seq<int>, j: nat, total: int): int
    decreases |coffs| - j
  {
    if j >= |coffs| then total
    else if coffs[j] != INVALID_LINE then coffs[j]
    else NextStart(coffs, j + 1, total)
  }

  /** INVALID_LINE marks exactly the rows without non-zeros; every other row keeps its running count. */
  lemma CudaOffsetsMeaning(lit: seq<seq<real>>)
    ensures |CudaOffsets(lit)| == |lit|
    ensures forall r :: 0 <= r < |lit| ==> (CudaOffsets(lit)[r] == INVALID_LINE <==> NonZeroCount(lit[r]) == 0)
    ensures forall r :: 0 <= r < |lit| && CudaOffsets(lit)[r] != INVALID_LINE ==>
      CudaOffsets(lit)[r] == LiteralNonZeros(lit[..r])
  {
    OffsetsCount(lit);
    forall r | 0 <= r < |lit| ensures |Vals(lit[r])| == NonZeroCount(lit[r]) {
      RowEncoding(lit[r]);
    }
  }

  /** Skipping INVALID_LINE rows lands on the running count of row j (the end of elems past the last row). */
  lemma {:induction false} NextStartIsOffset(lit: seq<seq<real>>, j: nat)
    requires j <= |lit|
    ensures NextStart(CudaOffsets(lit), j, |AllVals(lit)|) == if j < |lit| then Offsets(lit)[j] else |AllVals(lit)|
    decreases |lit| - j
  {
    if j < |lit| && |Vals(lit[j])| == 0 {
      NextStartIsOffset(lit, j + 1);
      OffsetStep(lit, j);
    }
  }

  /** Where the GPU-side row i ends: at the next valid offset after it. */
  function CudaRowEnd(coffs: seq<int>, i: nat, total: int): int {
    NextStart(coffs, i + 1, total)
  }

  /**
   * For a row that stores something, [offset, CudaRowEnd) is exactly the row's
   * slice; decoding it reproduces the literal row.
   */
  lemma CudaRowSlice(lit: seq<seq<real>>, i: nat)
    requires i < |lit|
    requires CudaOffsets(lit)[i] != INVALID_LINE
    ensures 0 <= CudaOffsets(lit)[i] <= CudaRowEnd(CudaOffsets(lit), i, |AllVals(lit)|) <= |AllVals(lit)| == |AllCols(lit)|
    ensures CudaOffsets(lit)[i] == Offsets(lit)[i]
    ensures CudaRowEnd(CudaOffsets(lit), i, |AllVals(lit)|) == RowEnd(Offsets(lit), i, |AllVals(lit)|)
    ensures AllVals(lit)[Offsets(lit)[i]..RowEnd(Offsets(lit), i, |AllVals(lit)|)] == Vals(lit[i])
    ensures DecodeRow(AllCols(lit), AllVals(lit), Offsets(lit)[i], RowEnd(Offsets(lit), i, |AllVals(lit)|), MaxLen(lit))
      == Pad(lit[i], MaxLen(lit))
  {
    NextStartIsOffset(lit, i + 1);
    RowSlice(lit, i);
    DecodeSlice(lit, i, Offsets(lit)[i], RowEnd(Offsets(lit), i, |AllVals(lit)|), MaxLen(lit));
  }

  /** An INVALID_LINE row decodes to zeros: the literal row has no non-zero. */
  lemma CudaInvalidRowIsZero(lit: seq<seq<real>>, i: nat)
    requires i < |lit|
    requires CudaOffsets(lit)[i] == INVALID_LINE
    ensures forall c :: 0 <= c < |lit[i]| ==> lit[i][c] == 0.0
  {
    RowEncoding(lit[i]);
  }
}
