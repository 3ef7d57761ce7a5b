/**
 * Compact storage of the strict upper triangle of a square matrix: the pairs
 * x < y < size are kept in one flat vector, row after row in lexicographic
 * order. TriangularMat owns the vector; a slice is a row or column view of
 * it; an iterator walks a slice by position.
 */
module Triangular {
  import opened Common

  // ---------------------------------------------------------------------------
  // Slot counts

  /**
   * TriangularMatElems(size): total = size * size, then total / 2 - size / 2,
   * which is the number n(n-1)/2 of pairs x < y < size.
   */
  function TriangularMatElems(size: nat): (r: nat)
    ensures r == Tri(size)
  {
    ElemsClosedForm(size);
    size * size / 2 - size / 2
  }

  /** n(n-1)/2, the expression of the index formula. */
  function Tri(n: nat): nat {
    if n == 0 then 0 else n * (n - 1) / 2
  }

  /** The slot count is n(n-1)/2 under integer division, for every n. */
  lemma ElemsClosedForm(n: nat)
    ensures n * n / 2 - n / 2 == Tri(n)
  {
    var k := n / 2;
    if n == 2 * k {
      assert n * n == 2 * (2 * k * k);
      if n > 0 {
        assert n * (n - 1) == 2 * (2 * k * k - k);
      }
    } else {
      assert n == 2 * k + 1;
      assert n * n == 2 * (2 * k * k + 2 * k) + 1;
      assert n * (n - 1) == 2 * (2 * k * k + k);
    }
  }

  lemma TriStep(m: nat)
    ensures Tri(m + 1) == Tri(m) + m
  {
    if m > 0 {
      assert (m + 1) * m == m * (m - 1) + 2 * m;
    }
  }

  lemma {:induction false} TriMonotone(a: nat, b: nat)
    requires a <= b
    ensures Tri(a) <= Tri(b)
    decreases b - a
  {
    if a < b {
      TriMonotone(a, b - 1);
      TriStep(b - 1);
    }
  }

  /** One more row and column adds `n` slots: the new column pairs with every old row. */
  lemma ElemsStep(n: nat)
    ensures TriangularMatElems(n + 1) == TriangularMatElems(n) + n
  {
    ElemsClosedForm(n);
    ElemsClosedForm(n + 1);
    TriStep(n);
  }

  /** The small sizes: no slot for sizes 0 and 1, six slots for size 4. */
  lemma ElemsSmallSizes()
    ensures TriangularMatElems(0) == 0 && TriangularMatElems(1) == 0
    ensures TriangularMatElems(2) == 1 && TriangularMatElems(4) == 6
  {
  }

  // ---------------------------------------------------------------------------
  // The index map

  predicate ValidPair(size: nat, x: nat, y: nat) {
    x < y < size
  }

  /** The slot of (x, y): n(n-1)/2 - (n-x)(n-x-1)/2 + y - x - 1 with n = size. */
  function Index(size: nat, x: nat, y: nat): (r: nat)
    requires ValidPair(size, x, y)
    ensures r < TriangularMatElems(size)
  {
    TriMonotone(size - x, size);
    TriStep(size - x - 1);
    ElemsClosedForm(size);
    Tri(size) - Tri(size - x) + y - x - 1
  }

  /** The next pair in a row takes the next slot. */
  lemma IndexNextInRow(size: nat, x: nat, y: nat)
    requires ValidPair(size, x, y) && y + 1 < size
    ensures Index(size, x, y + 1) == Index(size, x, y) + 1
  {
  }

  /** The first pair of the next row follows the last pair of a row. */
  lemma IndexNextRow(size: nat, x: nat)
    requires x + 2 < size
    ensures Index(size, x + 1, x + 2) == Index(size, x, size - 1) + 1
  {
    TriStep(size - x - 1);
  }

  /** (0, 1) is the first slot and (size-2, size-1) the last. */
  lemma IndexEnds(size: nat)
    requires size >= 2
    ensures Index(size, 0, 1) == 0
    ensures Index(size, size - 2, size - 1) == TriangularMatElems(size) - 1
  {
    ElemsClosedForm(size);
    assert Tri(2) == 1;
  }

  predicate LexLess(x1: nat, y1: nat, x2: nat, y2: nat) {
    x1 < x2 || (x1 == x2 && y1 < y2)
  }

  /** The index increases along the lexicographic order of pairs. */
  lemma IndexLexMonotone(size: nat, x1: nat, y1: nat, x2: nat, y2: nat)
    requires ValidPair(size, x1, y1) && ValidPair(size, x2, y2)
    requires LexLess(x1, y1, x2, y2)
    ensures Index(size, x1, y1) < Index(size, x2, y2)
  {
    if x1 < x2 {
      TriStep(size - x1 - 1);
      TriMonotone(size - x2, size - x1 - 1);
    }
  }

  /** Different pairs have different slots. */
  lemma IndexInjective(size: nat, x1: nat, y1: nat, x2: nat, y2: nat)
    requires ValidPair(size, x1, y1) && ValidPair(size, x2, y2)
    ensures Index(size, x1, y1) == Index(size, x2, y2) <==> x1 == x2 && y1 == y2
  {
    if LexLess(x1, y1, x2, y2) {
      IndexLexMonotone(size, x1, y1, x2, y2);
    } else if LexLess(x2, y2, x1, y1) {
      IndexLexMonotone(size, x2, y2, x1, y1);
    }
  }

  /**
   * The k-th pair in lexicographic order: walking the slots from the first,
   * each step moves right in the row or to the first pair of the next row.
   * It is the pair whose slot is k, so every slot belongs to a pair.
   */
  function PairAt(size: nat, k: nat): (p: (nat, nat))
    requires k < TriangularMatElems(size)
    ensures ValidPair(size, p.0, p.1) && Index(size, p.0, p.1) == k
    decreases k
  {
    if k == 0 then
      ElemsClosedForm(size);
      IndexEnds(size);
      (0, 1)
    else
      var q := PairAt(size, k - 1);
      if q.1 + 1 < size then
        IndexNextInRow(size, q.0, q.1);
        (q.0, q.1 + 1)
      else
        IndexEnds(size);
        assert q.0 + 2 < size;
        IndexNextRow(size, q.0);
        (q.0 + 1, q.0 + 2)
  }

  /** The pairs come out of PairAt in lexicographic order. */
  lemma PairAtOrdered(size: nat, k1: nat, k2: nat)
    requires k1 < k2 < TriangularMatElems(size)
    ensures LexLess(PairAt(size, k1).0, PairAt(size, k1).1, PairAt(size, k2).0, PairAt(size, k2).1)
  {
    var p, q := PairAt(size, k1), PairAt(size, k2);
    if !LexLess(p.0, p.1, q.0, q.1) {
      if LexLess(q.0, q.1, p.0, p.1) {
        IndexLexMonotone(size, q.0, q.1, p.0, p.1);
      }
    }
  }

  /** The element the pair (x, y) reads in a flat vector of slots. */
  function Read(elems: seq<real>, size: nat, x: nat, y: nat): real
    requires |elems| == TriangularMatElems(size) && ValidPair(size, x, y)
  {
    elems[Index(size, x, y)]
  }

  /** A write through one pair changes what that pair reads and nothing any other pair reads. */
  lemma WriteTouchesOneSlot(elems: seq<real>, size: nat, x: nat, y: nat, v: real, a: nat, b: nat)
    requires |elems| == TriangularMatElems(size)
    requires ValidPair(size, x, y) && ValidPair(size, a, b)
    ensures Read(elems[Index(size, x, y) := v], size, a, b) ==
            if a == x && b == y then v else Read(elems, size, a, b)
  {
    IndexInjective(size, x, y, a, b);
  }

  /** Reading every pair in lexicographic order gives the vector back, slot by slot. */
  lemma ReadAllInOrder(elems: seq<real>, size: nat)
    requires |elems| == TriangularMatElems(size)
    ensures forall k :: 0 <= k < |elems| ==> Read(elems, size, PairAt(size, k).0, PairAt(size, k).1) == elems[k]
  {
  }

  // ---------------------------------------------------------------------------
  // The index as written

  /** n(n-1)/2 on any integer, as the index expression computes it. */
  function TriInt(n: int): int {
    n * (n - 1) / 2
  }

  /** The index as written: the formula is fed the slot count, not the size. */
  function IndexAsWritten(size: nat, x: nat, y: nat): int
    requires ValidPair(size, x, y)
  {
    var n := TriangularMatElems(size);
    TriInt(n) - TriInt(n - x) + y - x - 1
  }

  /**
   * With size 4 there are six slots, and the pair (1, 3) is sent to slot 6,
   * past the last one; the index with n = size sends it to slot 4.
   */
  lemma IndexAsWrittenOutOfRange()
    ensures TriangularMatElems(4) == 6
    ensures IndexAsWritten(4, 1, 3) == 6
    ensures Index(4, 1, 3) == 4
  {
    assert Tri(4) == 6 && Tri(3) == 3;
  }

  // ---------------------------------------------------------------------------
  // Row and column views

  /** The pair a view's position i stands for: (axis_i, i) on a row, (i, axis_i) on a column. */
  function SlicePair(axis: Axis, axisI: nat, i: nat): (nat, nat) {
    if axis == ROW then (axisI, i) else (i, axisI)
  }

  /** Row(i)[k] and Col(k)[i] are the same slot. */
  lemma RowColSameSlot(size: nat, i: nat, k: nat)
    requires ValidPair(size, i, k)
    ensures SlicePair(ROW, i, k) == SlicePair(COL, k, i)
    ensures Index(size, SlicePair(ROW, i, k).0, SlicePair(ROW, i, k).1) == Index(size, i, k)
  {
  }

  class TriangularMat {
    var elems: seq<real>
    var size: nat

    ghost predicate Valid()
      reads this
    {
      |elems| == TriangularMatElems(size)
    }

    /** TriangularMat(size): TriangularMatElems(size) zero slots. */
    constructor(size: nat)
      ensures this.size == size && elems == seq(TriangularMatElems(size), _ => 0.0)
      ensures Valid()
    {
      this.size := size;
      elems := seq(TriangularMatElems(size), _ => 0.0);
    }

    /** Member initialisation of the (size, elems) constructor once its size check has passed. */
    constructor Store(size: nat, v: seq<real>)
      ensures this.size == size && elems == v
    {
      this.size := size;
      elems := v;
    }

    /** TriangularMat(size, elems): keeps elems when it has exactly the slot count, else invalid_argument. */
    static method FromVector(size: nat, v: seq<real>) returns (r: Result<TriangularMat>)
      ensures r.Success? <==> |v| == TriangularMatElems(size)
      ensures r.Failure? ==> r.error == InvalidArgument
      ensures r.Success? ==> fresh(r.value) && r.value.size == size && r.value.elems == v && r.value.Valid()
    {
      if |v| == TriangularMatElems(size) {
        var m := new TriangularMat.Store(size, v);
        r := Success(m);
      } else {
        r := Failure(InvalidArgument);
      }
    }

    /** operator()(x, y) read: the slot of (x, y). */
    function Get(x: nat, y: nat): (r: real)
      reads this
      requires Valid() && ValidPair(size, x, y)
      ensures r == elems[Index(size, x, y)]
    {
      Read(elems, size, x, y)
    }

    /** operator()(x, y) write: store v in the slot of (x, y); every other pair reads as before. */
    method Set(x: nat, y: nat, v: real)
      requires Valid() && ValidPair(size, x, y)
      modifies this
      ensures size == old(size) && elems == old(elems)[Index(size, x, y) := v]
      ensures Valid() && Get(x, y) == v
      ensures forall a, b :: ValidPair(size, a, b) && !(a == x && b == y) ==>
        Get(a, b) == Read(old(elems), size, a, b)
    {
      elems := elems[Index(size, x, y) := v];
      forall a, b | ValidPair(size, a, b) && !(a == x && b == y)
        ensures Get(a, b) == Read(old(elems), size, a, b)
      {
        WriteTouchesOneSlot(old(elems), size, x, y, v, a, b);
      }
    }

    /** Row(i): the view of pairs (i, k). */
    method Row(i: nat) returns (s: TriangularMatSlice)
      ensures fresh(s) && s.ref == this && s.axis == ROW && s.axisI == i
    {
      s := new TriangularMatSlice(this, ROW, i);
    }

    /** Col(i): the view of pairs (k, i). */
    method Col(i: nat) returns (s: TriangularMatSlice)
      ensures fresh(s) && s.ref == this && s.axis == COL && s.axisI == i
    {
      s := new TriangularMatSlice(this, COL, i);
    }
  }

  class TriangularMatSlice {
    const ref: TriangularMat
    const axis: Axis
    const axisI: nat

    constructor(ref: TriangularMat, axis: Axis, axisI: nat)
      ensures this.ref == ref && this.axis == axis && this.axisI == axisI
    {
      this.ref := ref;
      this.axis := axis;
      this.axisI := axisI;
    }

    /** The copy constructor: the same matrix, axis and line. */
    constructor Copy(m: TriangularMatSlice)
      ensures ref == m.ref && axis == m.axis && axisI == m.axisI
    {
      ref := m.ref;
      axis := m.axis;
      axisI := m.axisI;
    }

    /** Position i of the view denotes a pair of the matrix. */
    ghost predicate Covers(i: nat)
      reads ref
    {
      ref.Valid() && ValidPair(ref.size, SlicePair(axis, axisI, i).0, SlicePair(axis, axisI, i).1)
    }

    /** operator[](i) read: ref(axis_i, i) on a row, ref(i, axis_i) on a column. */
    function At(i: nat): (r: real)
      reads ref
      requires Covers(i)
      ensures axis == ROW ==> r == ref.Get(axisI, i)
      ensures axis == COL ==> r == ref.Get(i, axisI)
    {
      ref.Get(SlicePair(axis, axisI, i).0, SlicePair(axis, axisI, i).1)
    }

    /** operator[](i) write: store v in the pair position i denotes. */
    method Put(i: nat, v: real)
      requires Covers(i)
      modifies ref
      ensures ref.size == old(ref.size)
      ensures ref.elems == old(ref.elems)[Index(ref.size, SlicePair(axis, axisI, i).0, SlicePair(axis, axisI, i).1) := v]
      ensures Covers(i) && At(i) == v
    {
      ref.Set(SlicePair(axis, axisI, i).0, SlicePair(axis, axisI, i).1, v);
    }
  }

  class TriangularMatSliceIterator {
    const slice: TriangularMatSlice
    var pos: nat

    /** The iterator a slice hands out: position 0. */
    constructor(slice: TriangularMatSlice)
      ensures this.slice == slice && pos == 0
    {
      this.slice := slice;
      pos := 0;
    }

    /** The copy constructor: the same slice and position. */
    constructor Copy(it: TriangularMatSliceIterator)
      ensures slice == it.slice && pos == it.pos
    {
      slice := it.slice;
      pos := it.pos;
    }

    /** Prefix ++: one position on. */
    method Increment()
      modifies this
      ensures pos == old(pos) + 1
    {
      pos := pos + 1;
    }

    /** Postfix ++: a copy at the old position, and this one position on. */
    method PostIncrement() returns (tmp: TriangularMatSliceIterator)
      modifies this
      ensures fresh(tmp) && tmp.slice == slice && tmp.pos == old(pos)
      ensures pos == old(pos) + 1
    {
      tmp := new TriangularMatSliceIterator.Copy(this);
      Increment();
    }

    /** operator==: positions only; the slices are not compared. */
    predicate Equals(it: TriangularMatSliceIterator)
      reads this, it
      ensures Equals(it) <==> it.pos == pos
    {
      pos == it.pos
    }

    /** operator!=: positions only, the negation of operator==. */
    predicate NotEquals(it: TriangularMatSliceIterator)
      reads this, it
      ensures NotEquals(it) <==> !Equals(it)
    {
      pos != it.pos
    }

    /** operator*: the slice element at the current position. */
    function Deref(): (r: real)
      reads this, slice.ref
      requires slice.Covers(pos)
      ensures r == slice.At(pos)
    {
      slice.At(pos)
    }
  }
}
