/**
 * SimMat: a similarity matrix kept in triangular storage, with a fold over a
 * list of indexes along one of its rows.
 */
module SimMatrix {
  import opened Common
  import opened Triangular

  /** Every index of idx lies to the right of `axis` in its row. */
  predicate InRow(size: nat, axis: nat, idx: seq<nat>) {
    forall j :: 0 <= j < |idx| ==> ValidPair(size, axis, idx[j])
  }

  /**
   * The left fold of Reduce: from acc, for each k of idx in order,
   * acc := fn(k, row_axis[k], acc), where row_axis[k] reads the pair (axis, k).
   */
  function RowFold(fn: (nat, real, seq<real>) -> seq<real>, elems: seq<real>, size: nat,
                   axis: nat, idx: seq<nat>, acc: seq<real>): seq<real>
    requires |elems| == TriangularMatElems(size) && InRow(size, axis, idx)
    decreases |idx|
  {
    if |idx| == 0 then acc
    else
      var k := idx[|idx| - 1];
      fn(k, Read(elems, size, axis, k), RowFold(fn, elems, size, axis, idx[..|idx| - 1], acc))
  }

  /** Folding a concatenation is folding the second part from the first part's result. */
  lemma {:induction false} RowFoldConcat(fn: (nat, real, seq<real>) -> seq<real>, elems: seq<real>, size: nat,
                                         axis: nat, a: seq<nat>, b: seq<nat>, acc: seq<real>)
    requires |elems| == TriangularMatElems(size) && InRow(size, axis, a) && InRow(size, axis, b)
    ensures InRow(size, axis, a + b)
    ensures RowFold(fn, elems, size, axis, a + b, acc) ==
            RowFold(fn, elems, size, axis, b, RowFold(fn, elems, size, axis, a, acc))
    decreases |b|
  {
    assert InRow(size, axis, a + b) by {
      forall j | 0 <= j < |a + b|
        ensures ValidPair(size, axis, (a + b)[j])
      {
        if j < |a| {
          assert (a + b)[j] == a[j];
        } else {
          assert (a + b)[j] == b[j - |a|];
        }
      }
    }
    if |b| == 0 {
      assert a + b == a;
    } else {
      var b' := b[..|b| - 1];
      RowFoldConcat(fn, elems, size, axis, a, b', acc);
      assert (a + b)[..|a + b| - 1] == a + b';
      assert (a + b)[|a + b| - 1] == b[|b| - 1];
    }
  }

  /** The fold depends only on what row `axis` holds at the listed indexes. */
  lemma {:induction false} RowFoldReadsOnlyRow(fn: (nat, real, seq<real>) -> seq<real>,
                                               e1: seq<real>, e2: seq<real>, size: nat,
                                               axis: nat, idx: seq<nat>, acc: seq<real>)
    requires |e1| == TriangularMatElems(size) && |e2| == TriangularMatElems(size)
    requires InRow(size, axis, idx)
    requires forall j :: 0 <= j < |idx| ==> Read(e1, size, axis, idx[j]) == Read(e2, size, axis, idx[j])
    ensures RowFold(fn, e1, size, axis, idx, acc) == RowFold(fn, e2, size, axis, idx, acc)
    decreases |idx|
  {
    if |idx| > 0 {
      var p := idx[..|idx| - 1];
      assert forall j :: 0 <= j < |p| ==> p[j] == idx[j];
      RowFoldReadsOnlyRow(fn, e1, e2, size, axis, p, acc);
    }
  }

  class SimMat {
    var mat: TriangularMat

    ghost predicate Valid()
      reads this, mat
    {
      mat.Valid()
    }

    /** SimMat(n): an n-by-n similarity matrix with every pair zero. */
    constructor(n: nat)
      ensures fresh(mat) && mat.size == n && mat.elems == Zeros(TriangularMatElems(n))
      ensures Valid()
    {
      mat := new TriangularMat(n);
    }

    /** Member initialisation once the triangular matrix has been built. */
    constructor Wrap(m: TriangularMat)
      ensures mat == m
    {
      mat := m;
    }

    /**
     * SimMat(size, elems): the triangular matrix built from elems; any failure
     * of that construction is reported as BAD_ALLOC.
     */
    static method FromVector(size: nat, v: seq<real>) returns (r: Result<SimMat>)
      ensures r.Success? <==> |v| == TriangularMatElems(size)
      ensures r.Failure? ==> r.error == BadAlloc
      ensures r.Success? ==> fresh(r.value) && fresh(r.value.mat) && r.value.Valid() &&
                             r.value.mat.size == size && r.value.mat.elems == v
    {
      var t := TriangularMat.FromVector(size, v);
      if t.Failure? {
        r := Failure(BadAlloc);
      } else {
        var s := new SimMat.Wrap(t.value);
        r := Success(s);
      }
    }

    /** Element(x, y) read: exactly the triangular element of (x, y). */
    function Element(x: nat, y: nat): (r: real)
      reads this, mat
      requires Valid() && ValidPair(mat.size, x, y)
      ensures r == mat.Get(x, y)
    {
      mat.Get(x, y)
    }

    /** Element(x, y) write: store v for (x, y). */
    method SetElement(x: nat, y: nat, v: real)
      requires Valid() && ValidPair(mat.size, x, y)
      modifies mat
      ensures mat.size == old(mat.size) && mat.elems == old(mat.elems)[Index(mat.size, x, y) := v]
      ensures Valid() && Element(x, y) == v
    {
      mat.Set(x, y, v);
    }

    /**
     * Reduce(fn, indexes, axis): take the row view `axis` and fold
     * fn(k, row[k], acc) over the indexes in order, from the zero array of
     * n values. The matrix is only read.
     */
    method Reduce(fn: (nat, real, seq<real>) -> seq<real>, indexes: seq<nat>, axis: nat, n: nat)
      returns (rets: seq<real>)
      requires Valid() && InRow(mat.size, axis, indexes)
      ensures rets == RowFold(fn, mat.elems, mat.size, axis, indexes, Zeros(n))
    {
      var simRow := mat.Row(axis);
      rets := Zeros(n);
      var j := 0;
      while j < |indexes|
        invariant 0 <= j <= |indexes|
        invariant InRow(mat.size, axis, indexes[..j])
        invariant rets == RowFold(fn, mat.elems, mat.size, axis, indexes[..j], Zeros(n))
      {
        var k := indexes[j];
        assert indexes[..j + 1][..j] == indexes[..j];
        rets := fn(k, simRow.At(k), rets);
        j := j + 1;
      }
      assert indexes[..|indexes|] == indexes;
    }
  }

  /** With no indexes Reduce gives the zero array. */
  lemma ReduceEmpty(fn: (nat, real, seq<real>) -> seq<real>, elems: seq<real>, size: nat, axis: nat, n: nat)
    requires |elems| == TriangularMatElems(size)
    ensures RowFold(fn, elems, size, axis, [], Zeros(n)) == Zeros(n)
  {
  }
}
