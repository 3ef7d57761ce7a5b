/**
 * Predict: the weighted terms of a collaborative-filtering prediction. For a
 * line ri and a list of indexes, a user function folds, index after index, the
 * rating read from the data matrix and the similarity read from the
 * similarity matrix into a fixed-size array of accumulators.
 */
module Prediction {
  import opened Common
  import opened SparseRows

  /** A similarity lookup sim(x, y). */
  type Sim = (nat, nat) -> real

  /** The user function: (index, data element, similarity element, accumulators) to new accumulators. */
  type TermFn = (nat, real, real, seq<real>) -> seq<real>

  /** The data element for index k: data(ri, k) on the ROW axis, data(k, ri) otherwise. */
  function DataElem(axis: Axis, data: Mat, ri: nat, k: nat): (r: Result<real>)
    ensures axis == ROW ==> r == data.Element(ri, k)
    ensures axis == COL ==> r == data.Element(k, ri)
  {
    if axis == ROW then data.Element(ri, k) else data.Element(k, ri)
  }

  /**
   * The left fold of Terms over idx from acc: for each k in order,
   * acc := fn(k, data element, sim(k, ri), acc). A failing data read ends the
   * fold with its error.
   */
  function TermsFold(axis: Axis, data: Mat, sim: Sim, ri: nat, idx: seq<nat>, fn: TermFn, acc: seq<real>): Result<seq<real>>
    decreases |idx|
  {
    if |idx| == 0 then Success(acc)
    else
      var prev :- TermsFold(axis, data, sim, ri, idx[..|idx| - 1], fn, acc);
      var k := idx[|idx| - 1];
      var d :- DataElem(axis, data, ri, k);
      Success(fn(k, d, sim(k, ri), prev))
  }

  /** The fold succeeds exactly when every data read along idx succeeds. */
  lemma {:induction false} TermsSuccess(axis: Axis, data: Mat, sim: Sim, ri: nat, idx: seq<nat>, fn: TermFn, acc: seq<real>)
    ensures TermsFold(axis, data, sim, ri, idx, fn, acc).Success? <==>
            forall j :: 0 <= j < |idx| ==> DataElem(axis, data, ri, idx[j]).Success?
    decreases |idx|
  {
    if |idx| > 0 {
      var p := idx[..|idx| - 1];
      TermsSuccess(axis, data, sim, ri, p, fn, acc);
      assert forall j :: 0 <= j < |p| ==> p[j] == idx[j];
    }
  }

  /** A failure within a prefix is the failure of the whole fold. */
  lemma {:induction false} TermsFailurePrefix(axis: Axis, data: Mat, sim: Sim, ri: nat, idx: seq<nat>, j: nat, fn: TermFn, acc: seq<real>)
    requires j <= |idx|
    requires TermsFold(axis, data, sim, ri, idx[..j], fn, acc).Failure?
    ensures TermsFold(axis, data, sim, ri, idx, fn, acc) == TermsFold(axis, data, sim, ri, idx[..j], fn, acc)
    decreases |idx| - j
  {
    if j < |idx| {
      var p := idx[..|idx| - 1];
      assert p[..j] == idx[..j];
      TermsFailurePrefix(axis, data, sim, ri, p, j, fn, acc);
    } else {
      assert idx[..j] == idx;
    }
  }

  /** One index more: a successful prefix and a successful read give one more step of fn. */
  lemma TermsLast(axis: Axis, data: Mat, sim: Sim, ri: nat, idx: seq<nat>, fn: TermFn, acc: seq<real>)
    requires |idx| > 0
    requires TermsFold(axis, data, sim, ri, idx[..|idx| - 1], fn, acc).Success?
    requires DataElem(axis, data, ri, idx[|idx| - 1]).Success?
    ensures TermsFold(axis, data, sim, ri, idx, fn, acc) ==
            Success(fn(idx[|idx| - 1], DataElem(axis, data, ri, idx[|idx| - 1]).value, sim(idx[|idx| - 1], ri),
                       TermsFold(axis, data, sim, ri, idx[..|idx| - 1], fn, acc).value))
  {
  }

  // ---------------------------------------------------------------------------
  // The partition combiner

  /** The combiner of partial results: the element-wise sum of two arrays. */
  function Combine(a: seq<real>, b: seq<real>): (c: seq<real>)
    ensures |c| == |a|
  {
    seq(|a|, i requires 0 <= i < |a| => a[i] + (if i < |b| then b[i] else 0.0))
  }

  /** On arrays of one size the combiner is commutative and associative, with the zero array as identity. */
  lemma CombineLaws(a: seq<real>, b: seq<real>, c: seq<real>)
    requires |a| == |b| == |c|
    ensures Combine(a, b) == Combine(b, a)
    ensures Combine(Combine(a, b), c) == Combine(a, Combine(b, c))
    ensures Combine(a, Zeros(|a|)) == a && Combine(Zeros(|a|), a) == a
  {
    assert Combine(a, b) == Combine(b, a);
    assert Combine(Combine(a, b), c) == Combine(a, Combine(b, c));
    assert Combine(a, Zeros(|a|)) == a;
    assert Combine(Zeros(|a|), a) == a;
  }

  /** The user functions of the filters: a term array for (k, v1, v2), added to the accumulators. */
  function Accumulate(g: (nat, real, real) -> seq<real>): TermFn {
    (k: nat, v1: real, v2: real, acc: seq<real>) => Combine(g(k, v1, v2), acc)
  }

  /** Every term array g produces has n values. */
  ghost predicate TermsOfSize(g: (nat, real, real) -> seq<real>, n: nat) {
    forall k, v1, v2 :: |g(k, v1, v2)| == n
  }

  lemma {:induction false} AccumulateSize(axis: Axis, data: Mat, sim: Sim, ri: nat, idx: seq<nat>,
                                          g: (nat, real, real) -> seq<real>, n: nat)
    requires TermsOfSize(g, n)
    ensures TermsFold(axis, data, sim, ri, idx, Accumulate(g), Zeros(n)).Success? ==>
            |TermsFold(axis, data, sim, ri, idx, Accumulate(g), Zeros(n)).value| == n
    decreases |idx|
  {
    var r := TermsFold(axis, data, sim, ri, idx, Accumulate(g), Zeros(n));
    if |idx| > 0 && r.Success? {
      AccumulateSize(axis, data, sim, ri, idx[..|idx| - 1], g, n);
      var k := idx[|idx| - 1];
      var d := DataElem(axis, data, ri, k).value;
      var s := sim(k, ri);
      assert |g(k, d, s)| == n;
      assert r.value == Combine(g(k, d, s), TermsFold(axis, data, sim, ri, idx[..|idx| - 1], Accumulate(g), Zeros(n)).value);
    }
  }

  /**
   * Terms over a + b is the combination of the terms over a and over b: with
   * an accumulating user function, any split of the indexes into partitions
   * combined by the element-wise sum gives the serial result.
   */
  lemma {:induction false} TermsPartition(axis: Axis, data: Mat, sim: Sim, ri: nat, a: seq<nat>, b: seq<nat>,
                                          g: (nat, real, real) -> seq<real>, n: nat)
    requires TermsOfSize(g, n)
    requires TermsFold(axis, data, sim, ri, a + b, Accumulate(g), Zeros(n)).Success?
    ensures TermsFold(axis, data, sim, ri, a, Accumulate(g), Zeros(n)).Success?
    ensures TermsFold(axis, data, sim, ri, b, Accumulate(g), Zeros(n)).Success?
    ensures TermsFold(axis, data, sim, ri, a + b, Accumulate(g), Zeros(n)).value ==
            Combine(TermsFold(axis, data, sim, ri, a, Accumulate(g), Zeros(n)).value,
                    TermsFold(axis, data, sim, ri, b, Accumulate(g), Zeros(n)).value)
    decreases |b|
  {
    var fn := Accumulate(g);
    AccumulateSize(axis, data, sim, ri, a, g, n);
    if |b| == 0 {
      assert a + b == a;
      var ta := TermsFold(axis, data, sim, ri, a, fn, Zeros(n)).value;
      CombineLaws(ta, ta, ta);
    } else {
      var b' := b[..|b| - 1];
      var k := b[|b| - 1];
      assert (a + b)[..|a + b| - 1] == a + b';
      assert (a + b)[|a + b| - 1] == k;
      TermsPartition(axis, data, sim, ri, a, b', g, n);
      AccumulateSize(axis, data, sim, ri, b', g, n);
      var ta := TermsFold(axis, data, sim, ri, a, fn, Zeros(n)).value;
      var tb' := TermsFold(axis, data, sim, ri, b', fn, Zeros(n)).value;
      var d := DataElem(axis, data, ri, k).value;
      var s := sim(k, ri);
      var t := g(k, d, s);
      assert |t| == n;
      assert TermsFold(axis, data, sim, ri, b, fn, Zeros(n)).value == Combine(t, tb');
      CombineLaws(t, ta, tb');
      CombineLaws(ta, t, tb');
      calc {
        TermsFold(axis, data, sim, ri, a + b, fn, Zeros(n)).value;
        Combine(t, Combine(ta, tb'));
        Combine(Combine(t, ta), tb');
        Combine(Combine(ta, t), tb');
        Combine(ta, Combine(t, tb'));
      }
    }
  }

  class Predict {
    const axis: Axis

    /** Predict(axis): the axis is fixed here and never changes. */
    constructor(axis: Axis)
      ensures this.axis == axis
    {
      this.axis := axis;
    }

    /**
     * Terms<n>(data, sim, ri, indexes, fn): start from the zero array of n
     * values and, for each index in order, fold fn over the data element and
     * the similarity sim(k, ri). A failing data read is reported.
     */
    method Terms(data: Mat, sim: Sim, ri: nat, indexes: seq<nat>, fn: TermFn, n: nat) returns (r: Result<seq<real>>)
      ensures r == TermsFold(axis, data, sim, ri, indexes, fn, Zeros(n))
    {
      var rets := Zeros(n);
      var j := 0;
      while j < |indexes|
        invariant 0 <= j <= |indexes|
        invariant TermsFold(axis, data, sim, ri, indexes[..j], fn, Zeros(n)) == Success(rets)
      {
        var k := indexes[j];
        assert indexes[..j + 1][..j] == indexes[..j];
        var dataElem := 0.0;
        var e: Result<real>;
        if axis == ROW {
          e := data.Element(ri, k);
        } else {
          e := data.Element(k, ri);
        }
        if e.Failure? {
          TermsFailurePrefix(axis, data, sim, ri, indexes, j + 1, fn, Zeros(n));
          return Failure(e.error);
        }
        dataElem := e.value;
        var simElem := sim(k, ri);
        rets := fn(k, dataElem, simElem, rets);
        j := j + 1;
      }
      assert indexes[..|indexes|] == indexes;
      r := Success(rets);
    }

    /** Pred(arr, fn): the final prediction is fn applied to the term array. */
    function Pred(arr: seq<real>, fn: seq<real> -> real): real {
      fn(arr)
    }
  }
}

/** The prediction test: a 5-by-5 rating matrix and its similarities. */
module PredictionExample {
  import opened Common
  import opened Literal
  import opened SparseRows
  import opened Prediction

  function RatingLiteral(): seq<seq<real>> {
    [[5.0, 3.0, 4.0, 4.0, 0.0],
     [3.0, 1.0, 2.0, 3.0, 3.0],
     [4.0, 3.0, 4.0, 3.0, 5.0],
     [3.0, 3.0, 1.0, 5.0, 4.0],
     [1.0, 5.0, 5.0, 2.0, 1.0]]
  }

  /** The similarities of the test, row-major; zero outside the 5-by-5 range. */
  function TestSim(x: nat, y: nat): real {
    var vec := [1.0, 0.839181, 0.606339, 0.0, -0.768095,
                0.839181, 1.0, 0.467707, 0.489956, -0.900149,
                0.606339, 0.467707, 1.0, -0.161165, -0.46657,
                0.0, 0.489956, -0.161165, 1.0, -0.641503,
                -0.768095, -0.900149, -0.46657, -0.641503, 1.0];
    if x < 5 && y < 5 then vec[5 * x + y] else 0.0
  }

  /** The test's user function: accumulate v1, v2 and v1 + v2. */
  function TestTerms(k: nat, v1: real, v2: real): seq<real> {
    [v1, v2, v1 + v2]
  }

  /** A fold over two indexes is two steps of the user function. */
  lemma TwoStepFold(axis: Axis, data: Mat, sim: Sim, ri: nat, k1: nat, k2: nat, fn: TermFn, acc: seq<real>)
    requires DataElem(axis, data, ri, k1).Success? && DataElem(axis, data, ri, k2).Success?
    ensures TermsFold(axis, data, sim, ri, [k1, k2], fn, acc) ==
            Success(fn(k2, DataElem(axis, data, ri, k2).value, sim(k2, ri),
                       fn(k1, DataElem(axis, data, ri, k1).value, sim(k1, ri), acc)))
  {
    assert [k1, k2][..1] == [k1];
    assert [k1][..0] == [];
    assert TermsFold(axis, data, sim, ri, [k1], fn, acc) ==
           Success(fn(k1, DataElem(axis, data, ri, k1).value, sim(k1, ri), acc));
  }

  /** The ratings of line 0 at columns 1 and 2. */
  lemma LineZeroReads()
    ensures DataElem(ROW, FromLiteral(RatingLiteral()), 0, 1) == Success(3.0)
    ensures DataElem(ROW, FromLiteral(RatingLiteral()), 0, 2) == Success(4.0)
  {
    var lit := RatingLiteral();
    assert |lit[0]| == 5;
    ElementOfLiteral(lit, 0, 1);
    ElementOfLiteral(lit, 0, 2);
  }

  /** Line 0 with indexes {1, 2}, for any data and similarity holding the test's values there. */
  lemma TermsOfLineZero(data: Mat, sim: Sim)
    requires DataElem(ROW, data, 0, 1) == Success(3.0) && DataElem(ROW, data, 0, 2) == Success(4.0)
    requires sim(1, 0) == 0.839181 && sim(2, 0) == 0.606339
    ensures TermsFold(ROW, data, sim, 0, [1, 2], Accumulate(TestTerms), Zeros(3)) ==
            Success([7.0, 0.839181 + 0.606339, 7.0 + 0.839181 + 0.606339])
  {
    var fn := Accumulate(TestTerms);
    TwoStepFold(ROW, data, sim, 0, 1, 2, fn, Zeros(3));
    var t1 := [3.0, 0.839181, 3.0 + 0.839181];
    assert TestTerms(1, 3.0, 0.839181) == t1;
    assert fn(1, 3.0, 0.839181, Zeros(3)) == Combine(t1, Zeros(3)) == t1;
    var t2 := [4.0, 0.606339, 4.0 + 0.606339];
    assert TestTerms(2, 4.0, 0.606339) == t2;
    assert fn(2, 4.0, 0.606339, t1) == Combine(t2, t1);
    assert Combine(t2, t1) == [7.0, 0.839181 + 0.606339, 7.0 + 0.839181 + 0.606339];
  }

  /** Line 0 on ROW with indexes {1, 2}: the ratings sum to 7, the similarities to 0.839181 + 0.606339. */
  lemma TestTermsOfLineZero()
    ensures TermsFold(ROW, FromLiteral(RatingLiteral()), TestSim, 0, [1, 2], Accumulate(TestTerms), Zeros(3)) ==
            Success([7.0, 0.839181 + 0.606339, 7.0 + 0.839181 + 0.606339])
  {
    LineZeroReads();
    assert TestSim(1, 0) == 0.839181 && TestSim(2, 0) == 0.606339;
    TermsOfLineZero(FromLiteral(RatingLiteral()), TestSim);
  }
}
