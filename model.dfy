/**
 * The collaborative-filtering models: a model over a rating matrix and an
 * axis that becomes fitted once its correlation has been computed, and the
 * user-based filter whose prediction for line i is the line's average plus a
 * weighted deviation over a list of neighbour indexes.
 */
module Models {
  import opened Common
  import opened SparseRows
  import opened Prediction

  class CollaborativeModel {
    const data: Mat
    const axis: Axis
    var calculated: bool
    var similarity: Sim

    /** CollaborativeModel(data, axis): not yet fitted; sim0 is what the correlation holds before a fit. */
    constructor(data: Mat, axis: Axis, sim0: Sim)
      ensures this.data == data && this.axis == axis
      ensures !calculated && similarity == sim0
    {
      this.data := data;
      this.axis := axis;
      calculated := false;
      similarity := sim0;
    }

    /** Similarity(): the correlation's similarity matrix, as the last Fit left it. */
    function Similarity(): (s: Sim)
      reads this
      ensures s == similarity
    {
      similarity
    }

    /** NeighborsSimilarity(): the same similarity matrix as Similarity(). */
    function NeighborsSimilarity(): (s: Sim)
      reads this
      ensures s == Similarity()
    {
      similarity
    }

    /** Fit(): the correlation is computed (its result is the parameter) and the model is marked fitted. */
    method Fit(fitted: Sim)
      modifies this
      ensures calculated && similarity == fitted
    {
      similarity := fitted;
      calculated := true;
    }

    /** GetAxis(): the axis given at construction. */
    function GetAxis(): (a: Axis)
      ensures a == axis
    {
      axis
    }

    /** PredTerms<n>(pred, i, indexes, fn): the prediction terms of line i over this model's data and similarity. */
    method PredTerms(pred: Predict, i: nat, indexes: seq<nat>, fn: TermFn, n: nat) returns (r: Result<seq<real>>)
      ensures r == TermsFold(pred.axis, data, Similarity(), i, indexes, fn, Zeros(n))
    {
      r := pred.Terms(data, Similarity(), i, indexes, fn, n);
    }
  }

  /** avgs[k], or zero past the end of avgs. */
  function AvgAt(avgs: seq<real>, k: nat): real {
    if k < |avgs| then avgs[k] else 0.0
  }

  /** The weighted deviation of neighbour k: v1 * (v2 - avgs[k]). */
  function Deviation(avgs: seq<real>, k: nat, v1: real, v2: real): real {
    v1 * (v2 - AvgAt(avgs, k))
  }

  /** The user filter's term for neighbour k: its weighted deviation and v1. */
  function UserTerm(avgs: seq<real>, k: nat, v1: real, v2: real): seq<real> {
    [Deviation(avgs, k, v1, v2), v1]
  }

  function UserTerms(avgs: seq<real>): (nat, real, real) -> seq<real> {
    (k: nat, v1: real, v2: real) => UserTerm(avgs, k, v1, v2)
  }

  lemma UserTermsAt(avgs: seq<real>, k: nat, v1: real, v2: real)
    ensures UserTerms(avgs)(k, v1, v2) == [v1 * (v2 - AvgAt(avgs, k)), v1]
  {
  }

  /**
   * The two sums the user filter's terms accumulate over idx: the sum of
   * v1 * (v2 - avgs[k]) and the sum of v1, with v1 the data element and v2
   * the similarity of each index k.
   */
  function UserSums(axis: Axis, data: Mat, sim: Sim, avgs: seq<real>, ri: nat, idx: seq<nat>): Result<(real, real)>
    decreases |idx|
  {
    if |idx| == 0 then Success((0.0, 0.0))
    else
      var prev := UserSums(axis, data, sim, avgs, ri, idx[..|idx| - 1]);
      var k := idx[|idx| - 1];
      var v1 := DataElem(axis, data, ri, k);
      if prev.Failure? then Failure(prev.error)
      else if v1.Failure? then Failure(v1.error)
      else Success((prev.value.0 + Deviation(avgs, k, v1.value, sim(k, ri)), prev.value.1 + v1.value))
  }

  /** One accumulation step of the user filter's terms on the two running sums. */
  lemma UserStep(avgs: seq<real>, k: nat, v1: real, v2: real, a: real, b: real)
    ensures Accumulate(UserTerms(avgs))(k, v1, v2, [a, b]) == [a + Deviation(avgs, k, v1, v2), b + v1]
  {
    var t := UserTerms(avgs)(k, v1, v2);
    assert t == [Deviation(avgs, k, v1, v2), v1];
    assert Accumulate(UserTerms(avgs))(k, v1, v2, [a, b]) == Combine(t, [a, b]);
  }

  /** One index more: a successful prefix and a successful read add the last index's two terms. */
  lemma UserSumsLast(axis: Axis, data: Mat, sim: Sim, avgs: seq<real>, ri: nat, idx: seq<nat>)
    requires |idx| > 0
    requires UserSums(axis, data, sim, avgs, ri, idx[..|idx| - 1]).Success?
    requires DataElem(axis, data, ri, idx[|idx| - 1]).Success?
    ensures UserSums(axis, data, sim, avgs, ri, idx).Success?
    ensures UserSums(axis, data, sim, avgs, ri, idx).value.0 ==
            UserSums(axis, data, sim, avgs, ri, idx[..|idx| - 1]).value.0 +
            Deviation(avgs, idx[|idx| - 1], DataElem(axis, data, ri, idx[|idx| - 1]).value, sim(idx[|idx| - 1], ri))
    ensures UserSums(axis, data, sim, avgs, ri, idx).value.1 ==
            UserSums(axis, data, sim, avgs, ri, idx[..|idx| - 1]).value.1 + DataElem(axis, data, ri, idx[|idx| - 1]).value
  {
  }

  /** The terms array of the user filter holds exactly the two sums. */
  lemma {:induction false} UserTermsAreSums(axis: Axis, data: Mat, sim: Sim, avgs: seq<real>, ri: nat, idx: seq<nat>)
    ensures TermsFold(axis, data, sim, ri, idx, Accumulate(UserTerms(avgs)), Zeros(2)).Success? <==>
            UserSums(axis, data, sim, avgs, ri, idx).Success?
    ensures UserSums(axis, data, sim, avgs, ri, idx).Failure? ==>
            TermsFold(axis, data, sim, ri, idx, Accumulate(UserTerms(avgs)), Zeros(2)).error ==
            UserSums(axis, data, sim, avgs, ri, idx).error
    ensures UserSums(axis, data, sim, avgs, ri, idx).Success? ==>
            TermsFold(axis, data, sim, ri, idx, Accumulate(UserTerms(avgs)), Zeros(2)).value ==
            [UserSums(axis, data, sim, avgs, ri, idx).value.0, UserSums(axis, data, sim, avgs, ri, idx).value.1]
    decreases |idx|
  {
    if |idx| == 0 {
      assert Zeros(2) == [0.0, 0.0];
    } else {
      var p := idx[..|idx| - 1];
      UserTermsAreSums(axis, data, sim, avgs, ri, p);
      var k := idx[|idx| - 1];
      var up := UserSums(axis, data, sim, avgs, ri, p);
      var e := DataElem(axis, data, ri, k);
      if up.Success? && e.Success? {
        var fn := Accumulate(UserTerms(avgs));
        var a, b, v1, v2 := up.value.0, up.value.1, e.value, sim(k, ri);
        TermsLast(axis, data, sim, ri, idx, fn, Zeros(2));
        UserSumsLast(axis, data, sim, avgs, ri, idx);
        UserStep(avgs, k, v1, v2, a, b);
        assert TermsFold(axis, data, sim, ri, idx, fn, Zeros(2)).value == fn(k, v1, v2, [a, b]);
      }
    }
  }

  class UserFilter {
    const base: CollaborativeModel
    const avgs: seq<real>

    /**
     * UserFilter(data): a model on the ROW axis; avgs holds the per-row
     * averages of data.
     */
    constructor(data: Mat, avgs: seq<real>, sim0: Sim)
      ensures fresh(base) && base.data == data && base.axis == ROW
      ensures !base.calculated && base.similarity == sim0
      ensures this.avgs == avgs
    {
      base := new CollaborativeModel(data, ROW, sim0);
      this.avgs := avgs;
    }

    /**
     * Predict(pred, i): accumulate the weighted deviation and the weight over
     * the neighbour indexes; a zero weight is a divide-by-zero failure,
     * otherwise the prediction is avgs[i] + deviation / weight.
     */
    method Predict(pred: Predict, i: nat, indexes: seq<nat>) returns (r: Result<real>)
      requires i < |avgs|
      ensures var s := UserSums(pred.axis, base.data, base.similarity, avgs, i, indexes);
              && (s.Failure? ==> r == Failure(s.error))
              && (s.Success? && s.value.1 == 0.0 ==> r == Failure(DivideByZero))
              && (s.Success? && s.value.1 != 0.0 ==> r == Success(avgs[i] + s.value.0 / s.value.1))
    {
      var arr := base.PredTerms(pred, i, indexes, Accumulate(UserTerms(avgs)), 2);
      UserTermsAreSums(pred.axis, base.data, base.similarity, avgs, i, indexes);
      if arr.Failure? {
        return Failure(arr.error);
      }
      if arr.value[1] == 0.0 {
        return Failure(DivideByZero);
      }
      r := Success(avgs[i] + arr.value[0] / arr.value[1]);
    }
  }
}
