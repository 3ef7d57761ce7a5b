/** Nested literals ({{...}, {...}}) from which the matrices are built. */
module Literal {

  /** Length of the longest row of a nested literal (0 when there is no row). */
  function MaxLen(lit: seq<seq<real>>): (r: nat)
    ensures forall k :: 0 <= k < |lit| ==> |lit[k]| <= r
    ensures r == 0 || exists k :: 0 <= k < |lit| && |lit[k]| == r
    decreases |lit|
  {
    if |lit| == 0 then 0
    else
      var m := MaxLen(lit[..|lit| - 1]);
      assert forall k :: 0 <= k < |lit| - 1 ==> lit[..|lit| - 1][k] == lit[k];
      if m < |lit[|lit| - 1]| then |lit[|lit| - 1]| else m
  }

  /** One more row raises the longest length to that row's length if it is longer. */
  lemma MaxLenStep(lit: seq<seq<real>>, n: nat)
    requires n < |lit|
    ensures MaxLen(lit[..n + 1]) == if MaxLen(lit[..n]) < |lit[n]| then |lit[n]| else MaxLen(lit[..n])
  {
    assert lit[..n + 1][..n] == lit[..n];
  }

  /** Sum of the entries of a literal row. */
  function SeqSum(row: seq<real>): real
    decreases |row|
  {
    if |row| == 0 then 0.0 else SeqSum(row[..|row| - 1]) + row[|row| - 1]
  }

  /** Number of non-zero entries of a literal row. */
  function NonZeroCount(row: seq<real>): nat
    decreases |row|
  {
    if |row| == 0 then 0
    else NonZeroCount(row[..|row| - 1]) + (if row[|row| - 1] != 0.0 then 1 else 0)
  }

  /** Number of non-zero literals in a whole nested literal. */
  function LiteralNonZeros(lit: seq<seq<real>>): nat
    decreases |lit|
  {
    if |lit| == 0 then 0 else LiteralNonZeros(lit[..|lit| - 1]) + NonZeroCount(lit[|lit| - 1])
  }
}
