/** Row-major real matrices, argsort results, and the scalar helpers the update rules share. */
module Matrices {
  import opened Wrappers

  /** A rows × cols matrix, stored as a sequence of rows. */
  predicate Shape(m: seq<seq<real>>, rows: nat, cols: nat) {
    |m| == rows && forall i :: 0 <= i < rows ==> |m[i]| == cols
  }

  function Abs(x: real): (r: real)
    ensures r >= 0.0 && (r == x || r == -x)
  {
    if x < 0.0 then -x else x
  }

  /** Python's seq[k] position: a negative k counts from the end; IndexError outside -n..n-1. */
  function PyIndex(n: nat, k: int): (r: Result<nat>)
    ensures r.Ok? <==> -(n as int) <= k < n
    ensures r.Ok? ==> r.value < n && (r.value == k || r.value == k + n)
    ensures r.Err? ==> r.error == IndexError
  {
    if 0 <= k < n then Ok(k)
    else if -(n as int) <= k < 0 then Ok(k + n)
    else Err(IndexError)
  }

  // ---------------------------------------------------------------------------
  // argsort results
  // ---------------------------------------------------------------------------

  predicate IsPermutation(o: seq<int>, n: nat) {
    && |o| == n
    && (forall i :: 0 <= i < n ==> 0 <= o[i] < n)
    && (forall i, j :: 0 <= i < j < n ==> o[i] != o[j])
    && (forall x :: 0 <= x < n ==> x in o)
  }

  /** np.argsort(key): a permutation listing the keys in ascending order (ties in any order). */
  predicate IsArgsort(o: seq<int>, key: seq<real>) {
    && IsPermutation(o, |key|)
    && (forall i, j :: 0 <= i < j < |o| ==> key[o[i]] <= key[o[j]])
  }
}
