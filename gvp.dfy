/**
 * Grouped-value position (GVP) binarization: rank the values (rank 1 for the largest), then
 * emit 1 at position j exactly when the rank of j exceeds the rank of its cyclic successor.
 */
module Gvp {
  import opened Matrices

  /** -X, the key np.argsort(-X) sorts by. */
  function Negated(x: seq<real>): (n: seq<real>)
    ensures |n| == |x| && forall i :: 0 <= i < |x| ==> n[i] == -x[i]
  {
    seq(|x|, i requires 0 <= i < |x| => -x[i])
  }

  /** R_calc after R_calc[sorted_indices[:k]] = 1..k, starting from np.zeros(D). */
  function Scatter(p: seq<int>, k: nat, d: nat): (r: seq<int>)
    requires k <= |p| && forall i :: 0 <= i < |p| ==> 0 <= p[i] < d
    ensures |r| == d
    decreases k
  {
    if k == 0 then seq(d, i => 0) else Scatter(p, k - 1, d)[p[k - 1] := k]
  }

  lemma {:induction false} ScatterAt(p: seq<int>, k: nat, d: nat, a: nat)
    requires IsPermutation(p, d) && a < k <= d
    ensures Scatter(p, k, d)[p[a]] == a + 1
    decreases k
  {
    if a < k - 1 {
      ScatterAt(p, k - 1, d, a);
      assert p[a] != p[k - 1];
    }
  }

  /** After the whole scatter, the item at position a of the order holds a + 1. */
  lemma ScatterAll(p: seq<int>, d: nat)
    requires IsPermutation(p, d)
    ensures forall a :: 0 <= a < d ==> Scatter(p, d, d)[p[a]] == a + 1
  {
    forall a | 0 <= a < d
      ensures Scatter(p, d, d)[p[a]] == a + 1
    {
      ScatterAt(p, d, d, a);
    }
  }

  /** The ranks R: the position of j in the descending order, counted from 1. */
  function Ranks(x: seq<real>, p: seq<int>): (r: seq<int>)
    requires IsArgsort(p, Negated(x))
    ensures |r| == |x|
    ensures forall a :: 0 <= a < |x| ==> r[p[a]] == a + 1
  {
    ScatterAll(p, |x|);
    Scatter(p, |x|, |x|)
  }

  /** B[j] = 1 if R[j] > R[(j + 1) % D] else 0: a 0/1 vector marking where R descends round the cycle. */
  function Bits(r: seq<int>): (b: seq<int>)
    ensures |b| == |r|
    ensures forall j :: 0 <= j < |r| ==> b[j] == 0 || b[j] == 1
    ensures forall j :: 0 <= j < |r| ==> (b[j] == 1 <==> r[j] > r[(j + 1) % |r|])
  {
    seq(|r|, j requires 0 <= j < |r| => if r[j] > r[(j + 1) % |r|] then 1 else 0)
  }

  /**
   * gvp_binarization(X) = (R, B), with `p` the permutation np.argsort(-X) returns (ties in
   * any order).
   */
  function GvpBinarization(x: seq<real>, p: seq<int>): (rb: (seq<int>, seq<int>))
    requires IsArgsort(p, Negated(x))
    ensures |rb.0| == |x| && |rb.1| == |x|
  {
    var r := Ranks(x, p);
    (r, Bits(r))
  }

  /** Where j sits in the order: a permutation lists every index. */
  lemma PositionOf(p: seq<int>, d: nat, j: nat) returns (a: nat)
    requires IsPermutation(p, d) && j < d
    ensures a < d && p[a] == j
  {
    assert j in p;
    var i :| 0 <= i < |p| && p[i] == j;
    a := i;
  }

  /** The item at position a of the descending order gets rank a + 1. */
  lemma RankOfPosition(x: seq<real>, p: seq<int>, a: nat)
    requires IsArgsort(p, Negated(x)) && a < |x|
    ensures Ranks(x, p)[p[a]] == a + 1
  {
  }

  /** R is a permutation of 1..D: every rank is in range and no two items share one. */
  lemma RanksArePermutation(x: seq<real>, p: seq<int>)
    requires IsArgsort(p, Negated(x))
    ensures forall j :: 0 <= j < |x| ==> 1 <= Ranks(x, p)[j] <= |x|
    ensures forall j, k :: 0 <= j < k < |x| ==> Ranks(x, p)[j] != Ranks(x, p)[k]
    ensures forall v :: 1 <= v <= |x| ==> v in Ranks(x, p)
  {
    var r := Ranks(x, p);
    forall j | 0 <= j < |x|
      ensures 1 <= r[j] <= |x|
    {
      var a := PositionOf(p, |x|, j);
      RankOfPosition(x, p, a);
    }
    forall j, k | 0 <= j < k < |x|
      ensures r[j] != r[k]
    {
      var a := PositionOf(p, |x|, j);
      var b := PositionOf(p, |x|, k);
      RankOfPosition(x, p, a);
      RankOfPosition(x, p, b);
    }
    forall v | 1 <= v <= |x|
      ensures v in r
    {
      RankOfPosition(x, p, v - 1);
    }
  }

  /** Rank 1 is the largest value: a strictly larger value gets a strictly smaller rank. */
  lemma RanksReverseOrder(x: seq<real>, p: seq<int>, j: nat, k: nat)
    requires IsArgsort(p, Negated(x)) && j < |x| && k < |x| && x[j] > x[k]
    ensures Ranks(x, p)[j] < Ranks(x, p)[k]
  {
    var a := PositionOf(p, |x|, j);
    var b := PositionOf(p, |x|, k);
    RankOfPosition(x, p, a);
    RankOfPosition(x, p, b);
  }

  /** With at least two values, B holds both a 1 (at the last-ranked item) and a 0 (at the first-ranked). */
  lemma BitsMixed(x: seq<real>, p: seq<int>)
    requires IsArgsort(p, Negated(x)) && |x| >= 2
    ensures 1 in GvpBinarization(x, p).1 && 0 in GvpBinarization(x, p).1
  {
    var r := Ranks(x, p);
    var d := |x|;
    RanksArePermutation(x, p);
    RankOfPosition(x, p, d - 1);
    RankOfPosition(x, p, 0);
    var last, first := p[d - 1], p[0];
    assert r[last] == d && r[first] == 1;
    var n1, n0 := (last + 1) % d, (first + 1) % d;
    assert n1 != last && n0 != first;
    assert r[n1] != r[last] by {
      if n1 < last { assert r[n1] != r[last]; } else { assert r[last] != r[n1]; }
    }
    assert r[n0] != r[first] by {
      if n0 < first { assert r[n0] != r[first]; } else { assert r[first] != r[n0]; }
    }
    assert Bits(r)[last] == 1;
    assert Bits(r)[first] == 0;
  }

  /** The worked example of the script, for every argsort numpy may return. */
  lemma WorkedExample(p: seq<int>)
    requires IsArgsort(p, Negated([6.2, 7.3, 2.4, 7.8, 9.1, 2.5, 6.9, 5.0]))
    ensures GvpBinarization([6.2, 7.3, 2.4, 7.8, 9.1, 2.5, 6.9, 5.0], p) ==
            ([5, 3, 8, 2, 1, 7, 4, 6], [1, 0, 1, 1, 0, 1, 0, 1])
  {
    var x := [6.2, 7.3, 2.4, 7.8, 9.1, 2.5, 6.9, 5.0];
    var r := Ranks(x, p);
    RanksArePermutation(x, p);
    RanksReverseOrder(x, p, 4, 3);
    RanksReverseOrder(x, p, 3, 1);
    RanksReverseOrder(x, p, 1, 6);
    RanksReverseOrder(x, p, 6, 0);
    RanksReverseOrder(x, p, 0, 7);
    RanksReverseOrder(x, p, 7, 5);
    RanksReverseOrder(x, p, 5, 2);
    RankChain(r[4], r[3], r[1], r[6], r[0], r[7], r[5], r[2]);
    assert r == [5, 3, 8, 2, 1, 7, 4, 6];
    ExampleBits();
  }

  /** Eight strictly increasing ranks within 1..8 are 1..8. */
  lemma RankChain(a: int, b: int, c: int, d: int, e: int, f: int, g: int, h: int)
    requires 1 <= a < b < c < d < e < f < g < h <= 8
    ensures a == 1 && b == 2 && c == 3 && d == 4 && e == 5 && f == 6 && g == 7 && h == 8
  {
  }

  lemma ExampleBits()
    ensures Bits([5, 3, 8, 2, 1, 7, 4, 6]) == [1, 0, 1, 1, 0, 1, 0, 1]
  {
  }
}
