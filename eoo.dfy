/**
 * The Eurasian oystercatcher update: per individual a step length L drawn in [3, 5], the
 * derived T and C, an exploration term E shared by all individuals, and a pull r towards the
 * best solution. The population is copied first; the caller's array is not modified.
 */
module Eoo {
  import opened Wrappers
  import opened Matrices

  /** T = ((L - 5) / (5 - 3)) * 10 - 5 */
  function EooT(l: real): real {
    ((l - 5.0) / (5.0 - 3.0)) * 10.0 - 5.0
  }

  /** C = ((L - 3) / (5 - 3)) * 2 + 0.6 */
  function EooC(l: real): real {
    ((l - 3.0) / (5.0 - 3.0)) * 2.0 + 0.6
  }

  /** E for n individuals, with the counter reversed to it' = maxIter - it + 1. */
  function EooE(maxIter: int, it: int, n: int): (e: real)
    requires n != 1
    ensures n >= 2 ==> e >= 1.0 / (n - 1) as real - 0.5
    ensures it >= maxIter ==> e == 1.0 / (n - 1) as real - 0.5
  {
    var it' := maxIter - it + 1;
    if it' > 1 then
      assert n >= 2 ==> (it' - 1) as real / (n - 1) as real >= 1.0 / (n - 1) as real by {
        if n >= 2 { DivMono(1.0, (it' - 1) as real, (n - 1) as real); }
      }
      (it' - 1) as real / (n - 1) as real - 0.5
    else 1.0 / (n - 1) as real - 0.5
  }

  lemma DivMono(a: real, b: real, d: real)
    requires a <= b && d > 0.0
    ensures a / d <= b / d
  {
    assert b / d - a / d == (b - a) / d;
  }

  /** One coordinate: scaled by C, then moved by Y = T + E + L * r * (best - x) from the unscaled x. */
  function EooValue(l: real, r: real, e: real, x: real, best: real): (y: real)
    ensures y == (EooC(l) - l * r) * x + l * r * best + EooT(l) + e
  {
    assert l * r * (best - x) == l * r * best - l * r * x;
    x * EooC(l) + (EooT(l) + e + l * r * (best - x))
  }

  /**
   * iterarEOO, with the np.random.uniform draws passed in: ls[i] in [3, 5] and rs[i] in [0, 1],
   * one of each per individual. ZeroDivisionError for a single individual.
   */
  function IterarEOO(maxIter: int, it: int, population: seq<seq<real>>, best: seq<real>,
                     ls: seq<real>, rs: seq<real>): (r: Result<seq<seq<real>>>)
    requires Shape(population, |population|, |best|)
    requires |ls| == |population| && |rs| == |population|
    requires forall i :: 0 <= i < |ls| ==> 3.0 <= ls[i] <= 5.0
    requires forall i :: 0 <= i < |rs| ==> 0.0 <= rs[i] <= 1.0
    ensures r.Err? <==> |population| == 1
    ensures r.Err? ==> r.error == ZeroDivisionError
    ensures r.Ok? ==> Shape(r.value, |population|, |best|)
  {
    var n := |population|;
    if n == 1 then Err(ZeroDivisionError)
    else
      var e := EooE(maxIter, it, n);
      Ok(seq(n, i requires 0 <= i < n =>
           seq(|best|, j requires 0 <= j < |best| => EooValue(ls[i], rs[i], e, population[i][j], best[j]))))
  }

  /** For L in [3, 5]: T = 5(L - 5) - 5 lies in [-15, -5] and C = L - 2.4 lies in [0.6, 2.6]. */
  lemma EooConstantRanges(l: real)
    requires 3.0 <= l <= 5.0
    ensures EooT(l) == 5.0 * (l - 5.0) - 5.0 && -15.0 <= EooT(l) <= -5.0
    ensures EooC(l) == l - 2.4 && 0.6 <= EooC(l) <= 2.6
  {
  }

  /** Exploration fades: with two or more individuals, E never grows as the iterations advance. */
  lemma EooExplorationDecays(maxIter: int, it1: int, it2: int, n: int)
    requires n >= 2 && it1 <= it2
    ensures EooE(maxIter, it2, n) <= EooE(maxIter, it1, n)
  {
    var a1, a2 := maxIter - it1 + 1, maxIter - it2 + 1;
    if a2 > 1 {
      DivMono((a2 - 1) as real, (a1 - 1) as real, (n - 1) as real);
    }
  }

  /**
   * Each coordinate moves affinely: x' = (C - L r) x + L r best + T + E, with the constants of
   * its own individual, the same for all of its coordinates.
   */
  lemma EooAffine(maxIter: int, it: int, population: seq<seq<real>>, best: seq<real>,
                  ls: seq<real>, rs: seq<real>, i: nat, j: nat)
    requires Shape(population, |population|, |best|)
    requires |ls| == |population| && |rs| == |population|
    requires forall k :: 0 <= k < |ls| ==> 3.0 <= ls[k] <= 5.0
    requires forall k :: 0 <= k < |rs| ==> 0.0 <= rs[k] <= 1.0
    requires |population| >= 2 && i < |population| && j < |best|
    ensures var x, l, r := population[i][j], ls[i], rs[i];
            IterarEOO(maxIter, it, population, best, ls, rs).value[i][j] ==
              (EooC(l) - l * r) * x + l * r * best[j] + EooT(l) + EooE(maxIter, it, |population|)
  {
    var x, l, r := population[i][j], ls[i], rs[i];
    assert l * r * (best[j] - x) == l * r * best[j] - l * r * x;
  }
}
