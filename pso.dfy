/**
 * The particle swarm update: an inertia weight falling linearly from 0.9 to 0.1, velocities
 * pulled towards the personal and the global best and clipped to a tenth of the upper bound,
 * positions moved by the clipped velocity. New arrays are built; the inputs are not modified.
 */
module Pso {
  import opened Wrappers
  import opened Matrices

  const WMax: real := 0.9
  const WMin: real := 0.1
  const C1: real := 2.0
  const C2: real := 2.0

  /** w = wMax - it * ((wMax - wMin) / maxIter) */
  function Inertia(maxIter: int, it: int): (w: real)
    requires maxIter != 0
    ensures maxIter > 0 && 0 <= it <= maxIter ==> WMin <= w <= WMax
  {
    var step := (WMax - WMin) / maxIter as real;
    assert maxIter > 0 && 0 <= it <= maxIter ==> 0.0 <= it as real * step <= WMax - WMin by {
      if maxIter > 0 && 0 <= it <= maxIter {
        assert step > 0.0;
        assert it as real * step <= maxIter as real * step;
      }
    }
    WMax - it as real * step
  }

  /** np.clip(v, lo, hi) = minimum(maximum(v, lo), hi) */
  function Clip(v: real, lo: real, hi: real): (c: real)
    ensures lo <= hi ==> lo <= c <= hi
    ensures lo <= v <= hi ==> c == v
    ensures lo <= hi && v < lo ==> c == lo
    ensures v > hi ==> c == hi
  {
    var up := if v < lo then lo else v;
    if up > hi then hi else up
  }

  /** The unclipped velocity of one coordinate. */
  function RawVelocity(w: real, v: real, x: real, pBest: real, gBest: real, r1: real, r2: real): real {
    w * v + C1 * r1 * (pBest - x) + C2 * r2 * (gBest - x)
  }

  /** The new velocity of one coordinate, clipped to [-Vmax, Vmax] with Vmax = 0.1 * ub. */
  function Velocity(w: real, v: real, x: real, pBest: real, gBest: real, r1: real, r2: real, ub: real): (v': real)
    ensures ub >= 0.0 ==> -(ub * 0.1) <= v' <= ub * 0.1
    ensures -(ub * 0.1) <= RawVelocity(w, v, x, pBest, gBest, r1, r2) <= ub * 0.1 ==> v' == RawVelocity(w, v, x, pBest, gBest, r1, r2)
  {
    Clip(RawVelocity(w, v, x, pBest, gBest, r1, r2), -(ub * 0.1), ub * 0.1)
  }

  /** The r1 and r2 draws of np.random.rand: one per particle and coordinate, in [0, 1). */
  predicate UnitMatrix(r: seq<seq<real>>, rows: nat, cols: nat) {
    Shape(r, rows, cols) && forall i, j :: 0 <= i < rows && 0 <= j < cols ==> 0.0 <= r[i][j] < 1.0
  }

  /**
   * iterarPSO: the pair (population, vel) of the next step. ZeroDivisionError when maxIter is 0.
   * gBest and ub are vectors broadcast over the particles.
   */
  function IterarPSO(maxIter: int, it: int, dim: nat, population: seq<seq<real>>, gBest: seq<real>,
                     pBest: seq<seq<real>>, vel: seq<seq<real>>, ub: seq<real>,
                     r1: seq<seq<real>>, r2: seq<seq<real>>): (r: Result<(seq<seq<real>>, seq<seq<real>>)>)
    requires Shape(population, |population|, dim) && Shape(pBest, |population|, dim) && Shape(vel, |population|, dim)
    requires |gBest| == dim && |ub| == dim
    requires UnitMatrix(r1, |population|, dim) && UnitMatrix(r2, |population|, dim)
    ensures r.Err? <==> maxIter == 0
    ensures r.Err? ==> r.error == ZeroDivisionError
    ensures r.Ok? ==> Shape(r.value.0, |population|, dim) && Shape(r.value.1, |population|, dim)
  {
    if maxIter == 0 then Err(ZeroDivisionError)
    else
      var w := Inertia(maxIter, it);
      var n := |population|;
      var v := seq(n, i requires 0 <= i < n =>
                 seq(dim, j requires 0 <= j < dim =>
                   Velocity(w, vel[i][j], population[i][j], pBest[i][j], gBest[j], r1[i][j], r2[i][j], ub[j])));
      var p := seq(n, i requires 0 <= i < n => seq(dim, j requires 0 <= j < dim => population[i][j] + v[i][j]));
      Ok((p, v))
  }

  /** The inertia weight is 0.9 at the first iteration, 0.1 at the last, and never grows. */
  lemma InertiaSchedule(maxIter: int, it1: int, it2: int)
    requires maxIter > 0 && it1 <= it2
    ensures Inertia(maxIter, 0) == 0.9 && Inertia(maxIter, maxIter) == 0.1
    ensures Inertia(maxIter, it1) >= Inertia(maxIter, it2)
  {
    var step := (WMax - WMin) / maxIter as real;
    assert step > 0.0;
    assert it1 as real * step <= it2 as real * step;
    assert Inertia(maxIter, it1) == WMax - it1 as real * step;
    assert Inertia(maxIter, it2) == WMax - it2 as real * step;
  }

  /** Clipping to [-m, m] with m >= 0 lands inside it, and leaves a value already inside alone. */
  lemma ClipBounds(v: real, m: real)
    requires m >= 0.0
    ensures -m <= Clip(v, -m, m) <= m
    ensures -m <= v <= m ==> Clip(v, -m, m) == v
  {
  }

  /**
   * With a non-negative upper bound, every new velocity lies in [-Vmax, Vmax], each particle
   * moves by exactly its new velocity, and an unclipped velocity is the textbook formula.
   */
  lemma PsoStepBounded(maxIter: int, it: int, dim: nat, population: seq<seq<real>>, gBest: seq<real>,
                       pBest: seq<seq<real>>, vel: seq<seq<real>>, ub: seq<real>,
                       r1: seq<seq<real>>, r2: seq<seq<real>>, i: nat, j: nat)
    requires Shape(population, |population|, dim) && Shape(pBest, |population|, dim) && Shape(vel, |population|, dim)
    requires |gBest| == dim && |ub| == dim
    requires UnitMatrix(r1, |population|, dim) && UnitMatrix(r2, |population|, dim)
    requires maxIter != 0 && i < |population| && j < dim && ub[j] >= 0.0
    ensures var r := IterarPSO(maxIter, it, dim, population, gBest, pBest, vel, ub, r1, r2).value;
            var raw := RawVelocity(Inertia(maxIter, it), vel[i][j], population[i][j], pBest[i][j], gBest[j], r1[i][j], r2[i][j]);
            && -(ub[j] * 0.1) <= r.1[i][j] <= ub[j] * 0.1
            && r.0[i][j] - population[i][j] == r.1[i][j]
            && (-(ub[j] * 0.1) <= raw <= ub[j] * 0.1 ==> r.1[i][j] == raw)
  {
    var raw := RawVelocity(Inertia(maxIter, it), vel[i][j], population[i][j], pBest[i][j], gBest[j], r1[i][j], r2[i][j]);
    ClipBounds(raw, ub[j] * 0.1);
  }

  /** A particle sitting on both bests with zero velocity stays put. */
  lemma PsoRestAtBest(w: real, x: real, r1: real, r2: real, ub: real)
    requires ub >= 0.0
    ensures Velocity(w, 0.0, x, x, x, r1, r2, ub) == 0.0
  {
    ClipBounds(0.0, ub * 0.1);
  }
}
