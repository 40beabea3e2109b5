/**
 * The grey wolf update: three leaders chosen from the fitness order according to the objective
 * direction, a coefficient a falling linearly from 2 to 0, and each coordinate replaced in
 * place by the average of its pulls towards the three leaders. The leaders are rows of the
 * same population, so rows processed after a leader read that leader's updated values.
 */
module Gwo {
  import opened Wrappers
  import opened Matrices

  /** a = 2 - iter * (2 / maxIter) */
  function Schedule(maxIter: int, iter: int): (a: real)
    requires maxIter != 0
    ensures maxIter > 0 && 0 <= iter <= maxIter ==> 0.0 <= a <= 2.0
  {
    var step := 2.0 / maxIter as real;
    assert maxIter > 0 && 0 <= iter <= maxIter ==> 0.0 <= iter as real * step <= 2.0 by {
      if maxIter > 0 && 0 <= iter <= maxIter {
        assert step > 0.0;
        assert iter as real * step <= maxIter as real * step;
      }
    }
    2.0 - iter as real * step
  }

  /** One r1, r2 pair of random.uniform(0.0, 1.0) draws. */
  datatype Draw = Draw(r1: real, r2: real)

  predicate UnitDraw(d: Draw) {
    0.0 <= d.r1 <= 1.0 && 0.0 <= d.r2 <= 1.0
  }

  /** A = 2 a r1 - a */
  function CoefA(a: real, d: Draw): real {
    2.0 * a * d.r1 - a
  }

  /** C = 2 r2 */
  function CoefC(d: Draw): real {
    2.0 * d.r2
  }

  /** X = leader - A * |C * leader - x| */
  function Pull(a: real, leader: real, x: real, d: Draw): real {
    leader - CoefA(a, d) * Abs(CoefC(d) * leader - x)
  }

  /** (X1 + X2 + X3) / 3 for the alpha, beta and delta leader values of one coordinate. */
  function NewValue(a: real, x: real, la: real, lb: real, ld: real, d1: Draw, d2: Draw, d3: Draw): real {
    (Pull(a, la, x, d1) + Pull(a, lb, x, d2) + Pull(a, ld, x, d3)) / 3.0
  }

  /** The rows of Xalfa, Xbeta and Xdelta. */
  datatype Leaders = Leaders(alpha: nat, beta: nat, delta: nat)

  /**
   * The leader rows for n rows ordered by `sp` (ascending fitness): the first three for MIN,
   * the last three for MAX through Python indexing (so two rows suffice there, the third
   * wrapping round to the last). None for any other objective: the leaders stay empty lists.
   */
  function ChooseLeaders(objective: string, sp: seq<int>, n: nat): (r: Result<Option<Leaders>>)
    requires IsPermutation(sp, n)
    ensures r.Ok? && r.value.Some? ==> r.value.value.alpha < n && r.value.value.beta < n && r.value.value.delta < n
    ensures r.Err? ==> r.error == IndexError
    ensures r.Ok? && r.value.None? <==> objective != "MIN" && objective != "MAX"
  {
    if objective == "MIN" then
      if n < 3 then Err(IndexError) else Ok(Some(Leaders(sp[0], sp[1], sp[2])))
    else if objective == "MAX" then
      var ia :- PyIndex(n, n - 1);
      // with a first row, index n - 2 is always valid (n == 1 wraps round to the last row)
      var ib := PyIndex(n, n - 2).value;
      var id :- PyIndex(n, n - 3);
      Ok(Some(Leaders(sp[ia], sp[ib], sp[id])))
    else Ok(None)
  }

  /** The random draws of cell (i, j) for leader k in 0..2. */
  ghost predicate UnitDraws(rand: (nat, nat, nat) -> Draw) {
    forall i: nat, j: nat, k: nat :: UnitDraw(rand(i, j, k))
  }

  /** Overwrite population[i][j] with its new value, reading the leaders in the current state. */
  function UpdateCell(q: seq<seq<real>>, dim: nat, lead: Leaders, a: real, rand: (nat, nat, nat) -> Draw,
                      i: nat, j: nat): (r: seq<seq<real>>)
    requires Shape(q, |q|, dim) && lead.alpha < |q| && lead.beta < |q| && lead.delta < |q| && i < |q| && j < dim
    ensures Shape(r, |q|, dim)
  {
    var v := NewValue(a, q[i][j], q[lead.alpha][j], q[lead.beta][j], q[lead.delta][j],
                      rand(i, j, 0), rand(i, j, 1), rand(i, j, 2));
    q[i := q[i][j := v]]
  }

  /** The population once rows 0..i-1 and cells 0..j-1 of row i have been updated. */
  function Sweep(p: seq<seq<real>>, dim: nat, lead: Leaders, a: real, rand: (nat, nat, nat) -> Draw,
                 i: nat, j: nat): (r: seq<seq<real>>)
    requires Shape(p, |p|, dim) && lead.alpha < |p| && lead.beta < |p| && lead.delta < |p|
    requires i <= |p| && j <= dim && (i == |p| ==> j == 0)
    ensures Shape(r, |p|, dim)
    ensures forall k :: i < k < |p| ==> r[k] == p[k]
    ensures i < |p| ==> r[i][j..] == p[i][j..]
    decreases i, j
  {
    if j == 0 then
      if i == 0 then p else Sweep(p, dim, lead, a, rand, i - 1, dim)
    else
      var q := Sweep(p, dim, lead, a, rand, i, j - 1);
      var r := UpdateCell(q, dim, lead, a, rand, i, j - 1);
      assert r[i][j..] == q[i][j..];
      r
  }

  /** iterarGWO's result: ZeroDivisionError for maxIter 0, IndexError from a leader that does not exist. */
  function GwoResult(maxIter: int, iter: int, dim: nat, p: seq<seq<real>>, sp: seq<int>, objective: string,
                     rand: (nat, nat, nat) -> Draw): (r: Result<seq<seq<real>>>)
    requires Shape(p, |p|, dim) && IsPermutation(sp, |p|)
    ensures maxIter == 0 ==> r == Err(ZeroDivisionError)
    ensures maxIter != 0 && r.Err? ==> r.error == IndexError
    ensures maxIter != 0 && objective == "MIN" ==> (r.Err? <==> |p| < 3)
    ensures maxIter != 0 && objective == "MAX" ==> (r.Err? <==> |p| < 2)
    ensures maxIter != 0 && objective != "MIN" && objective != "MAX" ==> (r.Err? <==> |p| > 0 && dim > 0)
    ensures r.Ok? ==> Shape(r.value, |p|, dim)
  {
    if maxIter == 0 then Err(ZeroDivisionError)
    else
      match ChooseLeaders(objective, sp, |p|)
      case Err(e) => Err(e)
      case Ok(None) => if |p| > 0 && dim > 0 then Err(IndexError) else Ok(p)
      case Ok(Some(lead)) => Ok(Sweep(p, dim, lead, Schedule(maxIter, iter), rand, |p|, 0))
  }

  /**
   * iterarGWO on the caller's population, updated in place row by row; `sp` is
   * util.selectionSort(fitness) and rand(i, j, k) the draws of cell (i, j) for leader k.
   * Returns a copy of the updated population. Every error is raised before the first write.
   */
  method IterarGWO(maxIter: int, iter: int, dim: nat, population: array<seq<real>>, sp: seq<int>,
                   objective: string, rand: (nat, nat, nat) -> Draw) returns (r: Result<seq<seq<real>>>)
    requires Shape(population[..], population.Length, dim) && IsPermutation(sp, population.Length)
    requires UnitDraws(rand)
    modifies population
    ensures r == GwoResult(maxIter, iter, dim, old(population[..]), sp, objective, rand)
    ensures r.Ok? ==> population[..] == r.value
    ensures r.Err? ==> population[..] == old(population[..])
  {
    if maxIter == 0 {
      return Err(ZeroDivisionError);
    }
    var a := Schedule(maxIter, iter);
    var n := population.Length;
    var leaders := ChooseLeaders(objective, sp, n);
    if leaders.Err? {
      return Err(leaders.error);
    }
    if leaders.value.None? {
      if n > 0 && dim > 0 {
        return Err(IndexError);
      }
      return Ok(population[..]);
    }
    var lead := leaders.value.value;
    ghost var p0 := population[..];
    for i := 0 to n
      invariant population[..] == Sweep(p0, dim, lead, a, rand, i, 0)
    {
      UpdateRowInPlace(population, p0, dim, lead, a, rand, i);
    }
    r := Ok(population[..]);
  }

  /** One pass of the inner loop: the cells of row i, left to right. */
  method UpdateRowInPlace(population: array<seq<real>>, ghost p0: seq<seq<real>>, dim: nat, lead: Leaders, a: real,
                          rand: (nat, nat, nat) -> Draw, i: nat)
    requires Shape(p0, |p0|, dim) && lead.alpha < |p0| && lead.beta < |p0| && lead.delta < |p0|
    requires i < |p0| == population.Length
    requires population[..] == Sweep(p0, dim, lead, a, rand, i, 0)
    modifies population
    ensures population[..] == Sweep(p0, dim, lead, a, rand, i + 1, 0)
  {
    for j := 0 to dim
      invariant population[..] == Sweep(p0, dim, lead, a, rand, i, j)
    {
      UpdateCellInPlace(population, dim, lead, a, rand, i, j);
    }
  }

  /** population[i][j] = (X1 + X2 + X3) / 3, with the leaders read from the current population. */
  method UpdateCellInPlace(population: array<seq<real>>, dim: nat, lead: Leaders, a: real, rand: (nat, nat, nat) -> Draw,
                           i: nat, j: nat)
    requires Shape(population[..], population.Length, dim)
    requires lead.alpha < population.Length && lead.beta < population.Length && lead.delta < population.Length
    requires i < population.Length && j < dim
    modifies population
    ensures population[..] == UpdateCell(old(population[..]), dim, lead, a, rand, i, j)
  {
    var x := population[i][j];
    var v := NewValue(a, x, population[lead.alpha][j], population[lead.beta][j], population[lead.delta][j],
                      rand(i, j, 0), rand(i, j, 1), rand(i, j, 2));
    population[i] := population[i][j := v];
  }

  // ---------------------------------------------------------------------------
  // what the update promises
  // ---------------------------------------------------------------------------

  /** a is 2 at the first iteration, 0 at the last, and falls in between. */
  lemma ScheduleEnds(maxIter: int, it1: int, it2: int)
    requires maxIter > 0 && it1 <= it2
    ensures Schedule(maxIter, 0) == 2.0 && Schedule(maxIter, maxIter) == 0.0
    ensures Schedule(maxIter, it1) >= Schedule(maxIter, it2)
  {
    var step := 2.0 / maxIter as real;
    assert step > 0.0;
    assert it1 as real * step <= it2 as real * step;
  }

  /** With a >= 0 and draws in [0, 1]: A lies in [-a, a] and C in [0, 2]. */
  lemma CoefficientRanges(a: real, d: Draw)
    requires a >= 0.0 && UnitDraw(d)
    ensures -a <= CoefA(a, d) <= a && 0.0 <= CoefC(d) <= 2.0
  {
    var m := a * d.r1;
    assert 0.0 <= m by {
      assert 0.0 * d.r1 <= a * d.r1;
    }
    assert m <= a by {
      assert a * d.r1 <= a * 1.0;
    }
    assert CoefA(a, d) == 2.0 * m - a;
  }

  /** At a = 0 (the last iteration) A vanishes and each coordinate becomes the mean of the leaders. */
  lemma LastIterationAverages(x: real, la: real, lb: real, ld: real, d1: Draw, d2: Draw, d3: Draw)
    ensures NewValue(0.0, x, la, lb, ld, d1, d2, d3) == (la + lb + ld) / 3.0
  {
  }

  /**
   * The leaders follow the objective: for MIN alpha has the smallest fitness, then beta, then
   * delta; for MAX alpha has the largest, then beta, then delta.
   */
  lemma LeadersByObjective(objective: string, sp: seq<int>, fitness: seq<real>)
    requires IsArgsort(sp, fitness) && ChooseLeaders(objective, sp, |fitness|).Ok?
    requires ChooseLeaders(objective, sp, |fitness|).value.Some?
    ensures var l := ChooseLeaders(objective, sp, |fitness|).value.value;
            objective == "MIN" ==> forall k :: 0 <= k < |fitness| ==>
              fitness[l.alpha] <= fitness[k] && fitness[l.alpha] <= fitness[l.beta] <= fitness[l.delta]
    ensures var l := ChooseLeaders(objective, sp, |fitness|).value.value;
            objective == "MAX" && |fitness| >= 3 ==> forall k :: 0 <= k < |fitness| ==>
              fitness[k] <= fitness[l.alpha] && fitness[l.delta] <= fitness[l.beta] <= fitness[l.alpha]
  {
    var n := |fitness|;
    forall k | 0 <= k < n
      ensures fitness[sp[0]] <= fitness[k] && fitness[k] <= fitness[sp[n - 1]]
    {
      assert k in sp;
      var b :| 0 <= b < n && sp[b] == k;
      if b > 0 { assert fitness[sp[0]] <= fitness[sp[b]]; }
      if b < n - 1 { assert fitness[sp[b]] <= fitness[sp[n - 1]]; }
    }
  }

  /** With exactly two rows under MAX the delta leader wraps round to the alpha row. */
  lemma TwoRowsMaxWraps(sp: seq<int>)
    requires IsPermutation(sp, 2)
    ensures ChooseLeaders("MAX", sp, 2) == Ok(Some(Leaders(sp[1], sp[0], sp[1])))
  {
  }

  /** Cells the sweep has not reached still hold their original values. */
  lemma {:induction false} SweepLeavesLater(p: seq<seq<real>>, dim: nat, lead: Leaders, a: real,
                                            rand: (nat, nat, nat) -> Draw, i: nat, j: nat, k: nat, l: nat)
    requires Shape(p, |p|, dim) && lead.alpha < |p| && lead.beta < |p| && lead.delta < |p|
    requires i <= |p| && j <= dim && (i == |p| ==> j == 0)
    requires k < |p| && l < dim && (k > i || (k == i && l >= j))
    ensures Sweep(p, dim, lead, a, rand, i, j)[k][l] == p[k][l]
    decreases i, j
  {
    if j == 0 {
      if i > 0 {
        SweepLeavesLater(p, dim, lead, a, rand, i - 1, dim, k, l);
      }
    } else {
      SweepLeavesLater(p, dim, lead, a, rand, i, j - 1, k, l);
    }
  }

  /** A cell the sweep has passed keeps the value written when the sweep reached it. */
  lemma {:induction false} SweepKeepsEarlier(p: seq<seq<real>>, dim: nat, lead: Leaders, a: real,
                                             rand: (nat, nat, nat) -> Draw, i: nat, j: nat, k: nat, l: nat)
    requires Shape(p, |p|, dim) && lead.alpha < |p| && lead.beta < |p| && lead.delta < |p|
    requires i <= |p| && j <= dim && (i == |p| ==> j == 0)
    requires k < |p| && l < dim && (k < i || (k == i && l < j))
    ensures Sweep(p, dim, lead, a, rand, i, j)[k][l] == Sweep(p, dim, lead, a, rand, k, l + 1)[k][l]
    decreases i, j
  {
    if j == 0 {
      SweepKeepsEarlier(p, dim, lead, a, rand, i - 1, dim, k, l);
    } else if !(k == i && l == j - 1) {
      SweepKeepsEarlier(p, dim, lead, a, rand, i, j - 1, k, l);
    }
  }

  /**
   * Aliasing of the leader rows: at cell (i, j) a leader row already swept (leader < i) is read
   * with its final updated value, a leader row not yet swept (leader > i) with its original one.
   */
  lemma LeaderReadAtCell(p: seq<seq<real>>, dim: nat, lead: Leaders, a: real,
                         rand: (nat, nat, nat) -> Draw, i: nat, j: nat, leader: nat)
    requires Shape(p, |p|, dim) && lead.alpha < |p| && lead.beta < |p| && lead.delta < |p|
    requires i < |p| && j < dim && leader < |p|
    ensures leader < i ==>
              Sweep(p, dim, lead, a, rand, i, j)[leader][j] == Sweep(p, dim, lead, a, rand, |p|, 0)[leader][j]
    ensures leader > i ==> Sweep(p, dim, lead, a, rand, i, j)[leader][j] == p[leader][j]
  {
    if leader < i {
      SweepKeepsEarlier(p, dim, lead, a, rand, i, j, leader, j);
      SweepKeepsEarlier(p, dim, lead, a, rand, |p|, 0, leader, j);
    } else if leader > i {
      SweepLeavesLater(p, dim, lead, a, rand, i, j, leader, j);
    }
  }
}
