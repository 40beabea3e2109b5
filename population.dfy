/**
 * The knapsack population pipeline: the initial random population, the evaluate loop that
 * repairs and scores every row, the strategy dispatch with its argument guards and result
 * normalisation, the post-step binarize-and-evaluate loop, and the best-solution update.
 * The binarizer, the strategy table and its argument map are parameters.
 */
module PopulationKP {
  import opened Wrappers
  import opened Strings
  import opened Matrices
  import opened Knapsack

  // ---------------------------------------------------------------------------
  // scores and rows
  // ---------------------------------------------------------------------------

  /** A PSO personal-best score: the float("inf") it starts at, or a finite fitness. */
  datatype Score = PosInf | Fin(v: real)

  /** score > f, with +inf above every finite value (the same test as f < score). */
  predicate Above(score: Score, f: real) {
    score.PosInf? || score.v > f
  }

  /** Every row is a 0/1 vector over the instance's items. */
  predicate BinaryRows(inst: Instance, rows: seq<seq<real>>) {
    forall i :: 0 <= i < |rows| ==> |rows[i]| == inst.items && Binary(rows[i])
  }

  function ZeroMatrix(rows: nat, cols: nat): (m: seq<seq<real>>)
    ensures |m| == rows && forall i :: 0 <= i < rows ==> m[i] == Zeros(cols)
  {
    seq(rows, i => Zeros(cols))
  }

  // ---------------------------------------------------------------------------
  // initialize_population
  // ---------------------------------------------------------------------------

  /** The population and, for PSO only, the velocity, personal-best scores and personal bests. */
  datatype Initial = Initial(
    population: seq<seq<real>>,
    vel: Option<seq<seq<real>>>,
    pBestScore: Option<seq<Score>>,
    pBest: Option<seq<seq<real>>>)

  /**
   * initialize_population, with the np.random.randint(0, 2) draws passed in as `draws`
   * (pop rows of items entries, each 0 or 1).
   */
  function InitializePopulation(mh: string, pop: nat, inst: Instance, draws: seq<seq<real>>): (r: Initial)
    requires |draws| == pop && BinaryRows(inst, draws)
    ensures |r.population| == pop && BinaryRows(inst, r.population)
    ensures r.vel.Some? <==> mh == "PSO"
    ensures r.pBestScore.Some? <==> mh == "PSO"
    ensures r.pBest.Some? <==> mh == "PSO"
    ensures r.vel.Some? ==> |r.vel.value| == pop && forall i :: 0 <= i < pop ==> r.vel.value[i] == Zeros(inst.items)
    ensures r.pBest.Some? ==> |r.pBest.value| == pop && forall i :: 0 <= i < pop ==> r.pBest.value[i] == Zeros(inst.items)
    ensures r.pBestScore.Some? ==> |r.pBestScore.value| == pop && forall i :: 0 <= i < pop ==> r.pBestScore.value[i] == PosInf
  {
    if mh == "PSO" then
      Initial(draws, Some(ZeroMatrix(pop, inst.items)), Some(seq(pop, i => PosInf)), Some(ZeroMatrix(pop, inst.items)))
    else
      Initial(draws, None, None, None)
  }

  // ---------------------------------------------------------------------------
  // one row: feasibility test and repair
  // ---------------------------------------------------------------------------

  /**
   * What the loops leave in a row: the row itself when it is feasible, otherwise its repair.
   * None where the repair raises IndexError.
   */
  function EvaluatedRow(inst: Instance, o: seq<int>, row: seq<real>): (r: Option<seq<real>>)
    requires Valid(inst) && |row| == inst.items && IsPermutation(o, |row|)
    ensures r.Some? ==> |r.value| == |row| && Feasible(inst, r.value)
    ensures r.Some? && Binary(row) ==> Binary(r.value)
  {
    if Feasible(inst, row) then Some(row) else RepairSpec(inst, row, o)
  }

  /** With a non-negative capacity and weights, a 0/1 row always comes back. */
  lemma EvaluatedRowSucceeds(inst: Instance, o: seq<int>, row: seq<real>)
    requires Valid(inst) && |row| == inst.items && IsPermutation(o, |row|) && Binary(row)
    requires inst.capacity >= 0.0 && forall i :: 0 <= i < inst.items ==> inst.weights[i] >= 0.0
    ensures EvaluatedRow(inst, o, row).Some?
  {
    if !Feasible(inst, row) {
      RepairOfInfeasibleSucceeds(inst, row, o);
    }
  }

  /** Evaluating a row twice changes nothing the second time. */
  lemma EvaluatedRowIdempotent(inst: Instance, o: seq<int>, row: seq<real>)
    requires Valid(inst) && |row| == inst.items && IsPermutation(o, |row|)
    requires EvaluatedRow(inst, o, row).Some?
    ensures EvaluatedRow(inst, o, EvaluatedRow(inst, o, row).value) == EvaluatedRow(inst, o, row)
  {
  }

  /** The feasibility test, then instance.repair on the row when it fails. */
  method EvaluateRow(inst: Instance, o: seq<int>, row: seq<real>) returns (r: Option<seq<real>>)
    requires Valid(inst) && |row| == inst.items && IsArgsort(o, inst.tradeOff) && Binary(row)
    ensures r == EvaluatedRow(inst, o, row)
  {
    if Feasible(inst, row) {
      return Some(row);
    }
    var a := new real[|row|](j requires 0 <= j < |row| => row[j]);
    assert a[..] == row;
    var ok := Repair(inst, a, o);
    if ok {
      r := Some(a[..]);
    } else {
      r := None;
    }
  }

  // ---------------------------------------------------------------------------
  // the argmax of np.argsort(fitness)[::-1][0]
  // ---------------------------------------------------------------------------

  /** k holds a largest fitness; numpy's tie order is unspecified, so any such k qualifies. */
  predicate IsMaxIndex(f: seq<real>, k: int) {
    0 <= k < |f| && forall j :: 0 <= j < |f| ==> f[j] <= f[k]
  }

  /** The largest value of a non-empty sequence, the reference reading of the argmax. */
  function SeqMax(f: seq<real>): real
    requires |f| > 0
  {
    if |f| == 1 then f[0]
    else
      var m := SeqMax(f[..|f| - 1]);
      if f[|f| - 1] > m then f[|f| - 1] else m
  }

  lemma {:induction false} SeqMaxIsAttained(f: seq<real>)
    requires |f| > 0
    ensures exists k :: IsMaxIndex(f, k) && f[k] == SeqMax(f)
  {
    if |f| > 1 {
      var g := f[..|f| - 1];
      SeqMaxIsAttained(g);
      var k :| IsMaxIndex(g, k) && g[k] == SeqMax(g);
      if f[|f| - 1] > SeqMax(g) {
        assert IsMaxIndex(f, |f| - 1);
      } else {
        assert forall j :: 0 <= j < |f| - 1 ==> f[j] == g[j];
        assert IsMaxIndex(f, k);
      }
    } else {
      assert IsMaxIndex(f, 0);
    }
  }

  /** A non-empty fitness vector has an argmax, and every argmax holds the maximum. */
  lemma MaxIndexIsSeqMax(f: seq<real>, k: int)
    requires IsMaxIndex(f, k)
    ensures f[k] == SeqMax(f)
  {
    SeqMaxIsAttained(f);
    var k' :| IsMaxIndex(f, k') && f[k'] == SeqMax(f);
    assert f[k] <= f[k'] && f[k'] <= f[k];
  }

  // ---------------------------------------------------------------------------
  // evaluate_population
  // ---------------------------------------------------------------------------

  /**
   * The PSO update of evaluate_population: take the fitness when the stored score exceeds it.
   * The bookkeeping keeps the SMALLEST fitness seen, although knapsack maximises.
   */
  function PsoScore(score: Score, f: real): (r: Score)
    ensures r.Fin? && r.v <= f
    ensures score.Fin? ==> r.v <= score.v
    ensures r == score || r == Fin(f)
  {
    if Above(score, f) then Fin(f) else score
  }

  /**
   * evaluate_population: rows are repaired and scored in order; best is a copy of a row of
   * maximal fitness. Err(IndexError) where a repair raises or the population is empty
   * (argsort of an empty fitness vector has no element 0). pBest and pBestScore are touched
   * only for PSO.
   */
  method EvaluatePopulation(mh: string, population: array<seq<real>>, fitness: array<real>, inst: Instance,
                            o: seq<int>, pBest: array<seq<real>>, pBestScore: array<Score>)
    returns (r: Result<(seq<real>, real)>)
    requires Valid(inst) && IsArgsort(o, inst.tradeOff)
    requires fitness.Length == population.Length && BinaryRows(inst, population[..])
    requires mh == "PSO" ==> pBest.Length == population.Length && pBestScore.Length == population.Length
    requires pBest != population
    modifies population, fitness, pBest, pBestScore
    ensures r.Err? ==> r.error == IndexError
    ensures r.Ok? <==> population.Length > 0 &&
                       forall i :: 0 <= i < population.Length ==> EvaluatedRow(inst, o, old(population[i])).Some?
    ensures r.Ok? ==> forall i :: 0 <= i < population.Length ==>
                        EvaluatedRow(inst, o, old(population[i])) == Some(population[i]) &&
                        fitness[i] == Fitness(inst, population[i])
    ensures r.Ok? ==> exists k :: IsMaxIndex(fitness[..], k) && r.value == (population[k], fitness[k])
    ensures r.Ok? && mh == "PSO" ==> forall i :: 0 <= i < population.Length ==>
                        pBestScore[i] == PsoScore(old(pBestScore[i]), fitness[i]) &&
                        pBest[i] == if Above(old(pBestScore[i]), fitness[i]) then population[i] else old(pBest[i])
    ensures mh != "PSO" ==> pBest[..] == old(pBest[..]) && pBestScore[..] == old(pBestScore[..])
  {
    ghost var rows0 := population[..];
    ghost var best0 := pBest[..];
    ghost var scores0 := pBestScore[..];
    var n := population.Length;
    for i := 0 to n
      invariant forall j :: i <= j < n ==> population[j] == rows0[j]
      invariant forall j :: 0 <= j < i ==>
                  EvaluatedRow(inst, o, rows0[j]) == Some(population[j]) && fitness[j] == Fitness(inst, population[j])
      invariant mh == "PSO" ==> forall j :: 0 <= j < i ==>
                  pBestScore[j] == PsoScore(scores0[j], fitness[j]) &&
                  pBest[j] == if Above(scores0[j], fitness[j]) then population[j] else best0[j]
      invariant mh == "PSO" ==> forall j :: i <= j < n ==> pBestScore[j] == scores0[j] && pBest[j] == best0[j]
      invariant mh != "PSO" ==> pBest[..] == best0 && pBestScore[..] == scores0
    {
      var row := EvaluateRow(inst, o, population[i]);
      if row.None? {
        return Err(IndexError);
      }
      StoreRow(mh, true, population, fitness, pBest, pBestScore, i, row.value, Fitness(inst, row.value));
    }
    if n == 0 {
      return Err(IndexError);
    }
    SeqMaxIsAttained(fitness[..]);
    var k :| 0 <= k < n && IsMaxIndex(fitness[..], k);
    r := Ok((population[k], fitness[k]));
  }

  /**
   * The end of one loop pass of evaluate_population (updateScore) or binarize_and_evaluate:
   * row i and its fitness f are stored, and under PSO the row is copied into pBest when the
   * stored score is above f, the score itself being lowered only when updateScore holds.
   */
  method StoreRow(mh: string, updateScore: bool, population: array<seq<real>>, fitness: array<real>,
                  pBest: array<seq<real>>, pBestScore: array<Score>, i: nat, row: seq<real>, f: real)
    requires i < population.Length == fitness.Length
    requires mh == "PSO" ==> pBest.Length == population.Length && pBestScore.Length == population.Length
    requires pBest != population
    modifies population, fitness, pBest, pBestScore
    ensures population[..] == old(population[..])[i := row]
    ensures fitness[..] == old(fitness[..])[i := f]
    ensures mh == "PSO" ==> pBest[..] == old(pBest[..])[i := if Above(old(pBestScore[i]), f) then row else old(pBest[i])]
    ensures mh == "PSO" && updateScore ==> pBestScore[..] == old(pBestScore[..])[i := PsoScore(old(pBestScore[i]), f)]
    ensures mh != "PSO" ==> pBest[..] == old(pBest[..])
    ensures !(mh == "PSO" && updateScore) ==> pBestScore[..] == old(pBestScore[..])
  {
    population[i] := row;
    fitness[i] := f;
    if mh == "PSO" {
      if Above(pBestScore[i], f) {
        if updateScore {
          pBestScore[i] := Fin(f);
        }
        pBest[i] := row;
      }
    }
  }

  // ---------------------------------------------------------------------------
  // binarize_and_evaluate
  // ---------------------------------------------------------------------------

  /** Row i before the feasibility test: binarized by binarize(row, i) except under GA. */
  function BinarizedRow(mh: string, binarize: (seq<real>, nat) -> seq<real>, row: seq<real>, i: nat): seq<real> {
    if mh != "GA" then binarize(row, i) else row
  }

  /**
   * binarize_and_evaluate: binarize(row, i) stands for b.aplicarBinarizacion(row, DS, best,
   * matrixBin[i]). false where a repair raises IndexError. For PSO a row is copied into pBest
   * when its fitness is below the stored score, which itself is never updated here.
   */
  method BinarizeAndEvaluate(mh: string, population: array<seq<real>>, fitness: array<real>,
                             binarize: (seq<real>, nat) -> seq<real>, inst: Instance, o: seq<int>,
                             pBest: array<seq<real>>, pBestScore: array<Score>)
    returns (ok: bool)
    requires Valid(inst) && IsArgsort(o, inst.tradeOff)
    requires fitness.Length == population.Length
    requires forall x: seq<real>, i: nat :: |binarize(x, i)| == inst.items && Binary(binarize(x, i))
    requires mh == "GA" ==> BinaryRows(inst, population[..])
    requires mh == "PSO" ==> pBest.Length == population.Length && pBestScore.Length == population.Length
    requires pBest != population
    modifies population, fitness, pBest, pBestScore
    ensures pBestScore[..] == old(pBestScore[..])
    ensures ok <==> forall i :: 0 <= i < population.Length ==>
                      EvaluatedRow(inst, o, BinarizedRow(mh, binarize, old(population[i]), i)).Some?
    ensures ok ==> forall i :: 0 <= i < population.Length ==>
                     EvaluatedRow(inst, o, BinarizedRow(mh, binarize, old(population[i]), i)) == Some(population[i]) &&
                     fitness[i] == Fitness(inst, population[i])
    ensures ok && mh == "PSO" ==> forall i :: 0 <= i < population.Length ==>
                     pBest[i] == if Above(pBestScore[i], fitness[i]) then population[i] else old(pBest[i])
    ensures mh != "PSO" ==> pBest[..] == old(pBest[..])
  {
    ghost var rows0 := population[..];
    ghost var best0 := pBest[..];
    ghost var scores0 := pBestScore[..];
    var n := population.Length;
    for i := 0 to n
      invariant forall j :: i <= j < n ==> population[j] == rows0[j]
      invariant forall j :: 0 <= j < i ==>
                  EvaluatedRow(inst, o, BinarizedRow(mh, binarize, rows0[j], j)) == Some(population[j]) &&
                  fitness[j] == Fitness(inst, population[j])
      invariant mh == "PSO" ==> forall j :: 0 <= j < i ==>
                  pBest[j] == if Above(pBestScore[j], fitness[j]) then population[j] else best0[j]
      invariant mh == "PSO" ==> forall j :: i <= j < n ==> pBest[j] == best0[j]
      invariant mh != "PSO" ==> pBest[..] == best0
      invariant pBestScore[..] == scores0
    {
      var x := population[i];
      if mh != "GA" {
        x := binarize(x, i);
      }
      var row := EvaluateRow(inst, o, x);
      if row.None? {
        return false;
      }
      StoreRow(mh, false, population, fitness, pBest, pBestScore, i, row.value, Fitness(inst, row.value));
    }
    ok := true;
  }

  // ---------------------------------------------------------------------------
  // update_best_solution
  // ---------------------------------------------------------------------------

  /**
   * update_best_solution, with `top` the index np.argsort(fitness)[::-1][0] picks (any argmax).
   * The best changes only on a strict improvement. Err(IndexError) for an empty fitness vector.
   */
  function UpdateBestSolution(population: seq<seq<real>>, fitness: seq<real>, best: seq<real>,
                              bestFitness: real, top: int): (r: Result<(seq<real>, real)>)
    requires |population| == |fitness|
    requires |fitness| > 0 ==> IsMaxIndex(fitness, top)
    ensures r.Err? <==> |fitness| == 0
    ensures r.Err? ==> r.error == IndexError
    ensures r.Ok? ==> bestFitness <= r.value.1 && forall i :: 0 <= i < |fitness| ==> fitness[i] <= r.value.1
    ensures r.Ok? ==> r.value == (best, bestFitness) || r.value == (population[top], fitness[top])
  {
    if |fitness| == 0 then Err(IndexError)
    else if fitness[top] > bestFitness then Ok((population[top], fitness[top]))
    else Ok((best, bestFitness))
  }

  function RealMax(x: real, y: real): real {
    if x >= y then x else y
  }

  /** The new best fitness is max(old best fitness, max fitness), whichever argmax numpy picks. */
  lemma UpdateBestIsMax(population: seq<seq<real>>, fitness: seq<real>, best: seq<real>, bestFitness: real, top: int)
    requires |population| == |fitness| > 0 && IsMaxIndex(fitness, top)
    ensures UpdateBestSolution(population, fitness, best, bestFitness, top).value.1 == RealMax(bestFitness, SeqMax(fitness))
    ensures UpdateBestSolution(population, fitness, best, bestFitness, top).value.0 ==
              if SeqMax(fitness) > bestFitness then population[top] else best
  {
    MaxIndexIsSeqMax(fitness, top);
  }

  /** One generation's population, fitness and the argmax numpy ranks first. */
  datatype Generation = Generation(population: seq<seq<real>>, fitness: seq<real>, top: int)

  predicate WellRanked(g: Generation) {
    |g.population| == |g.fitness| > 0 && IsMaxIndex(g.fitness, g.top)
  }

  /** The best fitness after feeding a run of generations through update_best_solution. */
  function BestAfter(gens: seq<Generation>, best: seq<real>, bestFitness: real): real
    requires forall k :: 0 <= k < |gens| ==> WellRanked(gens[k])
    decreases |gens|
  {
    if gens == [] then bestFitness
    else
      assert WellRanked(gens[0]);
      var g := gens[0];
      var u := UpdateBestSolution(g.population, g.fitness, best, bestFitness, g.top).value;
      BestAfter(gens[1..], u.0, u.1)
  }

  /** Over a run the best fitness never decreases and dominates every generation's fitness. */
  lemma {:induction false} BestFitnessMonotone(gens: seq<Generation>, best: seq<real>, bestFitness: real)
    requires forall k :: 0 <= k < |gens| ==> WellRanked(gens[k])
    ensures bestFitness <= BestAfter(gens, best, bestFitness)
    ensures forall k, i :: 0 <= k < |gens| && 0 <= i < |gens[k].fitness| ==>
              gens[k].fitness[i] <= BestAfter(gens, best, bestFitness)
    decreases |gens|
  {
    if gens != [] {
      var g := gens[0];
      var u := UpdateBestSolution(g.population, g.fitness, best, bestFitness, g.top).value;
      BestFitnessMonotone(gens[1..], u.0, u.1);
      forall k, i | 0 <= k < |gens| && 0 <= i < |gens[k].fitness|
        ensures gens[k].fitness[i] <= BestAfter(gens, best, bestFitness)
      {
        if k > 0 {
          assert gens[k] == gens[1..][k - 1];
        }
      }
    }
  }

  // ---------------------------------------------------------------------------
  // iterate_population_kp
  // ---------------------------------------------------------------------------

  /** The names the dispatcher can hand to a strategy. */
  const ContextKeys: set<string> := {
    "maxIter", "iter", "dim", "population", "fitness", "best", "vel", "pBest",
    "ub", "lb", "ub0", "lb0", "fo", "objective_type"
  }

  /** The kwargs built from MH_ARG_MAP[mh], in order; KeyError at the first name not in the context. */
  function BuildKwargs(required: seq<string>): (r: Result<seq<string>>)
    ensures r.Ok? <==> forall k :: 0 <= k < |required| ==> required[k] in ContextKeys
    ensures r.Ok? ==> r.value == required
    ensures r.Err? ==> r.error == KeyError
    decreases |required|
  {
    if required == [] then Ok([])
    else if required[0] !in ContextKeys then Err(KeyError)
    else
      var rest := BuildKwargs(required[1..]);
      if rest.Err? then rest
      else
        assert required == [required[0]] + required[1..];
        Ok([required[0]] + rest.value)
  }

  /** What a strategy hands back, in the shapes the dispatcher tells apart. */
  datatype Returned =
    | Pair(first: seq<seq<real>>, second: seq<seq<real>>)  // a tuple of length 2
    | Rows(rows: seq<seq<real>>)                           // an ndarray or a list
    | Other                                                // anything else

  /** A strategy call either returns or raises TypeError (bad keyword arguments). */
  datatype Outcome = Returned(value: Returned) | RaisedTypeError

  /** The dispatcher's result: new population, velocity and the LOA improvement candidates. */
  datatype Step = Step(population: seq<seq<real>>, vel: Option<seq<seq<real>>>, improvements: Option<seq<seq<real>>>)

  /** The return-shape normalisation after the strategy call. */
  function Normalise(mh: string, result: Returned, vel: Option<seq<seq<real>>>): (r: Result<Step>)
    ensures r.Err? <==> result.Other? || (mh == "LOA" && !result.Pair?)
    ensures r.Err? ==> r.error == TypeError
    ensures r.Ok? && mh == "LOA" ==> r.value == Step(result.first, vel, Some(result.second))
    ensures r.Ok? && mh != "LOA" && result.Pair? ==> r.value == Step(result.first, Some(result.second), None)
    ensures r.Ok? && result.Rows? ==> r.value == Step(result.rows, vel, None)
  {
    if mh == "LOA" then
      if result.Pair? then Ok(Step(result.first, vel, Some(result.second))) else Err(TypeError)
    else
      match result
      case Pair(p, v) => Ok(Step(p, Some(v), None))
      case Rows(p) => Ok(Step(p, vel, None))
      case Other => Err(TypeError)
  }

  /** Python's float() on the decimal forms the parameter strings use. */
  function PyFloat(s: string): Result<real> {
    match ParseDecimal(s)
    case None => Err(ValueError)
    case Some(x) => Ok(x)
  }

  /** The text after the first ':' of a part, as float(part.split(":")[1]). */
  function ValueAfterColon(part: string): (r: Result<real>)
    ensures ':' !in part ==> r == Err(IndexError)
    ensures r.Err? ==> r.error == IndexError || r.error == ValueError
  {
    var kv := Split(part, ':');
    assert ':' !in part ==> |kv| == 1 by {
      if ':' !in part { SplitNoSep(part, ':'); }
    }
    if |kv| < 2 then Err(IndexError) else PyFloat(kv[1])
  }

  /** The GA parameter string "cross:x;muta:y": cross from the first ';'-part, muta from the second. */
  function ParseGAParam(param: string): (r: Result<(real, real)>)
    ensures ';' !in param ==> r.Err?
    ensures r.Err? ==> r.error == IndexError || r.error == ValueError
  {
    var partes := Split(param, ';');
    assert ';' !in param ==> |partes| == 1 by {
      if ';' !in param { SplitNoSep(param, ';'); }
    }
    var cross :- ValueAfterColon(partes[0]);
    if |partes| < 2 then Err(IndexError)
    else
      var muta :- ValueAfterColon(partes[1]);
      Ok((cross, muta))
  }

  /** A parameter string built from two key:value pairs parses back to the two values. */
  lemma ParseGAParamOfPairs(k1: string, v1: string, k2: string, v2: string)
    requires ';' !in k1 && ';' !in v1 && ';' !in k2 && ';' !in v2
    requires ':' !in k1 && ':' !in v1 && ':' !in k2 && ':' !in v2
    requires ParseDecimal(v1).Some? && ParseDecimal(v2).Some?
    ensures ParseGAParam(k1 + ":" + v1 + ";" + k2 + ":" + v2) ==
              Ok((ParseDecimal(v1).value, ParseDecimal(v2).value))
  {
    var p1, p2 := k1 + ":" + v1, k2 + ":" + v2;
    assert ';' !in p1 && ';' !in p2;
    assert k1 + ":" + v1 + ";" + k2 + ":" + v2 == p1 + [';'] + p2;
    SplitConcat(p1, ';', p2);
    SplitNoSep(p1, ';');
    SplitNoSep(p2, ';');
    assert p1 == k1 + [':'] + v1 && p2 == k2 + [':'] + v2;
    SplitConcat(k1, ':', v1);
    SplitNoSep(k1, ':');
    SplitNoSep(v1, ':');
    SplitConcat(k2, ':', v2);
    SplitNoSep(k2, ':');
    SplitNoSep(v2, ':');
  }

  /**
   * iterate_population_kp. `metaheuristics` holds the registered strategy names, `argMap` is
   * MH_ARG_MAP, `strategy(mh, kwargs)` the registered call and `ga(cross, muta)` the GA call on
   * the current population and fitness.
   */
  function IteratePopulation(mh: string, population: seq<seq<real>>, vel: Option<seq<seq<real>>>,
                             param: Option<string>, metaheuristics: set<string>, argMap: map<string, seq<string>>,
                             strategy: (string, seq<string>) -> Outcome, ga: (real, real) -> seq<seq<real>>): (r: Result<Step>)
    ensures mh == "PO" ==> r == Ok(Step(population, vel, None))
    ensures mh == "GA" && param.None? ==> r == Err(ValueError)
    ensures mh == "GA" && param.Some? ==>
              r == match ParseGAParam(param.value)
                   case Err(e) => Err(e)
                   case Ok(c) => if "GA" in metaheuristics then Ok(Step(ga(c.0, c.1), vel, None)) else Err(KeyError)
    ensures mh == "GA" && r.Ok? ==> r.value.vel == vel && r.value.improvements.None?
    ensures mh != "PO" && mh != "GA" && (mh !in metaheuristics || mh !in argMap) ==> r == Err(ValueError)
    ensures mh != "PO" && mh != "GA" && mh in metaheuristics && mh in argMap && BuildKwargs(argMap[mh]).Err? ==>
              r == Err(KeyError)
    ensures mh != "PO" && mh != "GA" && mh in metaheuristics && mh in argMap && BuildKwargs(argMap[mh]).Ok? ==>
              r == match strategy(mh, argMap[mh])
                   case RaisedTypeError => Err(TypeError)
                   case Returned(v) => Normalise(mh, v, vel)
  {
    if mh == "PO" then Ok(Step(population, vel, None))
    else if mh == "GA" then
      if param.None? then Err(ValueError)
      else
        var cm :- ParseGAParam(param.value);
        if "GA" !in metaheuristics then Err(KeyError)
        else Ok(Step(ga(cm.0, cm.1), vel, None))
    else if mh !in metaheuristics then Err(ValueError)
    else if mh !in argMap then Err(ValueError)
    else
      var kwargs :- BuildKwargs(argMap[mh]);
      match strategy(mh, kwargs)
      case RaisedTypeError => Err(TypeError)
      case Returned(v) => Normalise(mh, v, vel)
  }

  /** Every guard fires before the strategy is called: a guarded call does not depend on it. */
  lemma GuardsPrecedeCall(mh: string, population: seq<seq<real>>, vel: Option<seq<seq<real>>>,
                          metaheuristics: set<string>, argMap: map<string, seq<string>>,
                          s1: (string, seq<string>) -> Outcome, s2: (string, seq<string>) -> Outcome,
                          ga: (real, real) -> seq<seq<real>>)
    requires mh != "PO" && mh != "GA"
    requires mh !in metaheuristics || mh !in argMap || BuildKwargs(argMap[mh]).Err?
    ensures IteratePopulation(mh, population, vel, None, metaheuristics, argMap, s1, ga).Err?
    ensures IteratePopulation(mh, population, vel, None, metaheuristics, argMap, s1, ga) ==
            IteratePopulation(mh, population, vel, None, metaheuristics, argMap, s2, ga)
  {
  }

  /** The GA branch on the default parameter string of the experiment generator. */
  lemma DefaultGAParam()
    ensures ParseGAParam("cross:0.8;muta:0.1") == Ok((0.8, 0.1))
  {
    DefaultGAParamShape();
    DefaultCross();
    DefaultMuta();
    DefaultPairsPlain();
    ParseGAParamOfPairs("cross", "0.8", "muta", "0.1");
  }

  lemma DefaultCross()
    ensures ParseDecimal("0.8") == Some(0.8)
  {
    DecimalLiteral("0.8", 0, 8);
  }

  lemma DefaultMuta()
    ensures ParseDecimal("0.1") == Some(0.1)
  {
    DecimalLiteral("0.1", 0, 1);
  }

  lemma DefaultPairsPlain()
    ensures ';' !in "cross" && ';' !in "0.8" && ';' !in "muta" && ';' !in "0.1"
    ensures ':' !in "cross" && ':' !in "0.8" && ':' !in "muta" && ':' !in "0.1"
  {
  }

  lemma DefaultGAParamShape()
    ensures "cross:0.8;muta:0.1" == "cross" + ":" + "0.8" + ";" + "muta" + ":" + "0.1"
  {
  }

  /** One decimal digit is a run of digits with that value. */
  lemma OneDigit(i: nat)
    requires i < 10
    ensures AllDigits([DigitChar(i)]) && DigitsValue([DigitChar(i)]) == i
  {
    assert [DigitChar(i)][..0] == [];
  }

  /** ParseDecimal on a literal "i.d" with one fractional digit. */
  lemma DecimalLiteral(s: string, i: nat, d: nat)
    requires i < 10 && d < 10 && s == [DigitChar(i), '.', DigitChar(d)]
    ensures ParseDecimal(s) == Some(i as real + d as real / 10.0)
  {
    var ci, cd := [DigitChar(i)], [DigitChar(d)];
    NoSpaceStrip(s);
    assert s[0] != '-' && s[0] != '+';
    OneDigit(i);
    OneDigit(d);
    assert s == ci + ['.'] + cd;
    SplitConcat(ci, '.', cd);
    SplitNoSep(ci, '.');
    SplitNoSep(cd, '.');
    assert Split(s, '.') == [ci, cd];
    assert Strip(s) == s;
    assert Pow10(|cd|) as real == 10.0 by {
      assert Pow10(1) == 10 * Pow10(0);
    }
    var m := DigitsValue(ci) as real + DigitsValue(cd) as real / Pow10(|cd|) as real;
    assert m == i as real + d as real / 10.0;
  }
}
