# Solver-MHV3 core, modelled in Dafny

This project models the computational core of Solver-MHV3. Solver-MHV3 is an experiment harness that runs
metaheuristics on benchmark functions (BEN), set-covering (SCP, USCP) and knapsack (KP) instances.
The model covers five pieces:

- **Knapsack adapter** (`knapsack.dfy`, module `Knapsack`):
  - fitness and the feasibility test as dot products;
  - the profit/weight trade-off with its zero-weight sentinels;
  - the two-phase greedy `repair`, as an in-place method on an array;
  - the table of known optima and the two optimum lookups.
- **Population pipeline for KP** (`population.dfy`, module `PopulationKP`):
  - the initial state;
  - the evaluate loop and the binarize-and-evaluate loop (in place on arrays), with the PSO personal-best bookkeeping kept as written;
  - the strict-improvement best update;
  - the dispatcher of `iterate_population_kp`: its guards, the GA `cross:x;muta:y` parse and the return-shape normalisation.
- **GVP binarization** (`gvp.dfy`, module `Gvp`): rank 1 goes to the largest value, then `B[j] = R[j] > R[(j+1) mod D]`.
- **Update rules** (`gwo.dfy`, `pso.dfy`, `eoo.dfy`):
  - grey wolf, updated in place row by row, where leader rows alias the population being written;
  - particle swarm, with its inertia schedule and velocity clamp;
  - Eurasian oystercatcher, with per-individual constants.

  Every random draw is an explicit input constrained to its range.
- **Experiment descriptors** across the generator (`poblar_db.dfy`, module `PoblarDB`), the database scanner (`db_scanner.dfy`, module `DbScanner`) and the runner (`main_runner.dfy`, module `MainRunner`):
  - the `paramMH` string `iter:N,pop:M<extra>` and the BEN name `<function> <dim>`;
  - parsing both back;
  - the instance-path and dimension cache of the generator;
  - the nested insert loop with its counter and summary log;
  - the scanner's BEN scan and sorted function list;
  - the runner's iteration guard, status updates and dispatch.

  The round trips across the three programs are proved as lemmas.

Shared modules:

- `Wrappers`: `Option` and `Result`, with Python's exception classes as error values.
- `Strings`: the Python `str` built-ins the core uses (`split(sep)`, `split()`, `strip`, `int()`/`str()` on integers, `float()` on decimal literals, `replace` of every occurrence, `os.path.join`).
- `Matrices`: row/column shape, `abs`, Python's negative indexing, and what an `np.argsort` result is (a permutation that orders its key).

Conventions:

- numpy arrays of floats are `seq<real>` or `array<real>`.
- `np.argsort` is any permutation that sorts its key, so ties may come in any order.
- The Python exceptions raised on the modelled paths are `Err` values; the cases listed under "Left out" are not modelled.

## Model

| member | source | states |
|---|---|---|
| Matrices.PyIndex | Metaheuristics/Codes/GWO.py:17-19 | a Python index k into n elements is valid exactly when -n <= k < n, resolves to k or k + n, and otherwise raises IndexError |
| Knapsack.Fitness | Problem/KP/problem.py:162-163 | for a 0/1 candidate, the fitness is the total profit of the selected items |
| Knapsack.FeasibleIsSelectedWeight | Problem/KP/problem.py:165-170 | a 0/1 candidate passes the feasibility test exactly when the total weight of its selected items is at most the capacity |
| Knapsack.DotIsSelectedSum | Problem/KP/problem.py:162-163 | for a 0/1 candidate, the fitness dot product is the sum of the profits of the selected items |
| Knapsack.BinaryBelowOnes | Problem/KP/problem.py:165-170 | with non-negative weights, no 0/1 candidate weighs more than selecting every item |
| Knapsack.TradeOff | Problem/KP/problem.py:143-150 | for a non-zero weight the trade-off times the weight is the profit; a zero weight gives the max-float sentinel for a non-zero profit (inf replaced) and 0 for a zero profit (nan replaced) |
| Knapsack.TradeOffs | Problem/KP/problem.py:134-150 | one trade-off per item: profit/weight where the weight is non-zero, the max-float sentinel or 0 where it is zero |
| Knapsack.SentinelAfterFinite | Problem/KP/problem.py:143-174 | in the ascending order repair uses, a zero-weight item of non-zero profit comes after every item whose trade-off is below the sentinel, so it is removed last and added first |
| Knapsack.EmptyItemBeforeProfitable | Problem/KP/problem.py:146-174 | a zero-weight, zero-profit item (trade-off 0) comes before every item of positive trade-off in the repair order |
| Knapsack.ClearPrefixAt | Problem/KP/problem.py:176-183 | after k removal steps, an item is 0 if it is among the first k of the ascending order, else unchanged |
| Knapsack.SetSuffixAt | Problem/KP/problem.py:185-192 | after m add steps, an item is 1 if it is among the last m of the order, else unchanged |
| Knapsack.ClearAllFeasible | Problem/KP/problem.py:176-183 | with capacity >= 0, clearing every item yields a feasible candidate |
| Knapsack.FirstFeasibleCut | Problem/KP/problem.py:176-183 | the removal loop stops at the first cut whose cleared candidate is feasible; every earlier cut is infeasible |
| Knapsack.FirstInfeasibleAdd | Problem/KP/problem.py:185-192 | the add loop stops at the first step whose candidate is infeasible; None when every step stays feasible |
| Knapsack.Removed | Problem/KP/problem.py:174-183 | a removal phase that ends returns a feasible candidate of the same length, 0/1 when the input is |
| Knapsack.RepairSpec | Problem/KP/problem.py:172-194 | a repair that returns gives a feasible candidate of the same length, 0/1 when the input is |
| Knapsack.RemovePhase | Problem/KP/problem.py:175-183 | the in-place removal loop leaves exactly the specified removal result, or raises (all items cleared) exactly when the specification has none |
| Knapsack.AddIndex | Problem/KP/problem.py:188 | `orden[items - i]` for i = 1..2n reads the order back to front, then wraps through negative indices to the back again |
| Knapsack.AddOne | Problem/KP/problem.py:188-192 | one turn of the add loop keeps the loop state: the array is the candidate with the order's last t items set (t capped at n), `factible` is its feasibility, and once infeasible `pos` is the item just added |
| Knapsack.AddScan | Problem/KP/problem.py:185-192 | the add loop ends in the specified state; it runs out of indices only when every add stayed feasible |
| Knapsack.AddBackPhase | Problem/KP/problem.py:185-194 | the add loop and the final `solution[pos] = 0` leave the candidate with the order's last m-1 items set (m the first infeasible add); the IndexError case is when no add is infeasible |
| Knapsack.Repair | Problem/KP/problem.py:172-194 | repair writes the specified result into the caller's array, and reports an IndexError exactly when the specification has no result |
| Knapsack.RemovalFailsIffNegativeCapacity | Problem/KP/problem.py:176-183 | with non-negative weights, the removal loop runs past the end of the order exactly when the capacity is negative |
| Knapsack.RepairOfInfeasibleSucceeds | Problem/KP/problem.py:172-194 | an infeasible 0/1 candidate with capacity and weights >= 0 is always repaired, never raising |
| Knapsack.RepairStopsAtFirstMisfit | Problem/KP/problem.py:186-193 | the repaired candidate is maximal along the order: some unselected item would make it infeasible if added |
| Knapsack.RemovedOfFeasible | Problem/KP/problem.py:175-178 | a feasible candidate passes the removal phase unchanged |
| Knapsack.AddPhaseOfAdded | Problem/KP/problem.py:185-192 | re-running the add phase on its own output stops at the same infeasible step |
| Knapsack.RepairIdempotent | Problem/KP/problem.py:172-194 | repairing a repaired candidate changes nothing |
| Knapsack.OrdenKPIndicesContiguous | Problem/KP/problem.py:5-38 | the optimum table has 31 entries whose positions are exactly 0..30, in order |
| Knapsack.GetOptimumValue | Problem/KP/problem.py:86-90 | an optimum is found exactly when some table entry carries the name, and it is that entry's optimum; None otherwise |
| Knapsack.Lookup | Problem/KP/problem.py:86-90 | a name is found exactly when some table entry carries it, and the entry returned carries that name |
| Knapsack.GetOptimumValueListed | Problem/KP/problem.py:86-88 | every instance listed in the table has an optimum |
| Knapsack.ObtenerOptimoKP | Problem/KP/problem.py:196-201 | IndexError exactly when the key is not in the table (the `[None][1]` default), otherwise the key's table optimum |
| Knapsack.ObtenerOptimoKPOfPath | Problem/KP/problem.py:196-201 | for `dir/name.txt`, obtenerOptimoKP gives the table optimum of `name`, and IndexError for an unlisted name |
| Knapsack.InstanceKeyOfPath | Problem/KP/problem.py:197 | the key of `dir/name.txt` is `name`: the directory and the extension are stripped |
| Knapsack.InstanceKey | Problem/KP/problem.py:197 | the key is the last '/'-component, so it never contains '/' |
| PopulationKP.InitializePopulation | Solver/population/population_KP.py:7-19 | pop 0/1 rows of the item count; vel and pBest are zero matrices and pBestScore is all +inf for PSO only, otherwise all three are None |
| PopulationKP.EvaluatedRow | Solver/population/population_KP.py:27-29 | a row after the feasibility test and repair is feasible, of the same length, and 0/1 when it was |
| PopulationKP.EvaluatedRowSucceeds | Solver/population/population_KP.py:27-29 | with capacity and weights >= 0 the test-then-repair step never raises |
| PopulationKP.EvaluatedRowIdempotent | Solver/population/population_KP.py:27-29 | evaluating an evaluated row again leaves it as it is |
| PopulationKP.EvaluateRow | Solver/population/population_KP.py:27-29 | the test-then-repair step, with the in-place repair run on an array holding the row, gives the specified row |
| PopulationKP.SeqMaxIsAttained | Solver/population/population_KP.py:39-44 | a non-empty fitness vector has an index of maximal fitness, which is where numpy's argmax may land |
| PopulationKP.MaxIndexIsSeqMax | Solver/population/population_KP.py:39-44 | whichever maximal index argsort ranks first, its fitness is the maximum |
| PopulationKP.PsoScore | Solver/population/population_KP.py:33-35 | the PSO personal-best score is either kept or replaced by the new fitness, is at most the new fitness and at most the old score: it keeps the smallest fitness seen, although knapsack maximises |
| PopulationKP.EvaluatePopulation | Solver/population/population_KP.py:21-46 | every row is repaired in place and scored; best is a copy of a row of maximal fitness; for PSO, pBest and pBestScore follow the minimising test; IndexError for an empty population or a repair that raises |
| PopulationKP.StoreRow | Solver/population/population_KP.py:29-36 | one loop turn writes exactly row i of the population and fitness, and for PSO the personal best of row i |
| PopulationKP.BinarizeAndEvaluate | Solver/population/population_KP.py:144-175 | every row is binarized (except under GA), repaired and scored in place; for PSO a row goes into pBest when its fitness is below the stored score, and pBestScore is never changed |
| PopulationKP.UpdateBestSolution | Solver/population/population_KP.py:178-187 | IndexError exactly on empty fitness; otherwise the returned fitness bounds the old best and every fitness, and the best is replaced only by the top-ranked row |
| PopulationKP.UpdateBestIsMax | Solver/population/population_KP.py:178-187 | the new best fitness is max(old best, max fitness), and the best row changes only on strict improvement |
| PopulationKP.BestFitnessMonotone | Solver/population/population_KP.py:178-187 | over a run of generations the best fitness never decreases and dominates every fitness seen |
| PopulationKP.BuildKwargs | Solver/population/population_KP.py:104-111 | the keyword list is built exactly when every required name is a context key, in order; otherwise KeyError |
| PopulationKP.Normalise | Solver/population/population_KP.py:119-141 | LOA must return a pair (population, improvements); any other pair is (population, vel); a bare array keeps vel; anything else is TypeError |
| PopulationKP.ValueAfterColon | Solver/population/population_KP.py:67-68 | a part without ':' raises IndexError; the only errors are IndexError and ValueError |
| PopulationKP.ParseGAParam | Solver/population/population_KP.py:66-68 | a parameter without ';' raises (its second part is missing); the only errors are IndexError and ValueError |
| PopulationKP.ParseGAParamOfPairs | Solver/population/population_KP.py:66-68 | `k1:v1;k2:v2` with decimal values parses to the two floats |
| PopulationKP.DefaultGAParam | Solver/population/population_KP.py:66-68 | the generator's default GA parameter `cross:0.8;muta:0.1` parses to (0.8, 0.1) |
| PopulationKP.IteratePopulation | Solver/population/population_KP.py:49-141 | PO returns the population and vel unchanged; GA without a parameter is ValueError; GA with one raises what the `cross`/`muta` parse raises, then KeyError when GA is not registered, and otherwise returns the GA call on the parsed values with vel kept; an unknown mh or one missing from the argument map is ValueError; a missing context key is KeyError; otherwise the call's result is normalised, and a TypeError it raises propagates |
| PopulationKP.GuardsPrecedeCall | Solver/population/population_KP.py:76-111 | when a guard fires, the result is an error and does not depend on the strategy at all |
| Gvp.ScatterAt | gvp_testing.py:13-14 | after the scatter, the item at position a of the argsort holds a + 1 |
| Gvp.ScatterAll | gvp_testing.py:14 | the scatter of 1..D through a permutation puts a + 1 at the item in position a, for every a |
| Gvp.Ranks | gvp_testing.py:12-14 | the item at position a of the descending argsort gets rank a + 1 |
| Gvp.Bits | gvp_testing.py:18-21 | every bit is 0 or 1, and B[j] is 1 exactly when R[j] > R[(j + 1) mod D] |
| Gvp.GvpBinarization | gvp_testing.py:3-22 | R and B both have length D |
| Gvp.RanksArePermutation | gvp_testing.py:12-14 | the ranks are exactly 1..D, each once |
| Gvp.RanksReverseOrder | gvp_testing.py:12-14 | a strictly larger value gets a strictly smaller rank, so rank 1 is the largest |
| Gvp.BitsMixed | gvp_testing.py:18-21 | with two or more values, B holds a 1 (at the last-ranked item) and a 0 (at the first-ranked) |
| Gvp.WorkedExample | gvp_testing.py:31-36 | the script's example gives R = [5,3,8,2,1,7,4,6] and B = [1,0,1,1,0,1,0,1], for every argsort numpy may return |
| Gwo.ChooseLeaders | Metaheuristics/Codes/GWO.py:12-19 | MIN takes the first three rows of the order; MAX takes the last three by Python indexing; other objectives choose none; too few rows is IndexError; chosen leaders are rows of the population |
| Gwo.Schedule | Metaheuristics/Codes/GWO.py:6 | with 0 <= iter <= maxIter, a lies in [0, 2] |
| Gwo.LeadersByObjective | Metaheuristics/Codes/GWO.py:12-19 | under MIN, alpha has the least fitness and alpha <= beta <= delta; under MAX with three rows or more, alpha has the greatest and delta <= beta <= alpha |
| Gwo.TwoRowsMaxWraps | Metaheuristics/Codes/GWO.py:16-19 | MAX with two rows does not raise: delta wraps round to the same row as alpha |
| Gwo.ScheduleEnds | Metaheuristics/Codes/GWO.py:6 | a is 2 at iteration 0 and 0 at maxIter, and falls as the iteration grows |
| Gwo.CoefficientRanges | Metaheuristics/Codes/GWO.py:31-33 | with draws in [0, 1], each A lies in [-a, a] and each C in [0, 2] |
| Gwo.LastIterationAverages | Metaheuristics/Codes/GWO.py:35-63 | at a = 0 the new coordinate is the plain average of the three leaders' values |
| Gwo.SweepLeavesLater | Metaheuristics/Codes/GWO.py:24-25 | cells the row-by-row sweep has not reached still hold their old values |
| Gwo.SweepKeepsEarlier | Metaheuristics/Codes/GWO.py:24-25 | a cell, once written, is never written again: the final value is the one computed at its turn |
| Gwo.Sweep | Metaheuristics/Codes/GWO.py:24-63 | the sweep up to cell (i, j) leaves every later row and the rest of row i from column j on untouched |
| Gwo.LeaderReadAtCell | Metaheuristics/Codes/GWO.py:35-63 | a leader row earlier than the current row is read with its final, updated values; a later one with its original values |
| Gwo.UpdateCellInPlace | Metaheuristics/Codes/GWO.py:27-63 | one inner-loop turn overwrites exactly population[i][j], reading the leaders in the current state |
| Gwo.UpdateRowInPlace | Metaheuristics/Codes/GWO.py:25-63 | the inner loop carries the population from the sweep before row i to the sweep after it |
| Gwo.GwoResult | Metaheuristics/Codes/GWO.py:5-64 | ZeroDivisionError exactly for maxIter 0; otherwise IndexError exactly when MIN has fewer than 3 rows, MAX fewer than 2, or another objective has rows and columns (empty leaders); a result has the input's shape |
| Gwo.IterarGWO | Metaheuristics/Codes/GWO.py:5-64 | the caller's population ends as the specified sweep and is returned; ZeroDivisionError for maxIter 0 and IndexError for missing leaders, both before any write |
| Pso.IterarPSO | Metaheuristics/Codes/PSO.py:3-34 | ZeroDivisionError exactly when maxIter is 0; otherwise new population and velocity with the input's shape |
| Pso.Inertia | Metaheuristics/Codes/PSO.py:9-15 | with 0 <= it <= maxIter, w lies in [0.1, 0.9] |
| Pso.Clip | Metaheuristics/Codes/PSO.py:29 | np.clip: inside [lo, hi] the value is kept, below it becomes lo, above it hi |
| Pso.Velocity | Metaheuristics/Codes/PSO.py:8-29 | the new velocity lies in [-0.1 ub, 0.1 ub], and equals the raw inertia-plus-attraction velocity when that is in range |
| Pso.InertiaSchedule | Metaheuristics/Codes/PSO.py:9-15 | w is 0.9 at iteration 0 and 0.1 at maxIter, and falls as the iteration grows |
| Pso.ClipBounds | Metaheuristics/Codes/PSO.py:29 | the clipped velocity lies in [-Vmax, Vmax] and is untouched when already inside |
| Pso.PsoStepBounded | Metaheuristics/Codes/PSO.py:8-32 | every new velocity lies in [-0.1 ub, 0.1 ub], is the raw velocity when that is in range, and is the position's step |
| Pso.PsoRestAtBest | Metaheuristics/Codes/PSO.py:22-29 | a particle at rest on its personal and global best stays at rest |
| Eoo.IterarEOO | Metaheuristics/Codes/EOO.py:6-36 | ZeroDivisionError exactly for a single individual; otherwise a new population of the same shape |
| Eoo.EooConstantRanges | Metaheuristics/Codes/EOO.py:13-21 | with L in [3, 5], T = 5(L - 5) - 5 lies in [-15, -5] and C = L - 2.4 lies in [0.6, 2.6] |
| Eoo.EooE | Metaheuristics/Codes/EOO.py:11-19 | with two or more individuals E is at least its default 1/(n - 1) - 0.5, and equals it from the last iteration on |
| Eoo.EooExplorationDecays | Metaheuristics/Codes/EOO.py:11-19 | E never grows as the iteration advances |
| Eoo.EooValue | Metaheuristics/Codes/EOO.py:31-34 | C x + Y with Y = T + E + L r (best - x) is the affine map (C - L r) x + L r best + T + E |
| Eoo.EooAffine | Metaheuristics/Codes/EOO.py:31-34 | each new coordinate is (C - L r) x + L r best + T + E, with one L, r, T, C, E per individual and Y taken before the scaling |
| PoblarDB.BinarizationLabel | poblarDB.py:110 | the stored binarization is never empty: a missing or empty one becomes 'N/A', any other is kept |
| PoblarDB.ExperimentName | poblarDB.py:100-105 | a non-BEN name is the instance name; a BEN name splits on whitespace into exactly the function and its dimension |
| PoblarDB.ParamMH | poblarDB.py:111 | paramMH starts with "iter:" and ends with the extra parameters |
| PoblarDB.CrearDataExperimento | poblarDB.py:99-117 | every generated row is 'pendiente', with the given metaheuristic and empty ML fields |
| PoblarDB.ParamMHPrefix | poblarDB.py:111 | paramMH starts with "iter:", and the extra parameters are its exact tail |
| PoblarDB.JoinPairs | poblarDB.py:202 | the joined ",k:v" pieces are empty exactly when there are no pairs |
| PoblarDB.JoinPairsAppend | poblarDB.py:202 | joining is a concatenation of pieces: join(a + b) = join(a) + join(b) |
| PoblarDB.ExtraParams | poblarDB.py:191-204 | the extra parameters are empty or start with ','; BEN gets none; KP without configured pairs gets the GA default |
| PoblarDB.FirstKeyWith | poblarDB.py:32-34 | the key chosen is the first whose '-'-components contain the function name as a whole component; None when no key does |
| PoblarDB.ObtenerDimensionesBen | poblarDB.py:31-40 | the dimensions of the first key whose '-'-components include the function; without such a key, the single opfunu default; ValueError exactly when neither exists |
| PoblarDB.WholeComponentMatch | poblarDB.py:32-34 | a later key that names the function wins over an earlier key that does not |
| PoblarDB.PrefixIsNotAMatch | poblarDB.py:32-34 | "F1" does not match the key "F10-F11", only "F1-F2" |
| PoblarDB.UscpStem | poblarDB.py:58-61 | a USCP name starting with 'u' loses exactly that 'u'; any other name is kept |
| PoblarDB.InstancePath | poblarDB.py:46-68 | the joined path is the SCP directory + "scp" + name + ".txt", the USCP directory + "uscp" + stem + ".txt", or the KP directory + name, where an absolute KP name replaces the directory |
| PoblarDB.ResolvePath | poblarDB.py:52-81 | the first path is opened when it exists; otherwise, for a KP path without ".txt", the path + ".txt" when that exists; FileNotFoundError exactly when neither applies |
| PoblarDB.CachedDimensions | poblarDB.py:42-97 | a cached pair is answered from the cache; a problem without an instance directory gets "-", uncached; otherwise the answer is the read of the resolved file, stored under its pair on success; an error leaves the cache unchanged, and no existing entry ever changes |
| PoblarDB.RepeatedLookupUsesCache | poblarDB.py:43-44 | after a successful lookup, asking again gives the same answer whatever the files now hold |
| PoblarDB.Labels | poblarDB.py:146-157 | a discrete problem iterates over every binarization action; BEN over a single missing one |
| PoblarDB.Plan | poblarDB.py:143-155 | the loops plan |dims| x |mhs| x |labels| rows |
| PoblarDB.PlanRows | poblarDB.py:143-147 | every planned row combines a dimension, a metaheuristic and a label of the inputs |
| PoblarDB.PlanLabelsRow | poblarDB.py:147-151 | the innermost loop's k-th row carries the k-th label |
| PoblarDB.ProgressSnoc | poblarDB.py:153-155 | inserting, counting and logging one more row keeps the generator's progress invariant |
| PoblarDB.Generator.constructor | poblarDB.py:13 | the generator starts with an empty cache, no inserts, no log and a zero counter |
| PoblarDB.Generator.ObtenerDimensiones | poblarDB.py:42-97 | the lookup and the new cache are those of the specification; the counter, log and inserts are untouched |
| PoblarDB.Generator.InsertRow | poblarDB.py:151-155 | one row is inserted, counted by num_experimentos and logged; a failing dimension lookup raises after the insert and count, before the log |
| PoblarDB.Generator.InsertLabels | poblarDB.py:147-155 | the innermost loop inserts its labels' rows in order, or fails on the very first row |
| PoblarDB.Generator.InsertMhs | poblarDB.py:144-160 | the metaheuristic loop inserts its rows in order, or fails on the very first row |
| PoblarDB.Generator.InsertarExperimentos | poblarDB.py:140-160 | inserts exactly the planned rows in nesting order, adds num_experimentos per row, and logs each with the first lookup's dimension text; IndexError without an instance; a lookup error aborts after one insert |
| DbScanner.AplanarLista | db_scanner.py:20-22 | the first component of each row, in order; IndexError exactly when some row is empty |
| DbScanner.AplanarListaOfColumn | db_scanner.py:20-22 | flattening a column of one-element rows gives the column back |
| DbScanner.ApplyPart | db_scanner.py:107-113 | a part without ':' is skipped; the only error is ValueError |
| DbScanner.ApplyPartOfKeyValue | db_scanner.py:108-113 | for a part "key:val" whose stripped key is iter or pop, the part fails exactly when int(val) does and otherwise sets that counter to int(val); any other key leaves the parameters unchanged |
| DbScanner.ParsePart | db_scanner.py:107-113 | the loop body on one part computes exactly the specified per-part step |
| DbScanner.ParseParts | db_scanner.py:106-113 | the only error is ValueError, and parts none of which holds ':' parse to no counters |
| DbScanner.ParsePartsErrSticks | db_scanner.py:107-113 | the first failing part decides the failure of the whole parse |
| DbScanner.ParseParamMH | db_scanner.py:104-113 | the scanner's loop over the ','-parts computes the specified parse |
| DbScanner.LaterCounterOverrides | db_scanner.py:110-113 | a later iter or pop part overrides whatever an earlier one set |
| DbScanner.NeutralPartsKeep | db_scanner.py:107-113 | parts without ':' or with another key leave the parse unchanged |
| DbScanner.CountersParse | db_scanner.py:104-113 | the two counter parts parse to the iteration and population counts |
| DbScanner.ParamMHRoundTrip | db_scanner.py:104-113 | parsing a generated paramMH whose extras hold no iter/pop key recovers the original counts |
| DbScanner.GeneratedExtrasAreNeutral | poblarDB.py:191-204 | the SCP/USCP string, the KP default and any configured KP pairs without iter/pop keys are skipped by the scanner |
| DbScanner.GeneratedParamMHRoundTrip | db_scanner.py:104-113 | every paramMH the generator writes, for any problem, parses back to its iteration and population counts |
| DbScanner.ReconstruirParametros | db_scanner.py:103-127 | counters come from the first paramMH (none without rows), ValueError from a bad int; num_experimentos is the top group count, 1 without groups |
| DbScanner.Added | db_scanner.py:81-83 | appending when absent: the list then holds exactly the old items and the new one |
| DbScanner.AddedDistinct | db_scanner.py:81-83 | appending only when absent keeps a list free of duplicates |
| DbScanner.ScanNameWellFormed | db_scanner.py:77-83 | one name keeps the scan well formed: distinct functions, each with distinct dimensions |
| DbScanner.ScanNames | db_scanner.py:76-83 | a completed scan is well formed (distinct functions, each with distinct dimensions); the only error is ValueError |
| DbScanner.ScanNameGrows | db_scanner.py:77-83 | one name only adds: earlier functions and dimensions stay, a two-token name adds its function and int(dim), and every new entry is that name's |
| DbScanner.ScanNamesErrIff | db_scanner.py:76-83 | the scan raises exactly when some name of two tokens has a dimension that is not an integer |
| DbScanner.ScanNamesCovers | db_scanner.py:76-83 | every name of exactly two tokens puts its function in the scan, with int(dim) among that function's dimensions |
| DbScanner.ScanNamesFrom | db_scanner.py:76-83 | every function and every dimension of the scan comes from a name of exactly two tokens; other names contribute nothing |
| DbScanner.BenNameRoundTrip | db_scanner.py:78-83 | the generator's "<function> <dim>" scans to that function, with that dimension among its dimensions |
| DbScanner.ScanBen | db_scanner.py:76-83 | the scanner's loop computes the specified scan, and its result is well formed |
| DbScanner.ScanNamesErrSticks | db_scanner.py:82 | the first name whose dimension is not an int decides the failure of the whole scan |
| DbScanner.StrLessTransitive | db_scanner.py:84 | Python's string order is transitive |
| DbScanner.InsertSorted | db_scanner.py:84 | inserting into an ascending list keeps it ascending, with the new item and the old ones |
| DbScanner.Sorted | db_scanner.py:84 | the sorted list is ascending and holds exactly the input's items |
| DbScanner.AscendingDistinct | db_scanner.py:84 | an ascending list has no duplicates |
| DbScanner.BenInstances | db_scanner.py:84 | the BEN instance list holds exactly the functions found, in ascending order |
| DbScanner.FlagsOf | db_scanner.py:145-148 | some flag is set exactly when one of BEN, SCP, USCP, KP occurs among the types; no types give no flags |
| MainRunner.IntParam | main.py:19-20 | int(parametros[key]): KeyError exactly when the key is absent, ValueError for a non-integer, else its value |
| MainRunner.Param | main.py:25-27 | parametros[key]: the value when present, KeyError exactly when absent |
| MainRunner.Parametros | main.py:54-58 | the parsed parameters, with mh and instancia overwritten by the experiment's and instance's values |
| MainRunner.BenDim | main.py:14 | when it raises, the error is IndexError exactly when the name has no second space-separated part, and ValueError otherwise |
| MainRunner.BoundOf | main.py:15-16 | when it raises, the error is IndexError exactly when the part has no ':', and ValueError otherwise |
| MainRunner.BenBounds | main.py:15-16 | lb and ub are the floats after ':' in the first and second ','-parts |
| MainRunner.EjecutarBen | main.py:12-21 | the BEN solver is called exactly when the dimension, both bounds and the iteration and population counts read; it gets the experiment's id, mh, the instance as function, that dimension, those bounds and counts; a bad dimension raises first |
| MainRunner.BenDimRoundTrip | main.py:14 | the dimension read from a generated BEN name "<function> <dim>" is that dim |
| MainRunner.Tail | main.py:79 | name[1:] drops exactly the first character, and is empty for an empty name |
| MainRunner.SetCoverInstance | main.py:76-79 | SCP passes "scp" + name; USCP passes "uscp" + the name without its first character, which is the generator's file stem when the name starts with 'u', and three characters longer than a non-empty name |
| MainRunner.EjecutarScp | main.py:23-32 | the SCP solver is called exactly when repair and cros are present and the counts read; it gets the instance, binarization, repair and cros parameters, counts and unicost flag; KeyError without repair |
| MainRunner.EjecutarKp | main.py:33-46 | the KP solver is called exactly when the iteration and population counts read (iter first); it gets the instance, binarization and counts; parMH is optional and passed when present |
| MainRunner.Dispatch | main.py:72-82 | a launch carries the experiment's id and its iteration count; an unknown problem type launches nothing |
| MainRunner.UscpNamesAgreeIff | main.py:79 | the runner's USCP name matches the generator's file stem exactly when the name is empty or starts with 'u' |
| MainRunner.Procesar | main.py:48-82 | no launch without the 'ejecutando' mark and four iterations; 'error' means nothing launched; a missing instance or unreadable count raises before any status is written |
| MainRunner.IterationGuard | main.py:63-70 | the status is 'error' exactly when the count reads and is below 4, and 'ejecutando' exactly when it is 4 or more |
| MainRunner.Run | main.py:104-107 | the main loop keeps the launches made so far as a prefix and adds at most one per queued experiment |
| MainRunner.DispatchByType | main.py:72-82 | with at least four iterations, each known problem type launches its own solver unless a parameter is bad; an unknown type ends quietly |
| MainRunner.RunLaunches | main.py:104-107 | the main loop only appends launches, at most one per experiment, each for a queued experiment with at least four iterations |
| MainRunner.RunStatuses | main.py:104-107 | the main loop changes the status of queued experiments only |
| MainRunner.RunStopsAtError | main.py:104-107 | once an experiment raises, no later experiment is processed |
| MainRunner.ExperimentStore.constructor | main.py:97-98 | the store starts with the given statuses and no solver calls |
| MainRunner.ExperimentStore.ActualizarExperimento | main.py:65 | a status update writes exactly one experiment's status |
| MainRunner.ExperimentStore.ProcesarExperimento | main.py:48-82 | the store's statuses and launches change exactly as the reference definition says, with the same result |
| MainRunner.ExperimentStore.ProcesarSiguiente | main.py:105-107 | one turn of the main loop extends the run by the next experiment |
| MainRunner.ExperimentStore.ProcesarPendientes | main.py:92-107 | the loop over the queue ends in the state and result of the reference run |

## Left out

- Database and file I/O are inputs:
  - the sqlite queries of all three programs;
  - the instance-file reading (`read_instance`, and the file contents read by `obtener_dimensiones`, passed as a `read` function);
  - the set of files on disk;
  - `bd.obtenerExperimento`, whose successive results are the queue `ProcesarPendientes` consumes.
- `parse_parametros` is not part of this model. It is an uninterpreted function from the paramMH text to a dictionary.
- Other code that is not shown is also uninterpreted, as a parameter or input:
  - `aplicarBinarizacion` (the `binarize` parameter of `BinarizeAndEvaluate`);
  - the `metaheuristics` table and `MH_ARG_MAP`;
  - the GA operator;
  - `util.selectionSort`, an input permutation that orders fitness ascending;
  - opfunu's default dimensions, a map;
  - the solver functions, whose calls are recorded as `Launch` values.
- Random draws (`np.random`, `random.uniform`) are explicit inputs with their ranges as preconditions.
- Logging, `print` and timing are not modelled.
- The report builder, the terminal launcher and `agregar_experimentos`' configuration plumbing are not modelled.
- Floating point is modelled as `real`:
  - `np.finfo(np.float64).max` is the exact constant `MaxFloat`;
  - overflow, rounding, `inf` and `nan` beyond the zero-weight sentinels are not modelled;
  - `float()` accepts only the plain decimal literals the parameter strings use (`PyFloat` over `ParseDecimal`);
  - `int()` accepts an optional sign and digits with surrounding whitespace, but no underscores.
- `Gwo.IterarGWO`: the KP population is an integer array (from `randint`), so numpy truncates the real value written to each cell. The model keeps the real value, because dtype casting is not modelled.
- `Knapsack.Repair` works on `array<real>`, since numpy's 0/1 rows are float or int arrays holding 0 and 1.
  - The add-back loop runs out of positive indices when every item fits. It then wraps through Python's negative indices and finally raises IndexError.
  - The model includes that error path rather than requiring the total weight of all items to exceed the capacity.
  - The removal loop terminates on a counter bounded by the item count. When every item is cleared and the candidate is still infeasible, the next `orden[i]` is out of range and the model returns IndexError; `RemovalFailsIffNegativeCapacity` states that, with non-negative weights, this happens exactly when the capacity is negative.
- Candidate rows are assumed to hold only 0 and 1: `Repair`, `RemovePhase`, `AddBackPhase`, `EvaluateRow`, `EvaluatePopulation` and `BinarizeAndEvaluate` require it. On other values the source's `== 1` and `== 0` tests skip entries, and that behaviour is not modelled.
- `binarize` (`aplicarBinarizacion`) and the GA operator are assumed to return 0/1 rows of the item count; that is a precondition of `BinarizeAndEvaluate`, not a checked result.
- `DbScanner.ReconstruirParametros`: a NULL paramMH makes `param_mh_str.split` raise AttributeError (db_scanner.py:105-106); the model types paramMH as a string, so that error is not modelled.
- `MainRunner.Procesar`: the `int(...)` conversions of the experiment and instance ids (main.py:50-51) are typed away, since the ids are `int` in the model.
- `Strings.IsSpace` covers only ASCII whitespace (codes 9-13 and 28-32). Python's `split()` and `strip()` also treat Unicode spaces such as U+0085 and U+00A0 as whitespace; names holding them split differently in the source.
- `PopulationKP.UpdateBestSolution` returns the best row by value. The Python returns a view of the population row, so a later in-place update of that row would also change `best`; that aliasing is not modelled.
- `DbScanner.Sorted` removes duplicates. The lists it sorts come from `SELECT DISTINCT` queries or a set, so they have none; `sorted` of a list with repeats is not modelled.
- The JSON assembly and printing of the reconstructed configuration in `db_scanner.py` (lines 133-161) is not modelled. Only its flags, parameters, BEN scan and sorted lists are.
- `crear_resumen_log` is modelled as the value `PoblarDB.SummaryOf`, without a contract of its own; `Generator.InsertRow` states where each summary comes from.
- The print-and-compare script in `gvp_testing.py` is not modelled. Only its test vector is, as `Gvp.WorkedExample`.
