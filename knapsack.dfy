/**
 * The binary knapsack problem adapter: profit of a 0/1 selection, the capacity test,
 * the profit/weight trade-off with its zero-weight sentinels, the two-phase greedy repair,
 * and the table of known optima.
 */
module Knapsack {
  import opened Wrappers
  import opened Strings
  import opened Matrices

  /** numpy's np.finfo(np.float64).max, the largest finite binary64 value. */
  const MaxFloat: real := 179769313486231570814527423731704356798070567525844996598917476803157260780028538760589558632766878171540458953514382464234321326889464182768467546703537516986049910576551282076245490090389328944075868508455133942304583236903222948165808559332123348274797826204144723168738177180919299881250404026184124858368.0

  /** An instance as read from its file: one weight and one profit per item. */
  datatype Instance = Instance(
    items: nat,
    capacity: real,
    weights: seq<real>,
    profits: seq<real>,
    tradeOff: seq<real>,
    optimum: Option<real>)

  predicate Valid(inst: Instance) {
    && |inst.weights| == inst.items
    && |inst.profits| == inst.items
    && inst.tradeOff == TradeOffs(inst.profits, inst.weights)
  }

  // ---------------------------------------------------------------------------
  // fitness and feasibility: dot products with a candidate
  // ---------------------------------------------------------------------------

  function Dot(s: seq<real>, v: seq<real>): real
    requires |s| == |v|
    decreases |s|
  {
    if s == [] then 0.0 else s[0] * v[0] + Dot(s[1..], v[1..])
  }

  /** fitness: the profit of a candidate; for a 0/1 candidate, the total profit of the chosen items. */
  function Fitness(inst: Instance, s: seq<real>): (f: real)
    requires Valid(inst) && |s| == inst.items
    ensures Binary(s) ==> f == SelectedSum(s, inst.profits)
  {
    var f := Dot(s, inst.profits);
    assert Binary(s) ==> f == SelectedSum(s, inst.profits) by {
      if Binary(s) { DotIsSelectedSum(s, inst.profits); }
    }
    f
  }

  function TotalWeight(inst: Instance, s: seq<real>): real
    requires Valid(inst) && |s| == inst.items
  {
    Dot(s, inst.weights)
  }

  /** factibilityTest: the total weight does not exceed the capacity. */
  predicate Feasible(inst: Instance, s: seq<real>)
    requires Valid(inst) && |s| == inst.items
  {
    !(TotalWeight(inst, s) > inst.capacity)
  }

  predicate Binary(s: seq<real>) {
    forall i :: 0 <= i < |s| ==> s[i] == 0.0 || s[i] == 1.0
  }

  function Zeros(n: nat): (z: seq<real>)
    ensures |z| == n && Binary(z)
  {
    seq(n, i => 0.0)
  }

  function Ones(n: nat): (z: seq<real>)
    ensures |z| == n && Binary(z)
  {
    seq(n, i => 1.0)
  }

  /** The sum of v over the selected items of a 0/1 vector, the reference reading of a dot product. */
  function SelectedSum(s: seq<real>, v: seq<real>): real
    requires |s| == |v|
    decreases |s|
  {
    if s == [] then 0.0
    else (if s[|s| - 1] == 1.0 then v[|s| - 1] else 0.0) + SelectedSum(s[..|s| - 1], v[..|v| - 1])
  }

  lemma {:induction false} DotSnoc(s: seq<real>, v: seq<real>)
    requires |s| == |v| && |s| > 0
    ensures Dot(s, v) == Dot(s[..|s| - 1], v[..|v| - 1]) + s[|s| - 1] * v[|v| - 1]
    decreases |s|
  {
    if |s| > 1 {
      DotSnoc(s[1..], v[1..]);
      assert s[1..][..|s| - 2] == s[..|s| - 1][1..];
      assert v[1..][..|v| - 2] == v[..|v| - 1][1..];
    }
  }

  /** For a 0/1 candidate, fitness is the total profit of the chosen items. */
  lemma {:induction false} DotIsSelectedSum(s: seq<real>, v: seq<real>)
    requires |s| == |v| && Binary(s)
    ensures Dot(s, v) == SelectedSum(s, v)
    decreases |s|
  {
    if s != [] {
      DotSnoc(s, v);
      DotIsSelectedSum(s[..|s| - 1], v[..|v| - 1]);
    }
  }

  /** A 0/1 candidate passes the feasibility test exactly when its chosen items weigh at most the capacity. */
  lemma FeasibleIsSelectedWeight(inst: Instance, s: seq<real>)
    requires Valid(inst) && |s| == inst.items && Binary(s)
    ensures Feasible(inst, s) <==> SelectedSum(s, inst.weights) <= inst.capacity
  {
    DotIsSelectedSum(s, inst.weights);
  }

  /** Changing one entry changes the dot product by that entry's difference times its coefficient. */
  lemma {:induction false} DotUpdate(s: seq<real>, v: seq<real>, k: nat, x: real)
    requires |s| == |v| && k < |s|
    ensures Dot(s[k := x], v) == Dot(s, v) + (x - s[k]) * v[k]
    decreases |s|
  {
    if k > 0 {
      assert s[k := x][1..] == s[1..][k - 1 := x];
      DotUpdate(s[1..], v[1..], k - 1, x);
    }
  }

  lemma {:induction false} DotZeros(v: seq<real>)
    ensures Dot(Zeros(|v|), v) == 0.0
    decreases |v|
  {
    if v != [] {
      assert Zeros(|v|)[1..] == Zeros(|v| - 1);
      DotZeros(v[1..]);
    }
  }

  lemma MulMono(a: real, b: real, c: real)
    requires a <= b && c >= 0.0
    ensures a * c <= b * c
  {
  }

  /** With non-negative coefficients the dot product grows with the vector. */
  lemma {:induction false} DotMono(s: seq<real>, t: seq<real>, v: seq<real>)
    requires |s| == |t| == |v|
    requires forall i :: 0 <= i < |s| ==> s[i] <= t[i] && v[i] >= 0.0
    ensures Dot(s, v) <= Dot(t, v)
    decreases |s|
  {
    if s != [] {
      MulMono(s[0], t[0], v[0]);
      forall i | 0 <= i < |s| - 1
        ensures s[1..][i] <= t[1..][i] && v[1..][i] >= 0.0
      {
        assert s[1..][i] == s[i + 1] && t[1..][i] == t[i + 1] && v[1..][i] == v[i + 1];
      }
      DotMono(s[1..], t[1..], v[1..]);
    }
  }

  // ---------------------------------------------------------------------------
  // the trade-off (profit / weight) with the sentinels of the zero-weight branch
  // ---------------------------------------------------------------------------

  /** p / w; an infinite ratio (w = 0, p != 0, of either sign) becomes MaxFloat and 0/0 becomes 0. */
  function TradeOff(p: real, w: real): (t: real)
    ensures w != 0.0 ==> t * w == p
    ensures w == 0.0 && p != 0.0 ==> t == MaxFloat
    ensures w == 0.0 && p == 0.0 ==> t == 0.0
  {
    if w != 0.0 then p / w
    else if p == 0.0 then 0.0
    else MaxFloat
  }

  /** The trade-off array: the plain ratio where the weight is non-zero, a sentinel where it is zero. */
  function TradeOffs(profits: seq<real>, weights: seq<real>): (t: seq<real>)
    requires |profits| == |weights|
    ensures |t| == |profits|
    ensures forall i :: 0 <= i < |t| && weights[i] != 0.0 ==> t[i] * weights[i] == profits[i]
    ensures forall i :: 0 <= i < |t| && weights[i] == 0.0 ==> t[i] == if profits[i] == 0.0 then 0.0 else MaxFloat
  {
    seq(|profits|, i requires 0 <= i < |profits| => TradeOff(profits[i], weights[i]))
  }

  /**
   * In the repair order, an item with the MaxFloat sentinel (zero weight, non-zero profit) comes
   * after every item whose trade-off is below MaxFloat: the removal loop reaches it last and the
   * add loop first.
   */
  lemma SentinelAfterFinite(inst: Instance, o: seq<int>, a: nat, b: nat)
    requires Valid(inst) && IsArgsort(o, inst.tradeOff) && a < inst.items && b < inst.items
    requires inst.weights[o[b]] == 0.0 && inst.profits[o[b]] != 0.0
    requires inst.tradeOff[o[a]] < MaxFloat
    ensures a < b
  {
    assert inst.tradeOff[o[b]] == MaxFloat;
  }

  /**
   * An item of zero weight and zero profit (the 0/0 sentinel 0) comes before every item with a
   * positive trade-off: the removal loop reaches it first and the add loop last.
   */
  lemma EmptyItemBeforeProfitable(inst: Instance, o: seq<int>, a: nat, b: nat)
    requires Valid(inst) && IsArgsort(o, inst.tradeOff) && a < inst.items && b < inst.items
    requires inst.weights[o[a]] == 0.0 && inst.profits[o[a]] == 0.0
    requires inst.tradeOff[o[b]] > 0.0
    ensures a < b
  {
    assert inst.tradeOff[o[a]] == 0.0;
  }

  // ---------------------------------------------------------------------------
  // repair: the specification
  // ---------------------------------------------------------------------------

  /** The candidate after the removal phase has cleared orden[0], ..., orden[k - 1]. */
  function ClearPrefix(s: seq<real>, o: seq<int>, k: nat): (r: seq<real>)
    requires IsPermutation(o, |s|) && k <= |s|
    ensures |r| == |s|
    ensures k == 0 ==> r == s
    decreases k
  {
    if k == 0 then s else ClearPrefix(s, o, k - 1)[o[k - 1] := 0.0]
  }

  /** The candidate after the add phase has set orden[-1], ..., orden[-m]. */
  function SetSuffix(s: seq<real>, o: seq<int>, m: nat): (r: seq<real>)
    requires IsPermutation(o, |s|) && m <= |s|
    ensures |r| == |s|
    ensures m == 0 ==> r == s
    decreases m
  {
    if m == 0 then s else SetSuffix(s, o, m - 1)[o[|s| - m] := 1.0]
  }

  /** Closed form: exactly the items among the first k of orden are cleared. */
  lemma {:induction false} ClearPrefixAt(s: seq<real>, o: seq<int>, k: nat, x: nat)
    requires IsPermutation(o, |s|) && k <= |s| && x < |s|
    ensures ClearPrefix(s, o, k)[x] == if x in o[..k] then 0.0 else s[x]
    decreases k
  {
    if k > 0 {
      ClearPrefixAt(s, o, k - 1, x);
      assert o[..k] == o[..k - 1] + [o[k - 1]];
    }
  }

  /** Closed form: exactly the items among the last m of orden are set. */
  lemma {:induction false} SetSuffixAt(s: seq<real>, o: seq<int>, m: nat, x: nat)
    requires IsPermutation(o, |s|) && m <= |s| && x < |s|
    ensures SetSuffix(s, o, m)[x] == if x in o[|s| - m..] then 1.0 else s[x]
    decreases m
  {
    if m > 0 {
      SetSuffixAt(s, o, m - 1, x);
      assert o[|s| - m..] == [o[|s| - m]] + o[|s| - (m - 1)..];
    }
  }

  lemma {:induction false} ClearPrefixBinary(s: seq<real>, o: seq<int>, k: nat)
    requires IsPermutation(o, |s|) && k <= |s|
    ensures Binary(s) ==> Binary(ClearPrefix(s, o, k))
    decreases k
  {
    if k > 0 {
      ClearPrefixBinary(s, o, k - 1);
    }
  }

  lemma {:induction false} SetSuffixBinary(s: seq<real>, o: seq<int>, m: nat)
    requires IsPermutation(o, |s|) && m <= |s|
    ensures Binary(s) ==> Binary(SetSuffix(s, o, m))
    decreases m
  {
    if m > 0 {
      SetSuffixBinary(s, o, m - 1);
    }
  }

  lemma ClearStep(s: seq<real>, o: seq<int>, k: nat)
    requires IsPermutation(o, |s|) && k < |s|
    ensures ClearPrefix(s, o, k + 1) == ClearPrefix(s, o, k)[o[k] := 0.0]
    ensures ClearPrefix(s, o, k)[o[k]] == s[o[k]]
  {
    ClearPrefixAt(s, o, k, o[k]);
  }

  lemma SetStep(s: seq<real>, o: seq<int>, m: nat)
    requires IsPermutation(o, |s|) && m < |s|
    ensures SetSuffix(s, o, m + 1) == SetSuffix(s, o, m)[o[|s| - 1 - m] := 1.0]
    ensures SetSuffix(s, o, m)[o[|s| - 1 - m]] == s[o[|s| - 1 - m]]
  {
    SetSuffixAt(s, o, m, o[|s| - 1 - m]);
  }

  lemma ClearAll(s: seq<real>, o: seq<int>)
    requires IsPermutation(o, |s|)
    ensures ClearPrefix(s, o, |s|) == Zeros(|s|)
  {
    assert o[..|s|] == o;
    forall x | 0 <= x < |s|
      ensures ClearPrefix(s, o, |s|)[x] == 0.0
    {
      ClearPrefixAt(s, o, |s|, x);
    }
  }

  lemma SetAll(s: seq<real>, o: seq<int>)
    requires IsPermutation(o, |s|)
    ensures SetSuffix(s, o, |s|) == Ones(|s|)
  {
    assert o[0..] == o;
    forall x | 0 <= x < |s|
      ensures SetSuffix(s, o, |s|)[x] == 1.0
    {
      SetSuffixAt(s, o, |s|, x);
    }
  }

  lemma ClearAllFeasible(inst: Instance, s: seq<real>, o: seq<int>)
    requires Valid(inst) && |s| == inst.items && IsPermutation(o, |s|)
    requires inst.capacity >= 0.0
    ensures Feasible(inst, ClearPrefix(s, o, |s|))
  {
    ClearAll(s, o);
    DotZeros(inst.weights);
  }

  /** The removal phase stops at the first cut whose cleared candidate is feasible. */
  function FirstFeasibleCut(inst: Instance, s: seq<real>, o: seq<int>, k: nat): (c: nat)
    requires Valid(inst) && |s| == inst.items && IsPermutation(o, |s|) && k <= |s|
    ensures k <= c <= |s|
    ensures c == |s| || Feasible(inst, ClearPrefix(s, o, c))
    ensures forall j :: k <= j < c ==> !Feasible(inst, ClearPrefix(s, o, j))
    decreases |s| - k
  {
    if k == |s| || Feasible(inst, ClearPrefix(s, o, k)) then k
    else FirstFeasibleCut(inst, s, o, k + 1)
  }

  /** The add phase stops at the first step whose candidate is infeasible; None if every step fits. */
  function FirstInfeasibleAdd(inst: Instance, s: seq<real>, o: seq<int>, m: nat): (r: Option<nat>)
    requires Valid(inst) && |s| == inst.items && IsPermutation(o, |s|) && m <= |s|
    ensures r.Some? ==> m <= r.value <= |s| && !Feasible(inst, SetSuffix(s, o, r.value))
    ensures r.Some? ==> forall j :: m <= j < r.value ==> Feasible(inst, SetSuffix(s, o, j))
    ensures r.None? ==> forall j :: m <= j <= |s| ==> Feasible(inst, SetSuffix(s, o, j))
    decreases |s| - m
  {
    if !Feasible(inst, SetSuffix(s, o, m)) then Some(m)
    else if m == |s| then None
    else FirstInfeasibleAdd(inst, s, o, m + 1)
  }

  /**
   * The candidate left by the removal phase: the first feasible cut. None when even clearing
   * every item leaves it infeasible: the source's removal loop then reads orden[n] and raises
   * IndexError.
   */
  function Removed(inst: Instance, s: seq<real>, o: seq<int>): (r: Option<seq<real>>)
    requires Valid(inst) && |s| == inst.items && IsPermutation(o, |s|)
    ensures r.Some? ==> |r.value| == |s| && Feasible(inst, r.value)
    ensures r.Some? && Binary(s) ==> Binary(r.value)
  {
    var c := FirstFeasibleCut(inst, s, o, 0);
    ClearPrefixBinary(s, o, c);
    if Feasible(inst, ClearPrefix(s, o, c)) then Some(ClearPrefix(s, o, c)) else None
  }

  /**
   * repair: remove selected items in ascending trade-off order until feasible, then add
   * unselected items in descending trade-off order until one does not fit, and drop that one.
   * None where the source raises IndexError: the removal loop runs past the end of orden, or
   * every item fits and the add loop runs past the front of orden.
   */
  function RepairSpec(inst: Instance, s: seq<real>, o: seq<int>): (r: Option<seq<real>>)
    requires Valid(inst) && |s| == inst.items && IsPermutation(o, |s|)
    ensures r.Some? ==> |r.value| == |s| && Feasible(inst, r.value)
    ensures r.Some? && Binary(s) ==> Binary(r.value)
  {
    match Removed(inst, s, o)
    case None => None
    case Some(s1) =>
      match FirstInfeasibleAdd(inst, s1, o, 0)
      case None => None
      case Some(m) =>
        SetSuffixBinary(s1, o, m - 1);
        Some(SetSuffix(s1, o, m - 1))
  }

  lemma {:induction false} FirstCutIs(inst: Instance, s: seq<real>, o: seq<int>, k: nat, c: nat)
    requires Valid(inst) && |s| == inst.items && IsPermutation(o, |s|) && k <= c <= |s|
    requires Feasible(inst, ClearPrefix(s, o, c))
    requires forall j :: k <= j < c ==> !Feasible(inst, ClearPrefix(s, o, j))
    ensures FirstFeasibleCut(inst, s, o, k) == c
    decreases c - k
  {
    if k < c {
      FirstCutIs(inst, s, o, k + 1, c);
    }
  }

  lemma {:induction false} FirstAddIs(inst: Instance, s: seq<real>, o: seq<int>, m: nat, t: nat)
    requires Valid(inst) && |s| == inst.items && IsPermutation(o, |s|) && m <= t <= |s|
    requires !Feasible(inst, SetSuffix(s, o, t))
    requires forall j :: m <= j < t ==> Feasible(inst, SetSuffix(s, o, j))
    ensures FirstInfeasibleAdd(inst, s, o, m) == Some(t)
    decreases t - m
  {
    if m < t {
      FirstAddIs(inst, s, o, m + 1, t);
    }
  }

  lemma {:induction false} NoInfeasibleAdd(inst: Instance, s: seq<real>, o: seq<int>, m: nat)
    requires Valid(inst) && |s| == inst.items && IsPermutation(o, |s|) && m <= |s|
    requires forall j :: m <= j <= |s| ==> Feasible(inst, SetSuffix(s, o, j))
    ensures FirstInfeasibleAdd(inst, s, o, m) == None
    decreases |s| - m
  {
    if m < |s| {
      NoInfeasibleAdd(inst, s, o, m + 1);
    }
  }

  // ---------------------------------------------------------------------------
  // repair: the in-place algorithm
  // ---------------------------------------------------------------------------

  /**
   * The removal loop of KP.repair: clear selected items in ascending trade-off order until
   * feasible. Returns false where orden[n] raises IndexError; every item is then cleared.
   */
  method RemovePhase(inst: Instance, a: array<real>, o: seq<int>) returns (ok: bool)
    requires Valid(inst) && a.Length == inst.items && IsPermutation(o, a.Length) && Binary(a[..])
    modifies a
    ensures ok <==> Removed(inst, old(a[..]), o).Some?
    ensures ok ==> a[..] == Removed(inst, old(a[..]), o).value
    ensures !ok ==> a[..] == Zeros(a.Length)
  {
    var n := a.Length;
    ghost var s0 := a[..];
    var factible := Feasible(inst, a[..]);
    var i := 0;
    while !factible
      invariant 0 <= i <= n
      invariant a[..] == ClearPrefix(s0, o, i)
      invariant factible == Feasible(inst, a[..])
      invariant forall j :: 0 <= j < i ==> !Feasible(inst, ClearPrefix(s0, o, j))
      decreases n - i
    {
      if i == n {
        ClearAll(s0, o);
        return false;
      }
      ClearStep(s0, o, i);
      if a[o[i]] == 1.0 {
        a[o[i]] := 0.0;
        factible := Feasible(inst, a[..]);
      } else {
        assert a[..] == a[..][o[i] := 0.0];
      }
      i := i + 1;
    }
    FirstCutIs(inst, s0, o, 0, i);
    return true;
  }

  function Min(x: int, y: int): int {
    if x < y then x else y
  }

  /** Python's orden[-1 - t] for 0 <= t < 2n: past the front of orden the index wraps to the back. */
  function AddIndex(o: seq<int>, t: nat): (i: int)
    requires t < 2 * |o|
    ensures i == o[if t < |o| then |o| - 1 - t else 2 * |o| - 1 - t]
  {
    if t < |o| then o[|o| - 1 - t] else o[2 * |o| - 1 - t]
  }

  /** One step of the add-back loop within orden: the next item is set, or is already selected. */
  lemma AddStepWithin(s1: seq<real>, o: seq<int>, t: nat)
    requires IsPermutation(o, |s1|) && t < |s1| && Binary(s1)
    ensures var cur, idx := SetSuffix(s1, o, t), o[|s1| - 1 - t];
            && (if cur[idx] == 0.0 then cur[idx := 1.0] else cur) == SetSuffix(s1, o, t + 1)
            && (cur[idx] == 0.0 ==> s1[idx] == 0.0)
  {
    SetStep(s1, o, t);
    var cur, idx := SetSuffix(s1, o, t), o[|s1| - 1 - t];
    if cur[idx] != 0.0 {
      assert cur == cur[idx := 1.0];
    }
  }

  /** Once orden wraps around, every item is selected and a step changes nothing. */
  lemma AddStepWrapped(s1: seq<real>, o: seq<int>, t: nat)
    requires IsPermutation(o, |s1|) && |s1| <= t < 2 * |s1|
    ensures SetSuffix(s1, o, |s1|)[o[2 * |s1| - 1 - t]] == 1.0
  {
    SetAll(s1, o);
  }

  /** While the candidate stays feasible, the search for the first misfit moves on by one step. */
  lemma AddAdvance(inst: Instance, s1: seq<real>, o: seq<int>, t: nat)
    requires Valid(inst) && |s1| == inst.items && IsPermutation(o, |s1|) && t < |s1|
    requires Feasible(inst, SetSuffix(s1, o, t))
    ensures FirstInfeasibleAdd(inst, s1, o, t) == FirstInfeasibleAdd(inst, s1, o, t + 1)
  {
  }

  /** The state of the add-back loop of KP.repair after t steps, started from candidate s1. */
  ghost predicate AddLoopState(inst: Instance, s1: seq<real>, o: seq<int>, t: nat, cur: seq<real>, factible: bool, pos: int)
    requires Valid(inst) && |s1| == inst.items && IsPermutation(o, |s1|)
  {
    && t <= 2 * |s1|
    && cur == SetSuffix(s1, o, Min(t, |s1|))
    && factible == Feasible(inst, cur)
    && FirstInfeasibleAdd(inst, s1, o, 0) == FirstInfeasibleAdd(inst, s1, o, Min(t, |s1|))
    && (!factible ==> 1 <= t <= |s1| && pos == o[|s1| - t] && s1[pos] == 0.0)
  }

  /** One iteration of the add-back loop within orden, on values. */
  lemma AddLoopStepWithin(inst: Instance, s1: seq<real>, o: seq<int>, t: nat, cur: seq<real>, pos: int)
    requires Valid(inst) && |s1| == inst.items && IsPermutation(o, |s1|) && Binary(s1)
    requires t < |s1| && AddLoopState(inst, s1, o, t, cur, true, pos)
    ensures var idx := o[|s1| - 1 - t];
            if cur[idx] == 0.0 then AddLoopState(inst, s1, o, t + 1, cur[idx := 1.0], Feasible(inst, cur[idx := 1.0]), idx)
            else AddLoopState(inst, s1, o, t + 1, cur, true, pos)
  {
    assert Min(t, |s1|) == t && Min(t + 1, |s1|) == t + 1;
    AddStepWithin(s1, o, t);
    AddAdvance(inst, s1, o, t);
  }

  /** One iteration of the add-back loop once orden has wrapped around: nothing changes. */
  lemma AddLoopStepWrapped(inst: Instance, s1: seq<real>, o: seq<int>, t: nat, cur: seq<real>, pos: int)
    requires Valid(inst) && |s1| == inst.items && IsPermutation(o, |s1|)
    requires |s1| <= t < 2 * |s1| && AddLoopState(inst, s1, o, t, cur, true, pos)
    ensures cur[o[2 * |s1| - 1 - t]] == 1.0
    ensures AddLoopState(inst, s1, o, t + 1, cur, true, pos)
  {
    assert Min(t, |s1|) == Min(t + 1, |s1|) == |s1|;
    AddStepWrapped(s1, o, t);
  }

  /** One iteration of the add-back loop, on values. */
  lemma AddLoopStep(inst: Instance, s1: seq<real>, o: seq<int>, t: nat, cur: seq<real>, pos: int)
    requires Valid(inst) && |s1| == inst.items && IsPermutation(o, |s1|) && Binary(s1)
    requires t < 2 * |s1| && AddLoopState(inst, s1, o, t, cur, true, pos)
    ensures var idx := AddIndex(o, t);
            if cur[idx] == 0.0 then AddLoopState(inst, s1, o, t + 1, cur[idx := 1.0], Feasible(inst, cur[idx := 1.0]), idx)
            else AddLoopState(inst, s1, o, t + 1, cur, true, pos)
  {
    if t < |s1| {
      AddLoopStepWithin(inst, s1, o, t, cur, pos);
    } else {
      AddLoopStepWrapped(inst, s1, o, t, cur, pos);
    }
  }

  /**
   * One iteration of the add-back loop: if orden[-1 - t] is not selected, select it, remember
   * it and test feasibility again.
   */
  method AddOne(inst: Instance, a: array<real>, o: seq<int>, ghost s1: seq<real>, t: nat, pos: int)
    returns (factible': bool, pos': int)
    requires Valid(inst) && a.Length == inst.items && IsPermutation(o, a.Length) && |s1| == a.Length && Binary(s1)
    requires t < 2 * a.Length && AddLoopState(inst, s1, o, t, a[..], true, pos)
    modifies a
    ensures AddLoopState(inst, s1, o, t + 1, a[..], factible', pos')
  {
    AddLoopStep(inst, s1, o, t, a[..], pos);
    var idx := AddIndex(o, t);
    factible', pos' := true, pos;
    if a[idx] == 0.0 {
      a[idx] := 1.0;
      pos' := idx;
      factible' := Feasible(inst, a[..]);
    }
  }

  /**
   * The scan of the add-back loop of KP.repair: set unselected items in descending trade-off
   * order while the candidate stays feasible. Past the first entry of orden Python's negative
   * indices wrap around, so the scan runs for at most 2n steps.
   */
  method AddScan(inst: Instance, a: array<real>, o: seq<int>) returns (factible: bool, t: nat, pos: int)
    requires Valid(inst) && a.Length == inst.items && IsPermutation(o, a.Length) && Binary(a[..])
    requires Feasible(inst, a[..])
    modifies a
    ensures AddLoopState(inst, old(a[..]), o, t, a[..], factible, pos)
    ensures factible ==> t == 2 * a.Length
  {
    var n := a.Length;
    ghost var s1 := a[..];
    factible := true;
    t := 0;
    pos := -1;
    while factible && t < 2 * n
      invariant AddLoopState(inst, s1, o, t, a[..], factible, pos)
      decreases 2 * n - t, factible
    {
      factible, pos := AddOne(inst, a, o, s1, t, pos);
      t := t + 1;
    }
  }

  /**
   * The add-back loop of KP.repair on a feasible candidate: after the scan, clear the item that
   * did not fit. When every step fits, orden[-n-1] raises IndexError: that is the `false`
   * outcome, reached exactly when no step of the add phase is infeasible.
   */
  method AddBackPhase(inst: Instance, a: array<real>, o: seq<int>) returns (ok: bool)
    requires Valid(inst) && a.Length == inst.items && IsPermutation(o, a.Length) && Binary(a[..])
    requires Feasible(inst, a[..])
    modifies a
    ensures ok <==> FirstInfeasibleAdd(inst, old(a[..]), o, 0).Some?
    ensures ok ==> a[..] == SetSuffix(old(a[..]), o, FirstInfeasibleAdd(inst, old(a[..]), o, 0).value - 1)
    ensures !ok ==> a[..] == Ones(a.Length)
  {
    ghost var s1 := a[..];
    var factible, t, pos := AddScan(inst, a, o);
    if factible {
      SetAll(s1, o);
      return false;
    }
    AddBack(s1, o, t - 1, pos);
    a[pos] := 0.0;
    return true;
  }

  /** Clearing the misfit undoes the last step. */
  lemma AddBack(s1: seq<real>, o: seq<int>, m: nat, pos: int)
    requires IsPermutation(o, |s1|) && m < |s1| && pos == o[|s1| - 1 - m] && s1[pos] == 0.0
    ensures SetSuffix(s1, o, m + 1)[pos := 0.0] == SetSuffix(s1, o, m)
  {
    SetStep(s1, o, m);
  }

  /**
   * KP.repair on the candidate array, in place, given orden = np.argsort(tradeOff). Returns false
   * where the source raises IndexError; the array then holds what the failing loop left.
   */
  method Repair(inst: Instance, a: array<real>, o: seq<int>) returns (ok: bool)
    requires Valid(inst) && a.Length == inst.items && Binary(a[..])
    requires IsArgsort(o, inst.tradeOff)
    modifies a
    ensures ok <==> RepairSpec(inst, old(a[..]), o).Some?
    ensures ok ==> a[..] == RepairSpec(inst, old(a[..]), o).value
    ensures !ok ==> a[..] == if Removed(inst, old(a[..]), o).None? then Zeros(a.Length) else Ones(a.Length)
  {
    ok := RemovePhase(inst, a, o);
    if ok {
      ok := AddBackPhase(inst, a, o);
    }
  }

  // ---------------------------------------------------------------------------
  // repair: what the specification promises
  // ---------------------------------------------------------------------------

  /** A selected 0/1 candidate never outweighs the full selection. */
  lemma BinaryBelowOnes(inst: Instance, s: seq<real>)
    requires Valid(inst) && |s| == inst.items && Binary(s)
    requires forall i :: 0 <= i < inst.items ==> inst.weights[i] >= 0.0
    ensures TotalWeight(inst, s) <= TotalWeight(inst, Ones(inst.items))
  {
    DotMono(s, Ones(inst.items), inst.weights);
  }

  /** With non-negative weights, the removal loop fails exactly when the capacity is negative. */
  lemma RemovalFailsIffNegativeCapacity(inst: Instance, s: seq<real>, o: seq<int>)
    requires Valid(inst) && |s| == inst.items && IsPermutation(o, |s|) && Binary(s)
    requires forall i :: 0 <= i < inst.items ==> inst.weights[i] >= 0.0
    ensures Removed(inst, s, o).None? <==> inst.capacity < 0.0
  {
    var c := FirstFeasibleCut(inst, s, o, 0);
    if inst.capacity < 0.0 {
      ClearPrefixBinary(s, o, c);
      DotMono(Zeros(|s|), ClearPrefix(s, o, c), inst.weights);
      DotZeros(inst.weights);
    } else {
      ClearAllFeasible(inst, s, o);
    }
  }

  /** Repair of an infeasible 0/1 candidate never reaches the source's IndexError when the capacity is non-negative. */
  lemma RepairOfInfeasibleSucceeds(inst: Instance, s: seq<real>, o: seq<int>)
    requires Valid(inst) && |s| == inst.items && IsPermutation(o, |s|) && inst.capacity >= 0.0
    requires forall i :: 0 <= i < inst.items ==> inst.weights[i] >= 0.0
    requires Binary(s) && !Feasible(inst, s)
    ensures RepairSpec(inst, s, o).Some?
  {
    RemovalFailsIffNegativeCapacity(inst, s, o);
    var s1 := Removed(inst, s, o).value;
    BinaryBelowOnes(inst, s);
    SetAll(s1, o);
    assert !Feasible(inst, SetSuffix(s1, o, |s|));
  }

  /** The result is maximal along the order: the next unselected item in descending order does not fit. */
  lemma RepairStopsAtFirstMisfit(inst: Instance, s: seq<real>, o: seq<int>)
    requires Valid(inst) && |s| == inst.items && IsPermutation(o, |s|)
    requires RepairSpec(inst, s, o).Some?
    ensures exists k :: 0 <= k < |s| && RepairSpec(inst, s, o).value[k] != 1.0 &&
                        !Feasible(inst, RepairSpec(inst, s, o).value[k := 1.0])
  {
    var s1 := Removed(inst, s, o).value;
    var m := FirstInfeasibleAdd(inst, s1, o, 0).value;
    var r := SetSuffix(s1, o, m - 1);
    var k := o[|s| - m];
    SetStep(s1, o, m - 1);
    assert r[k := 1.0] == SetSuffix(s1, o, m);
    UpdateChanges(r, k, 1.0);
  }

  lemma UpdateChanges(r: seq<real>, k: nat, x: real)
    requires k < |r| && r[k := x] != r
    ensures r[k] != x
  {
  }

  lemma SetSuffixOfSetSuffix(s: seq<real>, o: seq<int>, m: nat, j: nat)
    requires IsPermutation(o, |s|) && j <= m <= |s|
    ensures SetSuffix(SetSuffix(s, o, m), o, j) == SetSuffix(s, o, m)
  {
    var n := |s|;
    var r := SetSuffix(s, o, m);
    forall x | 0 <= x < n
      ensures SetSuffix(r, o, j)[x] == r[x]
    {
      SetSuffixAt(r, o, j, x);
      SetSuffixAt(s, o, m, x);
      if x in o[n - j..] {
        var i :| n - j <= i < n && o[i] == x;
        assert o[n - m..][i - (n - m)] == x;
      }
    }
  }

  lemma {:induction false} SetSuffixAfter(s: seq<real>, o: seq<int>, m: nat)
    requires IsPermutation(o, |s|) && m < |s|
    ensures SetSuffix(SetSuffix(s, o, m), o, m + 1) == SetSuffix(s, o, m + 1)
  {
    var r := SetSuffix(s, o, m);
    SetStep(r, o, m);
    SetSuffixOfSetSuffix(s, o, m, m);
    SetStep(s, o, m);
  }

  /** The removal phase leaves a feasible candidate as it is. */
  lemma RemovedOfFeasible(inst: Instance, r: seq<real>, o: seq<int>)
    requires Valid(inst) && |r| == inst.items && IsPermutation(o, |r|) && Feasible(inst, r)
    ensures Removed(inst, r, o) == Some(r)
  {
    FirstCutIs(inst, r, o, 0, 0);
  }

  /** Re-running the add phase on its own result meets the same misfit at the same step. */
  lemma AddPhaseOfAdded(inst: Instance, s1: seq<real>, o: seq<int>, m: nat)
    requires Valid(inst) && |s1| == inst.items && IsPermutation(o, |s1|) && 1 <= m <= |s1|
    requires FirstInfeasibleAdd(inst, s1, o, 0) == Some(m)
    ensures FirstInfeasibleAdd(inst, SetSuffix(s1, o, m - 1), o, 0) == Some(m)
  {
    var r := SetSuffix(s1, o, m - 1);
    assert Feasible(inst, r);
    forall j | 0 <= j < m
      ensures Feasible(inst, SetSuffix(r, o, j))
    {
      SetSuffixOfSetSuffix(s1, o, m - 1, j);
    }
    SetSuffixAfter(s1, o, m - 1);
    assert !Feasible(inst, SetSuffix(r, o, m));
    FirstAddIs(inst, r, o, 0, m);
  }

  /** Repairing a repaired candidate changes nothing. */
  lemma RepairIdempotent(inst: Instance, s: seq<real>, o: seq<int>)
    requires Valid(inst) && |s| == inst.items && IsPermutation(o, |s|)
    requires RepairSpec(inst, s, o).Some?
    ensures RepairSpec(inst, RepairSpec(inst, s, o).value, o) == RepairSpec(inst, s, o)
  {
    var s1, m := RepairPhases(inst, s, o);
    var r := SetSuffix(s1, o, m - 1);
    RemovedOfFeasible(inst, r, o);
    AddPhaseOfAdded(inst, s1, o, m);
    SetSuffixOfSetSuffix(s1, o, m - 1, m - 1);
    RepairOfPhases(inst, r, o, r, m);
  }

  /** A repair that succeeds has a removal result s1 and a first misfit m of its add phase. */
  lemma RepairPhases(inst: Instance, s: seq<real>, o: seq<int>) returns (s1: seq<real>, m: nat)
    requires Valid(inst) && |s| == inst.items && IsPermutation(o, |s|)
    requires RepairSpec(inst, s, o).Some?
    ensures |s1| == |s| && Removed(inst, s, o) == Some(s1) && FirstInfeasibleAdd(inst, s1, o, 0) == Some(m)
    ensures 1 <= m <= |s| && RepairSpec(inst, s, o) == Some(SetSuffix(s1, o, m - 1))
  {
    s1 := Removed(inst, s, o).value;
    m := FirstInfeasibleAdd(inst, s1, o, 0).value;
  }

  /** The repair built from a removal result and the first misfit of its add phase. */
  lemma RepairOfPhases(inst: Instance, s: seq<real>, o: seq<int>, s1: seq<real>, m: nat)
    requires Valid(inst) && |s| == inst.items && IsPermutation(o, |s|) && |s1| == |s| && 1 <= m <= |s|
    requires Removed(inst, s, o) == Some(s1) && FirstInfeasibleAdd(inst, s1, o, 0) == Some(m)
    ensures RepairSpec(inst, s, o) == Some(SetSuffix(s1, o, m - 1))
  {
  }


  // ---------------------------------------------------------------------------
  // known optima
  // ---------------------------------------------------------------------------

  datatype OptimumEntry = OptimumEntry(name: string, index: nat, optimum: real)

  /** orden_kp: instance name, position and known optimum. */
  const OrdenKP: seq<OptimumEntry> := [
    OptimumEntry("kn_f1_l-d_kp_10_269", 0, 295.0),
    OptimumEntry("kn_f2_l-d_kp_20_878", 1, 1024.0),
    OptimumEntry("kn_f3_l-d_kp_4_20", 2, 35.0),
    OptimumEntry("kn_f4_l-d_kp_4_11", 3, 23.0),
    OptimumEntry("kn_f5_l-d_kp_15_375", 4, 481.0694),
    OptimumEntry("kn_f6_l-d_kp_10_60", 5, 52.0),
    OptimumEntry("kn_f7_l-d_kp_7_50", 6, 107.0),
    OptimumEntry("kn_f8_l-d_kp_23_10000", 7, 9767.0),
    OptimumEntry("kn_f9_l-d_kp_5_80", 8, 130.0),
    OptimumEntry("kn_f10_l-d_kp_20_879", 9, 1025.0),
    OptimumEntry("knapPI_1_100_1000_1", 10, 9147.0),
    OptimumEntry("knapPI_1_200_1000_1", 11, 11238.0),
    OptimumEntry("knapPI_1_500_1000_1", 12, 28857.0),
    OptimumEntry("knapPI_1_1000_1000_1", 13, 54503.0),
    OptimumEntry("knapPI_1_2000_1000_1", 14, 110625.0),
    OptimumEntry("knapPI_1_5000_1000_1", 15, 276457.0),
    OptimumEntry("knapPI_1_10000_1000_1", 16, 563647.0),
    OptimumEntry("knapPI_2_100_1000_1", 17, 1514.0),
    OptimumEntry("knapPI_2_200_1000_1", 18, 1634.0),
    OptimumEntry("knapPI_2_500_1000_1", 19, 4566.0),
    OptimumEntry("knapPI_2_1000_1000_1", 20, 9052.0),
    OptimumEntry("knapPI_2_2000_1000_1", 21, 18051.0),
    OptimumEntry("knapPI_2_5000_1000_1", 22, 44356.0),
    OptimumEntry("knapPI_2_10000_1000_1", 23, 90204.0),
    OptimumEntry("knapPI_3_100_1000_1", 24, 2397.0),
    OptimumEntry("knapPI_3_200_1000_1", 25, 2697.0),
    OptimumEntry("knapPI_3_500_1000_1", 26, 7117.0),
    OptimumEntry("knapPI_3_1000_1000_1", 27, 14390.0),
    OptimumEntry("knapPI_3_2000_1000_1", 28, 28919.0),
    OptimumEntry("knapPI_3_5000_1000_1", 29, 72505.0),
    OptimumEntry("knapPI_3_10000_1000_1", 30, 146919.0)
  ]

  /** The table's positions are the contiguous indices 0..30, each used once. */
  lemma OrdenKPIndicesContiguous()
    ensures |OrdenKP| == 31
    ensures forall i :: 0 <= i < |OrdenKP| ==> OrdenKP[i].index == i
  {
  }

  /** Dictionary lookup by key in a table of entries. */
  function Lookup(table: seq<OptimumEntry>, name: string): (r: Option<OptimumEntry>)
    ensures r.Some? <==> exists i :: 0 <= i < |table| && table[i].name == name
    ensures r.Some? ==> r.value in table && r.value.name == name
    decreases |table|
  {
    if table == [] then None
    else if table[0].name == name then Some(table[0])
    else
      var r := Lookup(table[1..], name);
      assert forall i :: 1 <= i < |table| ==> table[i] == table[1..][i - 1];
      r
  }

  /** KP._get_optimum_value: the optimum of a listed instance, None for any other name. */
  function GetOptimumValue(name: string): (r: Option<real>)
    ensures r.Some? <==> exists i :: 0 <= i < |OrdenKP| && OrdenKP[i].name == name
    ensures r.Some? ==> exists i :: 0 <= i < |OrdenKP| && OrdenKP[i].name == name && OrdenKP[i].optimum == r.value
  {
    match Lookup(OrdenKP, name)
    case None => None
    case Some(e) => Some(e.optimum)
  }

  /** The key obtenerOptimoKP looks up: the last '/'-component of the path with every ".txt" removed. */
  function InstanceKey(archivoInstancia: string): (key: string)
    ensures '/' !in key
  {
    var parts := Split(archivoInstancia, '/');
    RemoveAll(parts[|parts| - 1], ".txt")
  }

  /** obtenerOptimoKP: the last '/'-component with every ".txt" removed; an unknown key raises IndexError. */
  function ObtenerOptimoKP(archivoInstancia: string): (r: Result<real>)
    ensures r.Err? <==> GetOptimumValue(InstanceKey(archivoInstancia)).None?
    ensures r.Err? ==> r.error == IndexError
    ensures r.Ok? ==> r.value == GetOptimumValue(InstanceKey(archivoInstancia)).value
  {
    match Lookup(OrdenKP, InstanceKey(archivoInstancia))
    case None => Err(IndexError)
    case Some(e) => Ok(e.optimum)
  }

  lemma GetOptimumValueListed(i: nat)
    requires i < |OrdenKP|
    ensures GetOptimumValue(OrdenKP[i].name).Some?
  {
  }

  /** A listed instance's file path, in any directory, yields its optimum. */
  lemma ObtenerOptimoKPOfPath(dir: string, name: string)
    requires '/' !in name && '.' !in name
    ensures ObtenerOptimoKP(dir + "/" + name + ".txt") ==
            (match GetOptimumValue(name) case None => Err(IndexError) case Some(v) => Ok(v))
  {
    InstanceKeyOfPath(dir, name);
  }

  /** The key of dir/name.txt is name. */
  lemma InstanceKeyOfPath(dir: string, name: string)
    requires '/' !in name && '.' !in name
    ensures InstanceKey(dir + "/" + name + ".txt") == name
  {
    var path := dir + "/" + name + ".txt";
    assert path == dir + ['/'] + (name + ".txt");
    SplitConcat(dir, '/', name + ".txt");
    assert '/' !in name + ".txt";
    SplitNoSep(name + ".txt", '/');
    RemoveAllPrefix(name, ".txt", ".txt");
    RemoveAllSelf(".txt");
    assert name + "" == name;
  }
}
