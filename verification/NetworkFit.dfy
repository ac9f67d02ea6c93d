/** The calibration search: coordinate moves with a cache, a budget and a shrinking step. */
module NetworkFit {
  import opened Opt = Options
  import opened RealMath

  /** Parameter values, in the order of the sorted parameter names. */
  type Params = seq<real>

  type Key = seq<int>

  const TOLERANCE := 0.000000000001

  datatype Options = Options(
    budget: nat, initialStep: real, minStep: real, shrink: real, targetObjective: real,
    demandBounds: (real, real), speedBounds: (real, real))

  /** What is searched: the parameters, the objective of one simulation, and the cache key. */
  datatype Problem = Problem(names: seq<string>, options: Options, objective: Params -> real, key: Params -> Key)

  datatype Stop = TargetReached | Converged | BudgetExhausted

  lemma StopOrNone(stop: Option<Stop>)
    ensures stop == Some(TargetReached) || stop == Some(Converged) || stop == Some(BudgetExhausted) || stop == None
  {
    if stop.Some? {
      match stop.value
      case TargetReached =>
      case Converged =>
      case BudgetExhausted =>
    }
  }

  /** Positive steps in order, which the inputs are checked for, and bounds in order. Nothing is
      checked of `shrink`. */
  predicate OptionsOk(o: Options) {
    && 0.0 < o.minStep <= o.initialStep
    && o.demandBounds.0 <= o.demandBounds.1 && o.speedBounds.0 <= o.speedBounds.1
  }

  /** Demand factors have their own bounds; every other parameter is a speed factor. */
  function Bounds(o: Options, name: string): (real, real) {
    if "demand:" <= name then o.demandBounds else o.speedBounds
  }

  function Clamp(x: real, bounds: (real, real)): (r: real)
    requires bounds.0 <= bounds.1
    ensures bounds.0 <= r <= bounds.1
    ensures bounds.0 <= x <= bounds.1 ==> r == x
  {
    Min(bounds.1, Max(bounds.0, x))
  }

  function Abs(x: real): real {
    if x < 0.0 then -x else x
  }

  /** The value one relative step up or down. */
  function Stepped(x: real, step: real, up: bool): real {
    x * (1.0 + (if up then 1.0 else -1.0) * step)
  }

  /** The move of parameter `i`, up or down by `step`: relative and clamped. */
  function Move(pb: Problem, p: Params, step: real, i: nat, up: bool): (r: real)
    requires OptionsOk(pb.options) && |p| == |pb.names| && i < |p|
    ensures Bounds(pb.options, pb.names[i]).0 <= r <= Bounds(pb.options, pb.names[i]).1
  {
    Clamp(Stepped(p[i], step, up), Bounds(pb.options, pb.names[i]))
  }

  /** `m` is one of the two moves of parameter `i`, and goes somewhere. */
  ghost predicate IsMove(pb: Problem, p: Params, step: real, i: nat, m: real)
    requires OptionsOk(pb.options) && |p| == |pb.names| && i < |p|
  {
    exists up :: Moves(pb, p, step, i, up) && m == Move(pb, p, step, i, up)
  }

  /** The move changes the parameter. */
  predicate Moves(pb: Problem, p: Params, step: real, i: nat, up: bool)
    requires OptionsOk(pb.options) && |p| == |pb.names| && i < |p|
  {
    Abs(Move(pb, p, step, i, up) - p[i]) > TOLERANCE
  }

  ghost predicate InBounds(pb: Problem, p: Params) {
    |p| == |pb.names| && forall i :: 0 <= i < |p| ==>
        Bounds(pb.options, pb.names[i]).0 <= p[i] <= Bounds(pb.options, pb.names[i]).1
  }

  /** A visiting order of `n` parameters. */
  predicate IsOrder(order: seq<nat>, n: nat) {
    |order| == n && (forall k :: 0 <= k < n ==> order[k] < n) && forall i :: 0 <= i < n ==> i in order
  }

  // ---------------------------------------------------------------------
  // The cache
  // ---------------------------------------------------------------------

  /** One simulated value per key. */
  ghost predicate CacheOk(pb: Problem, cache: map<Key, real>, simulated: map<Key, Params>) {
    && cache.Keys == simulated.Keys
    && forall k :: k in cache ==> pb.key(simulated[k]) == k && cache[k] == pb.objective(simulated[k])
  }

  lemma CacheGrows(pb: Problem, cache: map<Key, real>, simulated: map<Key, Params>, p: Params)
    requires CacheOk(pb, cache, simulated) && pb.key(p) !in cache
    ensures CacheOk(pb, cache[pb.key(p) := pb.objective(p)], simulated[pb.key(p) := p])
    ensures |cache[pb.key(p) := pb.objective(p)]| == |cache| + 1
  {
    var grown := cache[pb.key(p) := pb.objective(p)];
    assert grown.Keys == cache.Keys + {pb.key(p)};
  }

  /** No value is better than `best` by more than the tolerance, unless a move already found
      is at least as good as it. */
  ghost predicate NearBest(cache: map<Key, real>, best: real, found: bool, value: real) {
    forall k :: k in cache ==> best <= cache[k] + TOLERANCE || (found && value <= cache[k])
  }

  /** Adding one value keeps the best on record, whether it is taken or not. */
  lemma StaysNear(before: map<Key, real>, after: map<Key, real>, k: Key, best: real, found: bool, value: real,
                  takes: bool)
    requires NearBest(before, best, found, value) && k in after
    requires after == before[k := after[k]]
    requires takes == (after[k] < best - TOLERANCE && (!found || after[k] < value))
    ensures if takes then NearBest(after, best, true, after[k]) else NearBest(after, best, found, value)
  {
  }

  /** `after` holds all that `before` held. */
  ghost predicate Extends(after: map<Key, real>, before: map<Key, real>) {
    forall k :: k in before ==> k in after && after[k] == before[k]
  }

  /** Both moves of parameter `i` from `p` have been simulated, unless they go nowhere. */
  ghost predicate Explored(pb: Problem, cache: map<Key, real>, p: Params, step: real, i: nat)
    requires OptionsOk(pb.options) && |p| == |pb.names| && i < |p|
  {
    forall up | Moves(pb, p, step, i, up) :: pb.key(p[i := Move(pb, p, step, i, up)]) in cache
  }

  /** Every one of these moves of parameter `i` has its value cached. */
  ghost predicate AllCached(pb: Problem, cache: map<Key, real>, p: Params, i: nat, moves: seq<real>)
    requires i < |p|
  {
    forall m :: m in moves ==> pb.key(p[i := m]) in cache
  }

  lemma KnownMove(pb: Problem, cache: map<Key, real>, p: Params, i: nat, moves: seq<real>, m: nat)
    requires i < |p| && m < |moves| && AllCached(pb, cache, p, i, moves)
    ensures pb.key(p[i := moves[m]]) in cache
  {
    var v := moves[m];
    assert v in moves;
    assert p[i := v] == p[i := moves[m]];
  }

  ghost predicate AllExplored(pb: Problem, cache: map<Key, real>, p: Params, step: real)
    requires OptionsOk(pb.options) && |p| == |pb.names|
  {
    forall i :: 0 <= i < |p| ==> Explored(pb, cache, p, step, i)
  }

  lemma StaysExplored(pb: Problem, before: map<Key, real>, after: map<Key, real>, p: Params, step: real, i: nat)
    requires OptionsOk(pb.options) && |p| == |pb.names| && i < |p| && Extends(after, before)
    ensures Explored(pb, before, p, step, i) ==> Explored(pb, after, p, step, i)
  {
    hide Moves, Move;
  }

  /** No explored move beats the current point by more than the tolerance: for each, a simulation
      under the same key gave no better value. */
  lemma NoBetterMove(pb: Problem, cache: map<Key, real>, simulated: map<Key, Params>, p: Params, step: real, i: nat,
                     up: bool)
    requires OptionsOk(pb.options) && |p| == |pb.names| && i < |p|
    requires CacheOk(pb, cache, simulated) && pb.key(p) in cache && NearBest(cache, cache[pb.key(p)], false, 0.0)
    requires AllExplored(pb, cache, p, step) && Moves(pb, p, step, i, up)
    ensures exists q :: pb.key(q) == pb.key(p[i := Move(pb, p, step, i, up)])
                        && pb.objective(q) >= cache[pb.key(p)] - TOLERANCE
  {
    assert Explored(pb, cache, p, step, i);
    var q := simulated[pb.key(p[i := Move(pb, p, step, i, up)])];
    assert pb.key(q) == pb.key(p[i := Move(pb, p, step, i, up)]);
  }

  /** When equal keys mean equal objectives, a converged search ends at a local minimum: no
      clamped move of one parameter by the explored step gains more than the tolerance. */
  lemma LocalMinimum(pb: Problem, cache: map<Key, real>, simulated: map<Key, Params>, p: Params, step: real, i: nat,
                     up: bool)
    requires OptionsOk(pb.options) && |p| == |pb.names| && i < |p|
    requires CacheOk(pb, cache, simulated) && pb.key(p) in cache && NearBest(cache, cache[pb.key(p)], false, 0.0)
    requires AllExplored(pb, cache, p, step)
    requires forall q, r :: pb.key(q) == pb.key(r) ==> pb.objective(q) == pb.objective(r)
    ensures Moves(pb, p, step, i, up) ==>
              pb.objective(p[i := Move(pb, p, step, i, up)]) >= pb.objective(p) - TOLERANCE
  {
    if Moves(pb, p, step, i, up) {
      NoBetterMove(pb, cache, simulated, p, step, i, up);
      assert pb.key(simulated[pb.key(p)]) == pb.key(p);
    }
  }

  /** No single move of a parameter by the fraction `step`, up or down, taken into the bounds of
      its kind, gains more than the tolerance. */
  ghost predicate IsLocalMinimum(pb: Problem, p: Params, step: real)
    requires |p| == |pb.names|
  {
    forall i, x: real :: 0 <= i < |p| && OneMove(pb, p, step, i, x) ==>
      pb.objective(p[i := x]) >= pb.objective(p) - 0.000000000001
  }

  /** `x` is where such a move takes parameter `i`, and is not where it is. */
  predicate OneMove(pb: Problem, p: Params, step: real, i: nat, x: real)
    requires |p| == |pb.names| && i < |p|
  {
    var demand := "demand:" <= pb.names[i];
    var low := if demand then pb.options.demandBounds.0 else pb.options.speedBounds.0;
    var high := if demand then pb.options.demandBounds.1 else pb.options.speedBounds.1;
    && (x == Into(low, high, p[i] + p[i] * step) || x == Into(low, high, p[i] - p[i] * step))
    && (x - p[i] > 0.000000000001 || p[i] - x > 0.000000000001)
  }

  function Into(low: real, high: real, x: real): real {
    if x > high then high else if x < low then low else x
  }

  lemma OneMoveIsMove(pb: Problem, p: Params, step: real, i: nat, x: real) returns (up: bool)
    requires OptionsOk(pb.options) && |p| == |pb.names| && i < |p| && OneMove(pb, p, step, i, x)
    ensures Moves(pb, p, step, i, up) && x == Move(pb, p, step, i, up)
  {
    hide Move;
    MoveIsInto(pb, p, step, i, true);
    MoveIsInto(pb, p, step, i, false);
    up := x == Move(pb, p, step, i, true);
  }

  lemma MoveIsInto(pb: Problem, p: Params, step: real, i: nat, up: bool)
    requires OptionsOk(pb.options) && |p| == |pb.names| && i < |p|
    ensures var demand := "demand:" <= pb.names[i];
            Move(pb, p, step, i, up)
            == Into(if demand then pb.options.demandBounds.0 else pb.options.speedBounds.0,
                    if demand then pb.options.demandBounds.1 else pb.options.speedBounds.1,
                    if up then p[i] + p[i] * step else p[i] - p[i] * step)
  {
    hide Stepped;
    SteppedBy(p[i], step, up);
  }

  /** Where a search that has explored every move ends. */
  lemma EndsAtMinimum(pb: Problem, cache: map<Key, real>, simulated: map<Key, Params>, p: Params, step: real)
    requires OptionsOk(pb.options) && |p| == |pb.names|
    requires CacheOk(pb, cache, simulated) && pb.key(p) in cache && NearBest(cache, cache[pb.key(p)], false, 0.0)
    requires AllExplored(pb, cache, p, step)
    requires forall q, r :: pb.key(q) == pb.key(r) ==> pb.objective(q) == pb.objective(r)
    ensures IsLocalMinimum(pb, p, step)
  {
    hide OneMove, Moves, Move, AllExplored, CacheOk, NearBest;
    forall i, x: real | 0 <= i < |p| && OneMove(pb, p, step, i, x)
      ensures pb.objective(p[i := x]) >= pb.objective(p) - 0.000000000001
    {
      var up := OneMoveIsMove(pb, p, step, i, x);
      LocalMinimum(pb, cache, simulated, p, step, i, up);
    }
  }

  /** The last sweep's step, from the final one. */
  lemma LastStep(o: Options, explored: real, final: real)
    requires o.shrink != 0.0 && final == explored * o.shrink
    ensures final / o.shrink == explored
  {
  }

  // ---------------------------------------------------------------------
  // Termination
  // ---------------------------------------------------------------------

  /** The least amount by which a shrink lowers a step that is still being used. */
  function ShrinkUnit(o: Options): (u: real)
    requires OptionsOk(o) && o.shrink < 1.0
    ensures u > 0.0
  {
    MulPositive(o.minStep, 1.0 - o.shrink);
    o.minStep * (1.0 - o.shrink)
  }

  function Shrunk(o: Options, step: real): real {
    step * o.shrink
  }

  lemma ShrinkFalls(o: Options, step: real)
    requires OptionsOk(o) && o.shrink < 1.0 && step >= o.minStep
    ensures step - Shrunk(o, step) >= ShrinkUnit(o)
  {
    MulMono(o.minStep, step, 1.0 - o.shrink);
    assert step - step * o.shrink == step * (1.0 - o.shrink);
  }

  /** A shrink by one or more does not lower the step. */
  lemma ShrinkGrows(o: Options, step: real)
    requires o.shrink >= 1.0 && step >= 0.0
    ensures Shrunk(o, step) >= step
  {
    MulMono(1.0, o.shrink, step);
    assert step * o.shrink == o.shrink * step;
  }

  lemma MulPositive(a: real, b: real)
    requires a > 0.0 && b > 0.0
    ensures a * b > 0.0
  {
  }

  lemma MeasureFalls(x: real, y: real, unit: real)
    requires unit > 0.0 && x >= 0.0 && x - y >= unit
    ensures (y / unit).Floor < (x / unit).Floor && 0 <= (x / unit).Floor
  {
    var q, r := x / unit, y / unit;
    assert q * unit == x && r * unit == y;
    var gap := q - r - 1.0;
    assert gap * unit == (q - r) * unit - unit;
    if gap < 0.0 {
      MulNegative(gap, unit);
      assert false;
    }
    if q < 0.0 {
      MulNegative(q, unit);
      assert false;
    }
  }

  // ---------------------------------------------------------------------
  // A step that never falls
  // ---------------------------------------------------------------------

  /** The step after `k` shrinks. */
  function StepAfter(o: Options, first: real, k: nat): real {
    if k == 0 then first else Shrunk(o, StepAfter(o, first, k - 1))
  }

  lemma StepStart(o: Options, first: real)
    ensures StepAfter(o, first, 0) == first
  {
  }

  lemma StepGoesOn(o: Options, first: real, k: nat)
    ensures StepAfter(o, first, k + 1) == Shrunk(o, StepAfter(o, first, k))
  {
  }

  lemma {:induction false} StepShift(o: Options, first: real, k: nat)
    ensures StepAfter(o, Shrunk(o, first), k) == StepAfter(o, first, k + 1)
  {
    hide Shrunk;
    if k > 0 {
      StepShift(o, first, k - 1);
    }
  }

  lemma {:induction false} StepNeverFalls(o: Options, first: real, k: nat)
    requires o.shrink >= 1.0 && first >= 0.0
    ensures StepAfter(o, first, k) >= first
  {
    hide Shrunk;
    if k > 0 {
      StepNeverFalls(o, first, k - 1);
      ShrinkGrows(o, StepAfter(o, first, k - 1));
    }
  }

  /** The moves by this step and by every step after it have all been simulated. */
  ghost predicate AlwaysExplored(pb: Problem, cache: map<Key, real>, p: Params, step: real)
    requires OptionsOk(pb.options) && |p| == |pb.names|
  {
    forall k: nat :: AllExplored(pb, cache, p, StepAfter(pb.options, step, k))
  }

  lemma StaysAlwaysExplored(pb: Problem, cache: map<Key, real>, p: Params, step: real)
    requires OptionsOk(pb.options) && |p| == |pb.names| && AlwaysExplored(pb, cache, p, step)
    requires pb.options.shrink >= 1.0 && step >= pb.options.minStep
    ensures AllExplored(pb, cache, p, step) && AlwaysExplored(pb, cache, p, Shrunk(pb.options, step))
    ensures Shrunk(pb.options, step) >= pb.options.minStep
  {
    hide AllExplored, StepAfter, Shrunk;
    StepStart(pb.options, step);
    ShrinkGrows(pb.options, step);
    forall k: nat
      ensures AllExplored(pb, cache, p, StepAfter(pb.options, Shrunk(pb.options, step), k))
    {
      StepShift(pb.options, step, k);
    }
  }

  /** The step from which both moves of the value `x` end at the bounds, or go nowhere. */
  function Reach(x: real, bounds: (real, real)): real {
    if x == 0.0 then 0.0 else (bounds.1 - bounds.0) / Abs(x)
  }

  /** From there on every step moves the value to the same place. */
  lemma Saturated(x: real, bounds: (real, real), step: real, up: bool)
    requires bounds.0 <= x <= bounds.1 && step >= 0.0 && step >= Reach(x, bounds)
    ensures Clamp(Stepped(x, step, up), bounds)
            == if x == 0.0 then 0.0 else if up == (x > 0.0) then bounds.1 else bounds.0
  {
    hide Stepped, Reach;
    SteppedBy(x, step, up);
    if x != 0.0 {
      FarEnough(x, bounds, step);
    }
  }

  lemma SteppedBy(x: real, step: real, up: bool)
    ensures Stepped(x, step, up) == if up then x + x * step else x - x * step
  {
    var factor := 1.0 + (if up then 1.0 else -1.0) * step;
    assert factor == if up then 1.0 + step else 1.0 - step;
  }

  lemma FarEnough(x: real, bounds: (real, real), step: real)
    requires bounds.0 <= bounds.1 && x != 0.0 && step >= Reach(x, bounds)
    ensures if x > 0.0 then x * step >= bounds.1 - bounds.0 else x * step <= bounds.0 - bounds.1
  {
    var q := Reach(x, bounds);
    assert q * Abs(x) == bounds.1 - bounds.0;
    MulMono(q, step, Abs(x));
    assert x < 0.0 ==> step * Abs(x) == -(x * step);
  }

  /** The step from which no move of the first `k` parameters changes any more. */
  function Reaches(pb: Problem, p: Params, k: nat): (r: real)
    requires |p| == |pb.names| && k <= |p|
    ensures r >= 0.0 && forall i :: 0 <= i < k ==> r >= Reach(p[i], Bounds(pb.options, pb.names[i]))
  {
    if k == 0 then 0.0 else Max(Reaches(pb, p, k - 1), Reach(p[k - 1], Bounds(pb.options, pb.names[k - 1])))
  }

  lemma SameMove(pb: Problem, p: Params, step: real, later: real, i: nat, up: bool)
    requires OptionsOk(pb.options) && InBounds(pb, p) && i < |p|
    requires step >= Reaches(pb, p, |p|) && step <= later
    ensures Move(pb, p, step, i, up) == Move(pb, p, later, i, up)
  {
    hide Reach, Bounds, Clamp, Reaches, Stepped;
    Saturated(p[i], Bounds(pb.options, pb.names[i]), step, up);
    Saturated(p[i], Bounds(pb.options, pb.names[i]), later, up);
  }

  lemma SameExplored(pb: Problem, cache: map<Key, real>, p: Params, step: real, later: real)
    requires OptionsOk(pb.options) && InBounds(pb, p) && AllExplored(pb, cache, p, step)
    requires step >= Reaches(pb, p, |p|) && step <= later
    ensures AllExplored(pb, cache, p, later)
  {
    hide Move, Reaches, Bounds;
    forall i | 0 <= i < |p|
      ensures Explored(pb, cache, p, later, i)
    {
      assert Explored(pb, cache, p, step, i);
      SameMove(pb, p, step, later, i, true);
      SameMove(pb, p, step, later, i, false);
    }
  }

  /** Once a sweep has explored every move by a step that stays, or whose moves end at the
      bounds, every later move is explored too. */
  lemma NowAlwaysExplored(pb: Problem, cache: map<Key, real>, p: Params, step: real)
    requires OptionsOk(pb.options) && InBounds(pb, p) && AllExplored(pb, cache, p, step)
    requires pb.options.shrink == 1.0 || (pb.options.shrink > 1.0 && step >= Reaches(pb, p, |p|))
    requires step >= pb.options.minStep
    ensures Shrunk(pb.options, step) >= step && AlwaysExplored(pb, cache, p, Shrunk(pb.options, step))
  {
    hide AllExplored, Reaches, StepAfter, Shrunk;
    ShrinkGrows(pb.options, step);
    forall k: nat
      ensures AllExplored(pb, cache, p, StepAfter(pb.options, Shrunk(pb.options, step), k))
    {
      StepNeverFalls(pb.options, Shrunk(pb.options, step), k);
      if pb.options.shrink == 1.0 {
        StepStays(pb.options, step, k);
      } else {
        SameExplored(pb, cache, p, step, StepAfter(pb.options, Shrunk(pb.options, step), k));
      }
    }
  }

  lemma {:induction false} StepStays(o: Options, first: real, k: nat)
    requires o.shrink == 1.0
    ensures StepAfter(o, Shrunk(o, first), k) == first
  {
    if k > 0 {
      StepStays(o, first, k - 1);
    }
  }

  /** How many more shrinks by more than one until no move changes any more. */
  function Distance(pb: Problem, p: Params, step: real): nat
    requires OptionsOk(pb.options) && |p| == |pb.names| && pb.options.shrink > 1.0
  {
    var far := Reaches(pb, p, |p|);
    if step >= far then 0 else 1 + Units(far - step, GrowthUnit(pb.options))
  }

  /** The least amount by which a shrink of more than one raises a step. */
  function GrowthUnit(o: Options): (u: real)
    requires OptionsOk(o) && o.shrink > 1.0
    ensures u > 0.0
  {
    MulPositive(o.minStep, o.shrink - 1.0);
    o.minStep * (o.shrink - 1.0)
  }

  lemma QuotientNonNegative(x: real, unit: real)
    requires x >= 0.0 && unit > 0.0
    ensures x / unit >= 0.0
  {
  }

  function Units(x: real, unit: real): nat
    requires x >= 0.0 && unit > 0.0
  {
    QuotientNonNegative(x, unit);
    (x / unit).Floor
  }

  lemma DistanceFalls(pb: Problem, p: Params, step: real)
    requires OptionsOk(pb.options) && |p| == |pb.names| && pb.options.shrink > 1.0
    requires pb.options.minStep <= step < Reaches(pb, p, |p|)
    ensures Distance(pb, p, Shrunk(pb.options, step)) < Distance(pb, p, step)
  {
    hide Reaches;
    var o, far := pb.options, Reaches(pb, p, |p|);
    MulMono(o.minStep, step, o.shrink - 1.0);
    assert step * o.shrink - step == step * (o.shrink - 1.0);
    if Shrunk(o, step) < far {
      MeasureFalls(far - step, far - Shrunk(o, step), GrowthUnit(o));
    }
  }

  // ---------------------------------------------------------------------
  // The search
  // ---------------------------------------------------------------------

  class Search {
    const pb: Problem
    /** The order of the `n`-th sweep: some permutation of the parameters. */
    const shuffle: nat -> seq<nat>
    var current: Params
    var best: real
    var step: real
    var evals: nat
    var sweeps: nat
    var cache: map<Key, real>
    /** The parameters each cached value was simulated with. */
    ghost var simulated: map<Key, Params>

    ghost predicate Inputs() {
      && OptionsOk(pb.options)
      && (forall p :: pb.objective(p) >= 0.0)
      && (forall n :: IsOrder(shuffle(n), |pb.names|))
    }

    /** The current point is in bounds and its value cached; one simulation is counted for each
        cached key, within the budget, except that the first is always made. */
    ghost predicate Valid()
      reads this
    {
      && Inputs() && CacheOk(pb, cache, simulated) && evals == |cache| <= AtLeastOne(pb.options.budget)
      && InBounds(pb, current)
      && pb.key(current) in cache && best == cache[pb.key(current)]
    }

    ghost predicate Near()
      reads this
    {
      NearBest(cache, best, false, 0.0)
    }

    lemma BestIsNonNegative()
      requires Valid()
      ensures best >= 0.0
    {
      assert pb.objective(simulated[pb.key(current)]) >= 0.0;
    }

    /** A constant objective is the best of every point. */
    lemma FlatBest(value: real)
      requires Valid() && forall p :: pb.objective(p) == value
      ensures best == value
    {
      assert pb.objective(simulated[pb.key(current)]) == value;
    }

    /** Starts from `start`, clamped into the bounds; a name it lacks starts at 1. */
    constructor (pb: Problem, shuffle: nat -> seq<nat>, start: map<string, real>)
      requires OptionsOk(pb.options)
      requires (forall p :: pb.objective(p) >= 0.0) && forall n :: IsOrder(shuffle(n), |pb.names|)
      ensures Valid() && Near() && this.pb == pb && step == pb.options.initialStep && evals == 1
      ensures best == pb.objective(current) && sweeps == 0
      ensures forall i :: 0 <= i < |pb.names| ==>
                current[i] == Clamp(if pb.names[i] in start then start[pb.names[i]] else 1.0,
                                    Bounds(pb.options, pb.names[i]))
    {
      this.pb, this.shuffle := pb, shuffle;
      current := seq(|pb.names|, i requires 0 <= i < |pb.names| =>
        Clamp(if pb.names[i] in start then start[pb.names[i]] else 1.0, Bounds(pb.options, pb.names[i])));
      cache, simulated, evals, sweeps, step := map[], map[], 0, 0, pb.options.initialStep;
      best := 0.0;
      new;
      best := Evaluate(current);
    }

    /** A cached value, or one simulation. */
    method Evaluate(p: Params) returns (value: real)
      requires CacheOk(pb, cache, simulated) && evals == |cache|
      modifies this`cache, this`evals, this`simulated
      ensures CacheOk(pb, cache, simulated) && evals == |cache|
      ensures cache == if pb.key(p) in old(cache) then old(cache) else old(cache)[pb.key(p) := pb.objective(p)]
      ensures value == cache[pb.key(p)] && evals == old(evals) + if pb.key(p) in old(cache) then 0 else 1
    {
      var k := pb.key(p);
      if k in cache {
        return cache[k];
      }
      CacheGrows(pb, cache, simulated, p);
      evals := evals + 1;
      value := pb.objective(p);
      cache := cache[k := value];
      simulated := simulated[k := p];
    }

    /** The distinct moves of one parameter that go anywhere, up first. */
    method MovesOf(i: nat) returns (moves: seq<real>)
      requires OptionsOk(pb.options) && |current| == |pb.names| && i < |current|
      ensures forall up | Moves(pb, current, step, i, up) :: Move(pb, current, step, i, up) in moves
      ensures forall m :: m in moves ==> IsMove(pb, current, step, i, m)
      ensures |moves| <= 2
    {
      hide Move;
      moves := [];
      var signs := [true, false];
      for s := 0 to |signs|
        invariant forall r :: 0 <= r < s && Moves(pb, current, step, i, signs[r]) ==>
                  Move(pb, current, step, i, signs[r]) in moves
        invariant forall m :: m in moves ==> IsMove(pb, current, step, i, m)
        invariant |moves| <= s
      {
        var cand := Move(pb, current, step, i, signs[s]);
        if Abs(cand - current[i]) > TOLERANCE && cand !in moves {
          moves := moves + [cand];
        }
      }
      assert signs[0] && !signs[1];
    }

    /** Evaluates the moves in turn while the budget lasts, and picks the best that improves. */
    method BestMove(i: nat, moves: seq<real>) returns (found: bool, value: real, cand: real, outOfBudget: bool)
      requires Valid() && Near() && i < |current|
      modifies this`cache, this`evals, this`simulated
      ensures Valid() && NearBest(cache, best, found, value) && Extends(cache, old(cache))
      ensures found ==> value < best - TOLERANCE && cand in moves
                        && pb.key(current[i := cand]) in cache && value == cache[pb.key(current[i := cand])]
      ensures !outOfBudget ==> forall m :: m in moves ==> pb.key(current[i := m]) in cache
      ensures outOfBudget ==> evals >= pb.options.budget
      ensures evals <= old(evals) + |moves|
      ensures AllCached(pb, old(cache), current, i, moves) ==> cache == old(cache) && !outOfBudget
    {
      hide CacheOk, OptionsOk, NearBest, Bounds, AllCached;
      ghost var known := AllCached(pb, cache, current, i, moves);
      found, value, cand, outOfBudget := false, 0.0, 0.0, false;
      for m := 0 to |moves|
        invariant Valid() && NearBest(cache, best, found, value) && Extends(cache, old(cache)) && !outOfBudget
        invariant forall n :: 0 <= n < m ==> pb.key(current[i := moves[n]]) in cache
        invariant found ==> value < best - TOLERANCE && cand in moves
                            && pb.key(current[i := cand]) in cache && value == cache[pb.key(current[i := cand])]
        invariant evals <= old(evals) + m
        invariant known ==> cache == old(cache) && AllCached(pb, cache, current, i, moves)
      {
        var trial := current[i := moves[m]];
        if known {
          KnownMove(pb, cache, current, i, moves, m);
        }
        if pb.key(trial) !in cache && evals >= pb.options.budget {
          outOfBudget := true;
          break;
        }
        ghost var was := cache;
        var v := Evaluate(trial);
        StaysNear(was, cache, pb.key(trial), best, found, value, v < best - TOLERANCE && (!found || v < value));
        if v < best - TOLERANCE && (!found || v < value) {
          found, value, cand := true, v, moves[m];
        }
      }
    }

    /** Tries both moves of one parameter and takes the better one that improves. */
    method Visit(i: nat) returns (improved: bool, outOfBudget: bool)
      requires Valid() && Near() && i < |current|
      modifies this`cache, this`evals, this`simulated, this`current, this`best
      ensures Valid() && Near() && Extends(cache, old(cache)) && |current| == old(|current|)
      ensures improved ==> best < old(best) - TOLERANCE && current == old(current)[i := current[i]]
                           && IsMove(pb, old(current), step, i, current[i])
      ensures !improved ==> best == old(best) && current == old(current)
      ensures !improved && !outOfBudget ==> Explored(pb, cache, current, step, i)
      ensures outOfBudget ==> evals >= pb.options.budget
      ensures evals <= old(evals) + 2
      ensures old(Explored(pb, cache, current, step, i)) ==> !improved && !outOfBudget && cache == old(cache)
    {
      hide CacheOk, OptionsOk, Moves, Move, Bounds;
      var moves := MovesOf(i);
      var value, cand;
      improved, value, cand, outOfBudget := BestMove(i, moves);
      if improved {
        best, current := value, current[i := cand];
      }
    }

    /** One sweep over all parameters in a shuffled order. */
    method Sweep() returns (improved: bool, outOfBudget: bool)
      requires Valid() && Near()
      modifies this`cache, this`evals, this`simulated, this`current, this`best, this`sweeps
      ensures Valid() && Near() && Extends(cache, old(cache)) && sweeps == old(sweeps) + 1
      ensures improved ==> best < old(best) - TOLERANCE
      ensures !improved ==> best == old(best) && current == old(current)
      ensures !improved && !outOfBudget ==> AllExplored(pb, cache, current, step)
      ensures outOfBudget ==> evals >= pb.options.budget
      ensures evals <= old(evals) + 2 * |pb.names|
      ensures old(AllExplored(pb, cache, current, step)) ==> !improved && !outOfBudget && cache == old(cache)
    {
      hide CacheOk, OptionsOk, NearBest, Explored, Bounds;
      sweeps := sweeps + 1;
      var order := shuffle(sweeps);
      improved, outOfBudget := false, false;
      for v := 0 to |order|
        invariant Valid() && Near() && Extends(cache, old(cache)) && sweeps == old(sweeps) + 1
        invariant !outOfBudget && IsOrder(order, |current|) && |current| == old(|current|)
        invariant evals <= old(evals) + 2 * v
        invariant improved ==> best < old(best) - TOLERANCE
        invariant !improved ==> best == old(best) && current == old(current)
        invariant !improved ==> forall u :: 0 <= u < v ==> Explored(pb, cache, current, step, order[u])
        invariant old(AllExplored(pb, cache, current, step)) ==> !improved && cache == old(cache)
      {
        ghost var was, p := cache, current;
        var better, out := Visit(order[v]);
        improved := improved || better;
        if out {
          outOfBudget := true;
          break;
        }
        if !improved {
          forall u | 0 <= u < v {
            StaysExplored(pb, was, cache, p, step, order[u]);
          }
        }
      }
      if !improved && !outOfBudget {
        forall i | 0 <= i < |current|
          ensures Explored(pb, cache, current, step, i)
        {
          assert i in order;
          var u :| 0 <= u < |order| && order[u] == i;
        }
      }
    }

    /** One pass of the search's loop: it stops, or makes one sweep and shrinks the step after a
        sweep without improvement. */
    method Pass() returns (stop: Option<Stop>)
      requires Valid() && Near()
      modifies this
      ensures Valid() && Near() && Extends(cache, old(cache)) && best <= old(best)
      ensures stop == Some(TargetReached) <==> old(best) <= pb.options.targetObjective
      ensures stop == Some(Converged) <==> old(best) > pb.options.targetObjective && old(step) < pb.options.minStep
      ensures stop == Some(TargetReached) || stop == Some(Converged) ==>
                cache == old(cache) && current == old(current) && best == old(best) && step == old(step)
      ensures stop == Some(BudgetExhausted) ==> evals >= pb.options.budget && step == old(step) >= pb.options.minStep
      ensures evals <= old(evals) + 2 * |pb.names|
      ensures stop.None? ==> sweeps == old(sweeps) + 1
      ensures stop.None? ==> old(step) >= pb.options.minStep
      ensures stop.None? && best >= old(best) - TOLERANCE ==>
                && best == old(best) && current == old(current) && step == old(step) * pb.options.shrink
                && AllExplored(pb, cache, current, old(step))
      ensures stop.None? && best < old(best) - TOLERANCE ==> step == old(step)
      ensures old(AllExplored(pb, cache, current, step)) && old(best) > pb.options.targetObjective
              && old(step) >= pb.options.minStep ==>
                stop.None? && cache == old(cache) && best == old(best) && step == old(step) * pb.options.shrink
    {
      hide CacheOk, NearBest, Explored, AllExplored, Bounds, OptionsOk, IsOrder, InBounds;
      ghost var wasStep := step;
      stop := Turn();
      assert Shrunk(pb.options, wasStep) == wasStep * pb.options.shrink;
    }

    method Turn() returns (stop: Option<Stop>)
      requires Valid() && Near()
      modifies this
      ensures Valid() && Near() && Extends(cache, old(cache)) && best <= old(best)
      ensures stop == Some(TargetReached) <==> old(best) <= pb.options.targetObjective
      ensures stop == Some(Converged) <==> old(best) > pb.options.targetObjective && old(step) < pb.options.minStep
      ensures stop == Some(TargetReached) || stop == Some(Converged) ==>
                cache == old(cache) && current == old(current) && best == old(best) && step == old(step)
      ensures stop == Some(BudgetExhausted) ==> evals >= pb.options.budget && step == old(step) >= pb.options.minStep
      ensures evals <= old(evals) + 2 * |pb.names|
      ensures stop.None? ==> sweeps == old(sweeps) + 1
      ensures stop.None? ==> old(step) >= pb.options.minStep
      ensures stop.None? && best >= old(best) - TOLERANCE ==>
                && best == old(best) && current == old(current) && step == Shrunk(pb.options, old(step))
                && AllExplored(pb, cache, current, old(step))
      ensures stop.None? && best < old(best) - TOLERANCE ==> step == old(step)
      ensures old(AllExplored(pb, cache, current, step)) && old(best) > pb.options.targetObjective
              && old(step) >= pb.options.minStep ==>
                stop.None? && cache == old(cache) && best == old(best) && step == Shrunk(pb.options, old(step))
    {
      hide CacheOk, NearBest, Explored, AllExplored, Shrunk, Bounds;
      if best <= pb.options.targetObjective {
        return Some(TargetReached);
      }
      if step < pb.options.minStep {
        return Some(Converged);
      }
      var improved, outOfBudget := Sweep();
      if outOfBudget {
        return Some(BudgetExhausted);
      }
      if !improved {
        step := Shrunk(pb.options, step);
      }
      return None;
    }

    /** The search. With a shrink below one it always ends; `explored` is the step of the last
        sweep when it converged. */
    method Run() returns (stop: Stop, ghost explored: real)
      requires Valid() && Near() && step == pb.options.initialStep && pb.options.shrink < 1.0
      modifies this
      ensures Valid() && Near() && best <= old(best) && Extends(cache, old(cache))
      ensures stop == TargetReached ==> best <= pb.options.targetObjective
      ensures stop == Converged ==> best > pb.options.targetObjective && step < pb.options.minStep
                                    && explored >= pb.options.minStep && step == explored * pb.options.shrink
                                    && AllExplored(pb, cache, current, explored)
      ensures stop == Converged && pb.options.shrink != 0.0
              && (forall q, r :: pb.key(q) == pb.key(r) ==> pb.objective(q) == pb.objective(r))
              ==> IsLocalMinimum(pb, current, step / pb.options.shrink)
      ensures stop == BudgetExhausted ==> evals >= pb.options.budget && step >= pb.options.minStep
    {
      hide CacheOk, NearBest, AllExplored, Bounds, IsOrder, IsLocalMinimum, Shrunk;
      stop, explored := Turns();
      if stop == Converged {
        Concludes(explored);
      }
    }

    /** What a search whose last sweep explored every move by `explored` has come to. */
    lemma Concludes(explored: real)
      requires Valid() && Near() && step == Shrunk(pb.options, explored) && AllExplored(pb, cache, current, explored)
      ensures step == explored * pb.options.shrink
      ensures pb.options.shrink != 0.0 && (forall q, r :: pb.key(q) == pb.key(r) ==> pb.objective(q) == pb.objective(r))
              ==> IsLocalMinimum(pb, current, step / pb.options.shrink)
    {
      hide CacheOk, NearBest, AllExplored, Bounds, IsOrder, IsLocalMinimum;
      if pb.options.shrink != 0.0 && forall q, r :: pb.key(q) == pb.key(r) ==> pb.objective(q) == pb.objective(r) {
        LastStep(pb.options, explored, step);
        EndsAtMinimum(pb, cache, simulated, current, explored);
      }
    }

    /** The search's loop; `explored` is the step of the last sweep when it converged. */
    method Turns() returns (stop: Stop, ghost explored: real)
      requires Valid() && Near() && step == pb.options.initialStep && pb.options.shrink < 1.0
      modifies this
      ensures Valid() && Near() && best <= old(best) && Extends(cache, old(cache))
      ensures stop == TargetReached ==> best <= pb.options.targetObjective
      ensures stop == Converged ==> best > pb.options.targetObjective && step < pb.options.minStep
                                    && explored >= pb.options.minStep && step == Shrunk(pb.options, explored)
                                    && AllExplored(pb, cache, current, explored)
      ensures stop == BudgetExhausted ==> evals >= pb.options.budget && step >= pb.options.minStep
    {
      hide CacheOk, NearBest, Explored, AllExplored, ShrinkUnit, Shrunk, Bounds;
      explored := step;
      while true
        invariant Valid() && Near() && best <= old(best) && Extends(cache, old(cache))
        invariant step < pb.options.minStep ==>
                    && explored >= pb.options.minStep && step == Shrunk(pb.options, explored)
                    && AllExplored(pb, cache, current, explored)
        decreases (best / TOLERANCE).Floor, (step / ShrinkUnit(pb.options)).Floor
      {
        ghost var wasBest, wasStep := best, step;
        BestIsNonNegative();
        var end := Turn();
        if end.Some? {
          return end.value, explored;
        }
        if best < wasBest - TOLERANCE {
          MeasureFalls(wasBest, best, TOLERANCE);
        } else {
          explored := wasStep;
          ShrinkFalls(pb.options, wasStep);
          MeasureFalls(wasStep, step, ShrinkUnit(pb.options));
        }
      }
    }

    /** Every move any later turn can make has been simulated already, and no stop applies. */
    ghost predicate Stuck()
      reads this
    {
      && OptionsOk(pb.options) && |current| == |pb.names| && pb.options.shrink >= 1.0
      && best > pb.options.targetObjective && step >= pb.options.minStep
      && AlwaysExplored(pb, cache, current, step)
    }

    /** Stuck is for ever: any number `n` of turns pass without stopping, and only the step and
        the number of sweeps move. */
    method Stalls(n: nat)
      requires Valid() && Near() && Stuck()
      modifies this
      ensures Valid() && Near() && Stuck() && sweeps == old(sweeps) + n
      ensures current == old(current) && best == old(best) && cache == old(cache)
      ensures step == StepAfter(pb.options, old(step), n)
    {
      hide CacheOk, NearBest, Shrunk, Bounds, OptionsOk, IsOrder, AllExplored, InBounds, StepAfter;
      StepStart(pb.options, step);
      for j := 0 to n
        invariant Valid() && Near() && Stuck() && sweeps == old(sweeps) + j
        invariant current == old(current) && best == old(best) && cache == old(cache)
        invariant step == StepAfter(pb.options, old(step), j)
      {
        StaysAlwaysExplored(pb, cache, current, step);
        StepGoesOn(pb.options, old(step), j);
        var stop := Turn();
        assert stop.None?;
      }
    }

    /** With a shrink of one or more the search ends by the target or the budget or not at all:
        turn by turn it comes to one of these stops, or is stuck. */
    method EndsOrStalls() returns (stop: Option<Stop>)
      requires Valid() && Near() && pb.options.shrink >= 1.0 && step >= pb.options.minStep
      modifies this
      ensures Valid() && Near() && best <= old(best)
      ensures stop.None? ==> Stuck()
      ensures stop == Some(TargetReached) ==> best <= pb.options.targetObjective
      ensures stop == Some(BudgetExhausted) ==> evals >= pb.options.budget
      ensures stop != Some(Converged)
    {
      hide CacheOk, NearBest, Explored, AllExplored, AlwaysExplored, Shrunk, Bounds, IsOrder, Distance, Reaches;
      while true
        invariant Valid() && Near() && best <= old(best) && step >= pb.options.minStep
        decreases (best / TOLERANCE).Floor,
                  if pb.options.shrink > 1.0 then Distance(pb, current, step) else 0
      {
        var wasBest, wasStep := best, step;
        BestIsNonNegative();
        ShrinkGrows(pb.options, step);
        stop := Turn();
        if stop.Some? {
          return;
        }
        if best < wasBest - TOLERANCE {
          MeasureFalls(wasBest, best, TOLERANCE);
        } else if pb.options.shrink == 1.0 || wasStep >= Reaches(pb, current, |current|) {
          NowAlwaysExplored(pb, cache, current, wasStep);
          return None;
        } else {
          DistanceFalls(pb, current, wasStep);
        }
      }
    }
  }

  // ---------------------------------------------------------------------
  // Searches that never end
  // ---------------------------------------------------------------------

  /** With a shrink of one or more there is always a search that does not end, whatever the
      budget: one whose bounds pin every parameter, with a start above the target. It makes any
      number `n` of turns and stops at none. */
  method PinnedNeverEnds(pb: Problem, shuffle: nat -> seq<nat>, start: map<string, real>, n: nat)
    returns (search: Search)
    requires OptionsOk(pb.options) && pb.options.shrink >= 1.0
    requires (forall p :: pb.objective(p) >= 0.0) && forall k :: IsOrder(shuffle(k), |pb.names|)
    requires forall i :: 0 <= i < |pb.names| ==>
               Bounds(pb.options, pb.names[i]).0 == Bounds(pb.options, pb.names[i]).1
    requires forall p :: InBounds(pb, p) ==> pb.objective(p) > pb.options.targetObjective
    ensures fresh(search) && search.pb == pb && search.Valid() && search.Stuck() && search.sweeps == n
  {
    search := new Search(pb, shuffle, start);
    forall k: nat
      ensures AllExplored(pb, search.cache, search.current, StepAfter(pb.options, search.step, k))
    {
      PinnedHasNoMove(pb, search.cache, search.current, StepAfter(pb.options, search.step, k));
    }
    search.Stalls(n);
  }

  lemma PinnedHasNoMove(pb: Problem, cache: map<Key, real>, p: Params, step: real)
    requires OptionsOk(pb.options) && InBounds(pb, p)
    requires forall i :: 0 <= i < |pb.names| ==>
               Bounds(pb.options, pb.names[i]).0 == Bounds(pb.options, pb.names[i]).1
    ensures AllExplored(pb, cache, p, step)
  {
    hide Bounds;
    forall i, up | 0 <= i < |p|
      ensures !Moves(pb, p, step, i, up)
    {
      assert Move(pb, p, step, i, up) == p[i];
    }
  }

  /** With a shrink of one, a constant objective above the target and a budget that affords one
      sweep, the first sweep leaves the search stuck, whatever the bounds. */
  method FlatNeverEnds(pb: Problem, shuffle: nat -> seq<nat>, start: map<string, real>, value: real, n: nat)
    returns (search: Search)
    requires OptionsOk(pb.options) && pb.options.shrink == 1.0 && pb.options.budget >= 2 * |pb.names| + 2
    requires forall k :: IsOrder(shuffle(k), |pb.names|)
    requires forall p :: pb.objective(p) == value
    requires value >= 0.0 && value > pb.options.targetObjective
    ensures fresh(search) && search.pb == pb && search.Valid() && search.Stuck() && search.sweeps == n + 1
  {
    hide AllExplored, Bounds, NearBest, IsOrder, Shrunk;
    search := new Search(pb, shuffle, start);
    var stop := search.Turn();
    search.FlatBest(value);
    StopOrNone(stop);
    NowAlwaysExplored(pb, search.cache, search.current, pb.options.initialStep);
    search.Stalls(n);
  }

  /** One speed factor with a constant objective, searched with the default options but for the
      shrink and the bounds of the factor. */
  function OneFactor(shrink: real, bounds: (real, real)): Problem {
    Problem(["speed:all"], Options(200, 0.25, 0.01, shrink, 0.0, (0.2, 3.0), bounds), _ => 1.0,
            (p: Params) => seq(|p|, i requires 0 <= i < |p| => (p[i] * 1000000000.0 + 0.5).Floor))
  }

  /** For every shrink of one or more there is such a search: the factor is pinned at one. */
  method EveryShrinkCanFail(shrink: real, n: nat) returns (search: Search)
    requires shrink >= 1.0
    ensures search.pb == OneFactor(shrink, (1.0, 1.0)) && search.Valid() && search.Stuck() && search.sweeps == n
  {
    assert "demand:"[0] != "speed:all"[0];
    search := PinnedNeverEnds(OneFactor(shrink, (1.0, 1.0)), _ => [0], map[], n);
  }

  /** With a shrink of one the default bounds are enough. */
  method DefaultBoundsCanFail(n: nat) returns (search: Search)
    ensures search.pb == OneFactor(1.0, (0.5, 1.6)) && search.Valid() && search.Stuck() && search.sweeps == n + 1
  {
    search := FlatNeverEnds(OneFactor(1.0, (0.5, 1.6)), _ => [0], map[], 1.0, n);
  }

  /** The first evaluation is made even on a budget of zero. */
  function AtLeastOne(budget: nat): nat {
    if budget > 1 then budget else 1
  }
}
