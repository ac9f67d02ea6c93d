/** One tick of the adaptive signal as a function of its state, and what every state keeps. */
module AdaptiveSpec {
  import opened Options
  import opened RealMath
  import opened Phases
  import opened Stages
  import SignalDetection

  datatype Settings = Settings(minGreen: real, maxGreen: real, extensionStep: real, demandThreshold: int)

  /** What a controller never changes: plan, stages, the stage each phase belongs to, settings. */
  datatype Signal = Signal(phases: Plan, stages: seq<Stage>, stageOf: map<nat, nat>, settings: Settings)

  /** One tick's detection: vehicles passing, and the demand of every other green phase. */
  type Observation = SignalDetection.Observation

  datatype State = State(
    idx: nat, t: real, cycle: nat,
    gapTimer: real, maxTimerStart: Option<real>, target: Option<nat>, extended: bool,
    gapOuts: nat, maxOuts: nat, greensStarted: nat, greensExtended: nat, phasesSkipped: nat, restSeconds: real)

  datatype Reason = GapOut | MaxOut

  const INITIAL := State(0, 0.0, 0, 0.0, None, None, false, 0, 0, 1, 0, 0, 0.0)

  predicate IsGreen(sig: Signal, i: nat) {
    i < |sig.phases| && sig.phases[i].IsGreen()
  }

  /** Stage `k` lists phase `i` where its colour says. */
  predicate Lists(sig: Signal, k: nat, i: nat) {
    && k < |sig.stages|
    && if IsGreen(sig, i) then i in sig.stages[k].greens else i in sig.stages[k].clearances
  }

  predicate InItsStage(sig: Signal, i: nat) {
    i in sig.stageOf && Lists(sig, sig.stageOf[i], i)
  }

  /** Every phase has its stage, and every clearance its stage and position. */
  ghost predicate SignalOk(sig: Signal) {
    && |sig.stages| > 0 && NonNegative(sig.phases)
    && 0.0 <= sig.settings.minGreen < sig.settings.maxGreen
    && (forall i :: 0 <= i < |sig.phases| ==> i in sig.stageOf && sig.stageOf[i] < |sig.stages|)
    && (forall i :: 0 <= i < |sig.phases| ==> InItsStage(sig, i))
    && (forall k :: 0 <= k < |sig.stages| ==> StageOk(sig, k))
  }

  ghost predicate StageOk(sig: Signal, k: nat)
    requires k < |sig.stages|
  {
    var greens, clearances := sig.stages[k].greens, sig.stages[k].clearances;
    && greens != [] && clearances != []
    && (forall x :: 0 <= x < |greens| ==>
          IsGreen(sig, greens[x]) && greens[x] in sig.stageOf && sig.stageOf[greens[x]] == k)
    && (forall x :: 0 <= x < |clearances| ==>
          clearances[x] < |sig.phases| && !IsGreen(sig, clearances[x])
          && clearances[x] in sig.stageOf && sig.stageOf[clearances[x]] == k)
    && (forall x, y :: 0 <= x < y < |clearances| ==> clearances[x] != clearances[y])
  }

  /** The stages are the plan's split and each is safe to run. */
  ghost predicate WellCut(sig: Signal) {
    && IsSplit(sig.phases, sig.stages)
    && forall k :: 0 <= k < |sig.stages| ==> StageSafe(sig.phases, sig.stages[k])
  }

  /** A controller built on a safe split has consistent tables. */
  lemma TablesOk(sig: Signal)
    requires WellCut(sig) && NonNegative(sig.phases) && 0.0 <= sig.settings.minGreen < sig.settings.maxGreen
    requires forall i :: 0 <= i < |sig.phases| ==>
               i in sig.stageOf && sig.stageOf[i] < |sig.stages| && InStage(sig.stages[sig.stageOf[i]], i)
    ensures SignalOk(sig)
  {
    var starts :| IsSplitAt(sig.phases, starts, sig.stages);
    forall k | 0 <= k < |sig.stages|
      ensures StageOk(sig, k)
    {
      assert IsStage(sig.phases, starts, k, sig.stages[k]);
      StageInPlan(sig.phases, starts, k, sig.stages[k]);
      StageDistinct(sig.phases, sig.stages, k);
      StageOfListed(sig, k);
    }
    forall i | 0 <= i < |sig.phases|
      ensures InItsStage(sig, i)
    {
      assert StageOk(sig, sig.stageOf[i]);
    }
  }

  lemma StageOfListed(sig: Signal, k: nat)
    requires IsSplit(sig.phases, sig.stages) && k < |sig.stages| && StageIn(sig.phases, sig.stages[k])
    requires forall i :: 0 <= i < |sig.phases| ==>
               i in sig.stageOf && sig.stageOf[i] < |sig.stages| && InStage(sig.stages[sig.stageOf[i]], i)
    ensures forall i :: 0 <= i < |sig.phases| && InStage(sig.stages[k], i) ==> sig.stageOf[i] == k
  {
    forall i | 0 <= i < |sig.phases| && InStage(sig.stages[k], i)
      ensures sig.stageOf[i] == k
    {
      var j := StagesPartition(sig.phases, sig.stages, i);
    }
  }

  function StageAt(sig: Signal, i: nat): Stage
    requires SignalOk(sig) && i < |sig.phases|
  {
    sig.stages[sig.stageOf[i]]
  }

  // ---------------------------------------------------------------------
  // Choosing the next green
  // ---------------------------------------------------------------------

  /** Steps from `i` forward to `j` on a cyclic plan, in `1..n`. */
  function Dist(i: nat, j: nat, n: nat): (d: nat)
    requires i < n && j < n
    ensures 1 <= d <= n && Wrap(i + d, n) == j
  {
    if i < j then j - i else j + n - i
  }

  function OtherGreens(sig: Signal, idx: nat): set<nat> {
    set i | 0 <= i < |sig.phases| && IsGreen(sig, i) && i != idx
  }

  /** The other greens whose demand reaches the threshold. */
  function Waiting(sig: Signal, idx: nat, obs: Observation): set<nat> {
    set i | i in obs.calls && i in OtherGreens(sig, idx) && obs.calls[i] >= sig.settings.demandThreshold
  }

  /** The first member of `among` in cyclic order after `idx`. */
  function FirstAfter(n: nat, idx: nat, among: set<nat>, k: nat): (j: nat)
    requires idx < n && 1 <= k <= n
    requires exists i :: i in among && i < n && k <= Dist(idx, i, n)
    requires forall i :: i in among && i < n ==> k <= Dist(idx, i, n)
    ensures j < n && j in among
    ensures forall i :: i in among && i < n ==> Dist(idx, j, n) <= Dist(idx, i, n)
    decreases n - k
  {
    if Wrap(idx + k, n) in among then Wrap(idx + k, n)
    else
      assert k == n ==> forall i :: i in among && i < n ==> Dist(idx, i, n) == n;
      assert forall i :: i in among && i < n && Dist(idx, i, n) == k ==> i == Wrap(idx + k, n);
      FirstAfter(n, idx, among, k + 1)
  }

  /** The nearest of some other greens: what the controller turns to next. */
  function Nearest(sig: Signal, idx: nat, among: set<nat>): (j: nat)
    requires idx < |sig.phases| && among != {} && among <= OtherGreens(sig, idx)
    ensures j in among && j < |sig.phases| && j != idx && IsGreen(sig, j)
  {
    assert exists i :: i in among && i < |sig.phases| && 1 <= Dist(idx, i, |sig.phases|) by {
      var w :| w in among;
      assert w in OtherGreens(sig, idx) && 1 <= Dist(idx, w, |sig.phases|);
    }
    var j := FirstAfter(|sig.phases|, idx, among, 1);
    assert j in OtherGreens(sig, idx);
    j
  }

  lemma NearestFirst(sig: Signal, idx: nat, among: set<nat>)
    requires idx < |sig.phases| && among != {} && among <= OtherGreens(sig, idx)
    ensures forall i :: i in among && i < |sig.phases| ==>
              Dist(idx, Nearest(sig, idx, among), |sig.phases|) <= Dist(idx, i, |sig.phases|)
  {
  }

  // ---------------------------------------------------------------------
  // One tick
  // ---------------------------------------------------------------------

  function IndexOf(s: seq<nat>, x: nat): (i: nat)
    requires x in s
    ensures i < |s| && s[i] == x
  {
    if s[0] == x then 0 else 1 + IndexOf(s[1..], x)
  }

  /** The stage's greens with a higher plan index than `idx`. */
  function Later(greens: seq<nat>, idx: nat): (later: seq<nat>)
    ensures forall x :: x in later <==> x in greens && x > idx
  {
    if greens == [] then []
    else
      var rest := Later(greens[..|greens| - 1], idx);
      var last := greens[|greens| - 1];
      assert forall x :: x in greens <==> x in greens[..|greens| - 1] || x == last;
      if last > idx then rest + [last] else rest
  }

  function EnterGreen(s: State, i: nat): State {
    s.(cycle := if i <= s.idx then s.cycle + 1 else s.cycle,
       idx := i, t := 0.0, gapTimer := 0.0, maxTimerStart := None, extended := false,
       greensStarted := s.greensStarted + 1)
  }

  function Terminate(sig: Signal, s: State, reason: Reason, waiting: set<nat>): State
    requires SignalOk(sig) && IsGreen(sig, s.idx) && waiting != {} && waiting <= OtherGreens(sig, s.idx)
  {
    var target := Nearest(sig, s.idx, waiting);
    var stage := StageAt(sig, s.idx);
    var later := Later(stage.greens, s.idx);
    var c := match reason case GapOut => s.(gapOuts := s.gapOuts + 1) case MaxOut => s.(maxOuts := s.maxOuts + 1);
    if target in later then
      EnterGreen(c.(phasesSkipped := c.phasesSkipped + IndexOf(later, target)), target)
    else
      assert StageOk(sig, sig.stageOf[s.idx]);
      c.(phasesSkipped := c.phasesSkipped + |later|, target := Some(target), idx := stage.clearances[0], t := 0.0)
  }

  /** The gap and max timers after this tick's detection; the tick is already in `s.t`. */
  function Clocked(s: State, dt: real, obs: Observation, waiting: set<nat>): State {
    s.(gapTimer := if obs.passing > 0 then 0.0 else s.gapTimer + dt,
       maxTimerStart := if waiting != {} && s.maxTimerStart.None? then Some(Max(0.0, s.t - dt)) else s.maxTimerStart)
  }

  /** Why the green ends now, if it does: never before the minimum or with nobody waiting. */
  function EndReason(sig: Signal, s: State, waiting: set<nat>): Option<Reason>
    requires waiting != {} ==> s.maxTimerStart.Some?
  {
    if s.t < sig.settings.minGreen || waiting == {} then None
    else if s.gapTimer >= sig.settings.extensionStep then Some(GapOut)
    else if s.t - s.maxTimerStart.value >= sig.settings.maxGreen then Some(MaxOut)
    else None
  }

  function KeepGreen(sig: Signal, s: State, dt: real, obs: Observation, waiting: set<nat>): State {
    if s.t < sig.settings.minGreen then s
    else if waiting == {} then
      if obs.passing > 0 then s else s.(restSeconds := s.restSeconds + dt)
    else if s.extended then s
    else s.(extended := true, greensExtended := s.greensExtended + 1)
  }

  function UpdateGreen(sig: Signal, s: State, dt: real, obs: Observation): State
    requires SignalOk(sig) && IsGreen(sig, s.idx)
  {
    var waiting := Waiting(sig, s.idx, obs);
    var b := Clocked(s, dt, obs, waiting);
    var reason := EndReason(sig, b, waiting);
    if reason.Some? then Terminate(sig, b, reason.value, waiting) else KeepGreen(sig, b, dt, obs, waiting)
  }

  /** Greens of the stages from `s` up to, not including, `last`, in cyclic order. */
  function StagesPassed(stages: seq<Stage>, s: nat, last: nat): nat
    requires s < |stages| && last < |stages|
    decreases if s <= last then last - s else last + |stages| - s
  {
    if s == last then 0 else |stages[s].greens| + StagesPassed(stages, Next(s, |stages|), last)
  }

  /** A state shown during clearance: the phase is one of its stage's clearances. */
  ghost predicate Clearing(sig: Signal, s: State)
    requires SignalOk(sig)
  {
    && s.idx < |sig.phases| && !IsGreen(sig, s.idx)
    && s.idx in StageAt(sig, s.idx).clearances
    && (s.target.Some? ==> IsGreen(sig, s.target.value))
  }

  /** The green a clearance leads to. */
  function Destination(sig: Signal, s: State): (target: nat)
    requires SignalOk(sig) && Clearing(sig, s)
    ensures IsGreen(sig, target)
    ensures s.target.Some? ==> target == s.target.value
  {
    if s.target.Some? then s.target.value
    else
      var g := SomeGreen(sig);
      assert g in OtherGreens(sig, s.idx);
      Nearest(sig, s.idx, OtherGreens(sig, s.idx))
  }

  function SomeGreen(sig: Signal): (g: nat)
    requires SignalOk(sig)
    ensures IsGreen(sig, g)
  {
    assert StageOk(sig, 0);
    sig.stages[0].greens[0]
  }

  function AfterClearance(sig: Signal, s: State): State
    requires SignalOk(sig) && Clearing(sig, s)
  {
    var k := sig.stageOf[s.idx];
    var clearances := sig.stages[k].clearances;
    var pos := IndexOf(clearances, s.idx);
    if pos + 1 < |clearances| then s.(idx := clearances[pos + 1])
    else
      var target := Destination(sig, s);
      var last := sig.stageOf[target];
      assert InItsStage(sig, target);
      var skipped := StagesPassed(sig.stages, Next(k, |sig.stages|), last) + IndexOf(sig.stages[last].greens, target);
      EnterGreen(s.(target := None, phasesSkipped := s.phasesSkipped + skipped), target).(t := s.t)
  }

  /** Position of the shown clearance among its stage's clearances. */
  function Pos(sig: Signal, s: State): (p: nat)
    requires SignalOk(sig) && Clearing(sig, s)
    ensures p < |StageAt(sig, s.idx).clearances|
  {
    IndexOf(StageAt(sig, s.idx).clearances, s.idx)
  }

  /** The clearances of a stage are distinct phases of that stage alone. */
  lemma ClearanceAt(sig: Signal, k: nat, p: nat)
    requires SignalOk(sig) && k < |sig.stages| && p < |sig.stages[k].clearances|
    ensures var i := sig.stages[k].clearances[p];
            i < |sig.phases| && sig.stageOf[i] == k && !IsGreen(sig, i) && IndexOf(sig.stages[k].clearances, i) == p
  {
    assert StageOk(sig, k);
    var c := sig.stages[k].clearances;
    assert c[IndexOf(c, c[p])] == c[p];
  }

  /** Without a target a clearance leads to the next green of the plan. */
  lemma NextGreenIsFirst(sig: Signal, s: State)
    requires SignalOk(sig) && Clearing(sig, s) && s.target.None?
    ensures forall g :: IsGreen(sig, g) ==>
              Dist(s.idx, Destination(sig, s), |sig.phases|) <= Dist(s.idx, g, |sig.phases|)
  {
    var first := SomeGreen(sig);
    assert first in OtherGreens(sig, s.idx);
    NearestFirst(sig, s.idx, OtherGreens(sig, s.idx));
    hide SignalOk, FirstAfter;
  }

  /** What a hand-over does: the next clearance of the stage, or the destination's green. */
  lemma HandOver(sig: Signal, s: State)
    requires SignalOk(sig) && Clearing(sig, s)
    ensures var r, k := AfterClearance(sig, s), sig.stageOf[s.idx];
            var c, p := sig.stages[k].clearances, Pos(sig, s);
            && r.t == s.t
            && (p + 1 < |c| ==>
                  r == s.(idx := c[p + 1]) && Clearing(sig, r) && sig.stageOf[r.idx] == k && Pos(sig, r) == p + 1)
            && (p + 1 == |c| ==>
                  IsGreen(sig, r.idx) && r.idx == Destination(sig, s) && r.target.None? && r.maxTimerStart.None?)
            && (p + 1 == |c| && s.target.Some? ==> r.idx == s.target.value)
            && (p + 1 == |c| && s.target.None? ==> forall g :: IsGreen(sig, g) ==>
                  Dist(s.idx, r.idx, |sig.phases|) <= Dist(s.idx, g, |sig.phases|))
  {
    var k := sig.stageOf[s.idx];
    var c, p := sig.stages[k].clearances, Pos(sig, s);
    if p + 1 < |c| {
      ClearanceAt(sig, k, p + 1);
    } else if s.target.None? {
      NextGreenIsFirst(sig, s);
    }
  }

  /** Hands over every phase whose time is used up; entering a green ends it. */
  function ClearOut(sig: Signal, s: State): (r: State)
    requires SignalOk(sig) && (Clearing(sig, s) || IsGreen(sig, s.idx))
    decreases if IsGreen(sig, s.idx) then 0 else |StageAt(sig, s.idx).clearances| - Pos(sig, s)
  {
    if IsGreen(sig, s.idx) || s.t < sig.phases[s.idx].duration then s
    else
      var u := s.(t := s.t - sig.phases[s.idx].duration);
      HandOver(sig, u);
      ClearOut(sig, AfterClearance(sig, u))
  }

  /** One tick of the controller. */
  function Step(sig: Signal, s: State, dt: real, obs: Observation): State
    requires SignalOk(sig) && (Clearing(sig, s) || IsGreen(sig, s.idx))
  {
    var u := s.(t := s.t + dt);
    if IsGreen(sig, u.idx) then UpdateGreen(sig, u, dt, obs) else ClearOut(sig, u)
  }
}
