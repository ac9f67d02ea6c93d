/** The adaptive signal controller, updating its fields tick by tick. */
module AdaptiveSignal {
  import opened Options
  import opened RealMath
  import opened Phases
  import opened Stages
  import opened AdaptiveSpec
  import opened AdaptiveSafety

  /** Notes `s` as the stage of all its members. */
  method TabulateStage(stageOf: map<nat, nat>, members: seq<nat>, s: nat) returns (r: map<nat, nat>)
    ensures forall i :: i in r <==> i in stageOf || i in members
    ensures forall i :: i in r ==> r[i] == if i in members then s else stageOf[i]
  {
    r := stageOf;
    for x := 0 to |members|
      invariant forall i :: i in r <==> i in stageOf || i in members[..x]
      invariant forall i :: i in r ==> r[i] == if i in members[..x] then s else stageOf[i]
    {
      assert members[..x + 1] == members[..x] + [members[x]];
      r := r[members[x] := s];
    }
    assert members[..|members|] == members;
  }

  /** The stage of every phase, as the constructor tabulates it. */
  method TabulateStages(phases: Plan, stages: seq<Stage>) returns (stageOf: map<nat, nat>)
    requires IsSplit(phases, stages)
    ensures forall i :: 0 <= i < |phases| ==> i in stageOf && stageOf[i] < |stages| && InStage(stages[stageOf[i]], i)
  {
    stageOf := map[];
    for s := 0 to |stages|
      invariant forall i :: i in stageOf ==> stageOf[i] < s && InStage(stages[stageOf[i]], i)
      invariant forall k, i :: 0 <= k < s && InStage(stages[k], i) ==> i in stageOf
    {
      hide IsSplit;
      stageOf := TabulateStage(stageOf, stages[s].greens + stages[s].clearances, s);
    }
    forall i | 0 <= i < |phases|
      ensures i in stageOf
    {
      var k := StagesPartition(phases, stages, i);
    }
  }

  /** The constructor's outcome: a controller exactly when the plan can be run adaptively; with
      no negative time in its configuration, one whose every run is sound. */
  method NewController(phases: Plan, settings: Settings) returns (ok: bool, controller: AdaptiveSignalController?)
    ensures ok <==> settings.maxGreen > settings.minGreen && Runnable(phases)
    ensures ok ==> controller != null && fresh(controller) && controller.State() == INITIAL
                   && controller.sig.phases == phases && controller.sig.settings == settings && WellCut(controller.sig)
    ensures ok && NonNegative(phases) && settings.minGreen >= 0.0 ==> controller.Valid()
  {
    if !(settings.maxGreen > settings.minGreen) {
      return false, null;
    }
    var split := SplitStages(phases);
    if split.Rejected? {
      return false, null;
    }
    var stageOf := TabulateStages(phases, split.stages);
    var sig := Signal(phases, split.stages, stageOf, settings);
    if NonNegative(phases) && settings.minGreen >= 0.0 {
      TablesOk(sig);
    }
    controller := new AdaptiveSignalController(sig);
    ok := true;
  }

  /** In every reachable state the controller shows a green or one of its stage's clearances. */
  lemma GreenOrClearing(sig: Signal, s: AdaptiveSpec.State)
    requires SignalOk(sig) && Inv(sig, s)
    ensures s.idx < |sig.phases| && (IsGreen(sig, s.idx) || Clearing(sig, s))
  {
  }

  class AdaptiveSignalController {
    const sig: Signal
    var currentPhaseIdx: nat
    var timeInCurrentState: real
    var cycleNumber: nat
    var gapTimer: real
    var maxTimerStart: Option<real>
    var target: Option<nat>
    var extended: bool
    var gapOuts: nat
    var maxOuts: nat
    var greensStarted: nat
    var greensExtended: nat
    var phasesSkipped: nat
    var restSeconds: real

    ghost function State(): AdaptiveSpec.State
      reads this
    {
      AdaptiveSpec.State.State(currentPhaseIdx, timeInCurrentState, cycleNumber, gapTimer, maxTimerStart, target,
                               extended,
                               gapOuts, maxOuts, greensStarted, greensExtended, phasesSkipped, restSeconds)
    }

    ghost predicate Valid()
      reads this
    {
      SignalOk(sig) && Inv(sig, State())
    }

    constructor (sig: Signal)
      ensures State() == INITIAL && this.sig == sig && (SignalOk(sig) ==> Valid())
    {
      this.sig := sig;
      currentPhaseIdx, timeInCurrentState, cycleNumber := 0, 0.0, 0;
      gapTimer, maxTimerStart, target, extended := 0.0, None, None, false;
      gapOuts, maxOuts, greensStarted, greensExtended, phasesSkipped := 0, 0, 1, 0, 0;
      restSeconds := 0.0;
      new;
      if SignalOk(sig) {
        InitialInv(sig);
      }
    }

    /** One tick: its effect is `Step`, so every run of updates is a `Run`. */
    method Update(deltaTime: real, obs: Observation)
      requires Valid() && deltaTime > 0.0
      modifies this
      ensures Valid() && State() == Step(sig, old(State()), deltaTime, obs)
    {
      hide ClearOut, AdaptiveSpec.UpdateGreen, Inv, StageAt;
      ghost var before := State();
      StepKeepsInv(sig, before, deltaTime, obs);
      GreenOrClearing(sig, before);
      timeInCurrentState := timeInCurrentState + deltaTime;
      assert State() == before.(t := before.t + deltaTime);
      if sig.phases[currentPhaseIdx].IsGreen() {
        UpdateGreen(deltaTime, obs);
      } else {
        RunClearances();
      }
    }

    /** Every clearance whose time is used up hands over in this tick. */
    method RunClearances()
      requires SignalOk(sig) && Clearing(sig, State())
      modifies this
      ensures State() == ClearOut(sig, old(State()))
    {
      while !sig.phases[currentPhaseIdx].IsGreen()
            && timeInCurrentState >= sig.phases[currentPhaseIdx].duration
        invariant Clearing(sig, State()) || IsGreen(sig, currentPhaseIdx)
        invariant ClearOut(sig, State()) == ClearOut(sig, old(State()))
        decreases if IsGreen(sig, currentPhaseIdx) then 0
                  else |StageAt(sig, currentPhaseIdx).clearances| - Pos(sig, State())
      {
        timeInCurrentState := timeInCurrentState - sig.phases[currentPhaseIdx].duration;
        HandOver(sig, State());
        AfterClearance();
      }
    }

    method UpdateGreen(deltaTime: real, obs: Observation)
      requires SignalOk(sig) && IsGreen(sig, currentPhaseIdx)
      modifies this
      ensures State() == AdaptiveSpec.UpdateGreen(sig, old(State()), deltaTime, obs)
    {
      var waiting := Waiting(sig, currentPhaseIdx, obs);
      if obs.passing > 0 {
        gapTimer := 0.0;
      } else {
        gapTimer := gapTimer + deltaTime;
      }
      var t := timeInCurrentState;
      if waiting != {} && maxTimerStart.None? {
        maxTimerStart := Some(Max(0.0, t - deltaTime));
      }
      assert State() == Clocked(old(State()), deltaTime, obs, waiting);
      if t < sig.settings.minGreen {
        return;
      }
      if waiting == {} {
        if obs.passing == 0 {
          restSeconds := restSeconds + deltaTime;
        }
        return;
      }
      if gapTimer >= sig.settings.extensionStep {
        Terminate(GapOut, waiting);
      } else if t - maxTimerStart.value >= sig.settings.maxGreen {
        Terminate(MaxOut, waiting);
      } else if !extended {
        extended := true;
        greensExtended := greensExtended + 1;
      }
    }

    /** The other greens in cyclic plan order after `idx`. */
    method OrderAfter(idx: nat) returns (order: seq<nat>)
      requires idx < |sig.phases|
      ensures forall i :: i in order <==> i in OtherGreens(sig, idx)
      ensures Ascending(order, idx, |sig.phases|)
    {
      var n := |sig.phases|;
      order := [];
      for k := 1 to n
        invariant forall i: nat :: i in order <==> i < n && IsGreen(sig, i) && i != idx && Dist(idx, i, n) < k
        invariant Ascending(order, idx, n)
      {
        var i := Wrap(idx + k, n);
        DistOf(idx, k, n);
        if sig.phases[i].IsGreen() {
          order := order + [i];
        }
      }
    }

    /** The first phase of the order that is in `among`. */
    method NextAfter(idx: nat, among: set<nat>) returns (next: nat)
      requires idx < |sig.phases| && among != {} && among <= OtherGreens(sig, idx)
      ensures next == Nearest(sig, idx, among)
    {
      var order := OrderAfter(idx);
      ghost var w :| w in among;
      ghost var z :| 0 <= z < |order| && order[z] == w;
      var x := 0;
      while order[x] !in among
        invariant 0 <= x <= z
        invariant forall y :: 0 <= y < x ==> order[y] !in among
        decreases z - x
      {
        x := x + 1;
      }
      next := order[x];
      NearestFirst(sig, idx, among);
      ghost var j := Nearest(sig, idx, among);
      ghost var y :| 0 <= y < |order| && order[y] == j;
    }

    method Terminate(reason: Reason, waiting: set<nat>)
      requires SignalOk(sig) && IsGreen(sig, currentPhaseIdx) && waiting != {}
      requires waiting <= OtherGreens(sig, currentPhaseIdx)
      modifies this
      ensures State() == AdaptiveSpec.Terminate(sig, old(State()), reason, waiting)
    {
      var current := currentPhaseIdx;
      hide OtherGreens, Nearest, FirstAfter, Later, IndexOf;
      var next := NextAfter(current, waiting);
      var stage := StageAt(sig, current);
      var later := Later(stage.greens, current);
      match reason {
        case GapOut => gapOuts := gapOuts + 1;
        case MaxOut => maxOuts := maxOuts + 1;
      }
      if next in later {
        phasesSkipped := phasesSkipped + IndexOf(later, next);
        EnterGreen(next);
      } else {
        assert StageOk(sig, sig.stageOf[current]);
        phasesSkipped := phasesSkipped + |later|;
        target := Some(next);
        currentPhaseIdx := stage.clearances[0];
        timeInCurrentState := 0.0;
      }
    }

    method AfterClearance()
      requires SignalOk(sig) && Clearing(sig, State())
      modifies this
      ensures State() == AdaptiveSpec.AfterClearance(sig, old(State()))
    {
      var k := sig.stageOf[currentPhaseIdx];
      var clearances := sig.stages[k].clearances;
      hide OtherGreens, Nearest, FirstAfter, IndexOf;
      var pos := IndexOf(clearances, currentPhaseIdx);
      if pos + 1 < |clearances| {
        currentPhaseIdx := clearances[pos + 1];
        return;
      }
      var next: nat;
      if target.Some? {
        next := target.value;
      } else {
        var g := SomeGreen(sig);
        assert g in OtherGreens(sig, currentPhaseIdx);
        next := NextAfter(currentPhaseIdx, OtherGreens(sig, currentPhaseIdx));
      }
      assert next == Destination(sig, State());
      target := None;
      var last := sig.stageOf[next];
      assert InItsStage(sig, next);
      var skipped: nat, s: nat := 0, Next(k, |sig.stages|);
      while s != last
        invariant s < |sig.stages|
        invariant skipped + StagesPassed(sig.stages, s, last) == StagesPassed(sig.stages, Next(k, |sig.stages|), last)
        decreases if s <= last then last - s else last + |sig.stages| - s
      {
        skipped := skipped + |sig.stages[s].greens|;
        s := Next(s, |sig.stages|);
      }
      skipped := skipped + IndexOf(sig.stages[last].greens, next);
      phasesSkipped := phasesSkipped + skipped;
      var carry := timeInCurrentState;
      EnterGreen(next);
      timeInCurrentState := carry;
    }

    method EnterGreen(idx: nat)
      modifies this
      ensures State() == AdaptiveSpec.EnterGreen(old(State()), idx)
    {
      if idx <= currentPhaseIdx {
        cycleNumber := cycleNumber + 1;
      }
      currentPhaseIdx := idx;
      timeInCurrentState := 0.0;
      gapTimer := 0.0;
      maxTimerStart := None;
      extended := false;
      greensStarted := greensStarted + 1;
    }
  }

  ghost predicate Ascending(order: seq<nat>, idx: nat, n: nat) {
    && idx < n
    && (forall x :: 0 <= x < |order| ==> order[x] < n)
    && forall x, y :: 0 <= x < y < |order| ==> Dist(idx, order[x], n) < Dist(idx, order[y], n)
  }

  lemma DistOf(idx: nat, k: nat, n: nat)
    requires idx < n && 1 <= k < n
    ensures Dist(idx, Wrap(idx + k, n), n) == k && Wrap(idx + k, n) != idx
    ensures forall j :: 0 <= j < n && Dist(idx, j, n) == k ==> j == Wrap(idx + k, n)
  {
  }
}
