/** Safety of the adaptive signal over every run: clearances, direct steps, green lengths. */
module AdaptiveSafety {
  import opened Options
  import opened RealMath
  import opened Phases
  import opened Stages
  import opened AdaptiveSpec

  // ---------------------------------------------------------------------
  // Invariant
  // ---------------------------------------------------------------------

  ghost predicate Inv(sig: Signal, s: State)
    requires SignalOk(sig)
  {
    && s.t >= 0.0
    && (s.maxTimerStart.Some? ==> s.maxTimerStart.value >= 0.0)
    && if IsGreen(sig, s.idx) then s.target.None? && (s.maxTimerStart.Some? ==> s.maxTimerStart.value <= s.t)
       else Clearing(sig, s) && (s.t < sig.phases[s.idx].duration || s.t == 0.0)
  }

  /** Configured seconds of the first `p` clearances of stage `k`. */
  function ClearSeconds(sig: Signal, k: nat, p: nat): real
    requires SignalOk(sig) && k < |sig.stages| && p <= |sig.stages[k].clearances|
  {
    if p == 0 then 0.0
    else
      assert StageOk(sig, k);
      ClearSeconds(sig, k, p - 1) + sig.phases[sig.stages[k].clearances[p - 1]].duration
  }

  /** Configured length of stage `k`'s whole clearance. */
  function Clearance(sig: Signal, k: nat): real
    requires SignalOk(sig) && k < |sig.stages|
  {
    ClearSeconds(sig, k, |sig.stages[k].clearances|)
  }

  /** Seconds since the clearance began, if every phase before the shown one ran in full. */
  function Cleared(sig: Signal, s: State): real
    requires SignalOk(sig) && Clearing(sig, s)
  {
    ClearSeconds(sig, sig.stageOf[s.idx], Pos(sig, s)) + s.t
  }

  lemma {:induction false} ClearSecondsMono(sig: Signal, k: nat, p: nat, q: nat)
    requires SignalOk(sig) && k < |sig.stages| && p <= q <= |sig.stages[k].clearances|
    ensures 0.0 <= ClearSeconds(sig, k, p) <= ClearSeconds(sig, k, q)
    decreases q
  {
    if p < q {
      assert StageOk(sig, k);
      ClearSecondsMono(sig, k, p, q - 1);
    } else if p > 0 {
      assert StageOk(sig, k);
      ClearSecondsMono(sig, k, p - 1, p - 1);
    }
  }

  /** Handing over spends exactly the configured durations, in order: either the clearance is
      still running and no time was lost, or it ran in full and the rest carried into the green. */
  lemma {:induction false} ClearOutKeepsTime(sig: Signal, s: State)
    requires SignalOk(sig) && Clearing(sig, s) && s.t >= 0.0
    ensures var r, k := ClearOut(sig, s), sig.stageOf[s.idx];
            if IsGreen(sig, r.idx) then
              && (s.target.Some? ==> r.idx == s.target.value)
              && r.t == Cleared(sig, s) - Clearance(sig, k) && r.t >= 0.0
              && r.target.None? && r.maxTimerStart.None?
            else
              && Clearing(sig, r) && sig.stageOf[r.idx] == k && Pos(sig, r) >= Pos(sig, s)
              && Cleared(sig, r) == Cleared(sig, s) && 0.0 <= r.t < sig.phases[r.idx].duration
              && r == s.(idx := r.idx, t := r.t)
    decreases |StageAt(sig, s.idx).clearances| - Pos(sig, s)
  {
    hide AfterClearance, IndexOf;
    if s.t >= sig.phases[s.idx].duration {
      var u := s.(t := s.t - sig.phases[s.idx].duration);
      HandOver(sig, u);
      var v := AfterClearance(sig, u);
      if !IsGreen(sig, v.idx) {
        ClearOutKeepsTime(sig, v);
      }
    }
  }

  function Decisions(s: State): nat {
    s.gapOuts + s.maxOuts
  }

  /** What a terminated green hands over to: the first waiting green in cyclic order, shown at
      once if it lies further on in the stage, else after the stage's clearances. */
  ghost predicate HandsOver(sig: Signal, s: State, r: State, waiting: set<nat>)
    requires SignalOk(sig) && IsGreen(sig, s.idx)
  {
    var target := NextGreen(sig, r);
    && target in waiting && target < |sig.phases|
    && (forall w :: w in waiting && w < |sig.phases| ==>
          Dist(s.idx, target, |sig.phases|) <= Dist(s.idx, w, |sig.phases|))
    && r.t == 0.0 && Decisions(r) == Decisions(s) + 1
    && (IsGreen(sig, r.idx) <==> target in StageAt(sig, s.idx).greens && target > s.idx)
    && if IsGreen(sig, r.idx) then
         r.target.None? && r.maxTimerStart.None? && r.idx > s.idx && r.idx in StageAt(sig, s.idx).greens
       else
         Clearing(sig, r) && r.target.Some? && sig.stageOf[r.idx] == sig.stageOf[s.idx] && Pos(sig, r) == 0
         && (r.maxTimerStart.Some? ==> r.maxTimerStart.value >= 0.0)
  }

  /** The green shown, or the one a clearance is bound for. */
  function NextGreen(sig: Signal, r: State): nat {
    if IsGreen(sig, r.idx) then r.idx else if r.target.Some? then r.target.value else |sig.phases|
  }

  lemma TerminateHandsOver(sig: Signal, s: State, reason: Reason, waiting: set<nat>)
    requires SignalOk(sig) && IsGreen(sig, s.idx) && waiting != {} && waiting <= OtherGreens(sig, s.idx)
    requires s.target.None? && (s.maxTimerStart.Some? ==> s.maxTimerStart.value >= 0.0)
    ensures HandsOver(sig, s, Terminate(sig, s, reason, waiting), waiting)
  {
    var k := sig.stageOf[s.idx];
    assert StageOk(sig, k);
    ClearanceAt(sig, k, 0);
    NearestFirst(sig, s.idx, waiting);
  }

  lemma StepKeepsInv(sig: Signal, s: State, dt: real, obs: Observation)
    requires SignalOk(sig) && Inv(sig, s) && dt > 0.0
    ensures Inv(sig, Step(sig, s, dt, obs))
  {
    var u := s.(t := s.t + dt);
    if IsGreen(sig, s.idx) {
      GreenTick(sig, s, dt, obs);
    } else {
      ClearOutKeepsTime(sig, u);
    }
  }

  // ---------------------------------------------------------------------
  // Green phases
  // ---------------------------------------------------------------------

  /** When the max timer of the shown green started, counting the current tick. */
  function TimerStart(s: State): real {
    if s.maxTimerStart.Some? then s.maxTimerStart.value else Max(0.0, s.t)
  }

  /** The green goes on, on its own clock; with somebody waiting it is below its maximum. */
  ghost predicate GoesOn(sig: Signal, s: State, r: State, dt: real, waiting: set<nat>) {
    && r.idx == s.idx && r.t == s.t + dt && r.target == s.target && r.greensStarted == s.greensStarted
    && Decisions(r) == Decisions(s)
    && if waiting != {} then r.maxTimerStart == Some(TimerStart(s)) && r.t - TimerStart(s) < sig.settings.maxGreen
       else r.maxTimerStart == s.maxTimerStart
  }

  /** A tick of a green either keeps it running, or ends it after its minimum because another
      phase waits. */
  lemma GreenTick(sig: Signal, s: State, dt: real, obs: Observation)
    requires SignalOk(sig) && Inv(sig, s) && IsGreen(sig, s.idx) && dt > 0.0
    ensures var r, waiting := Step(sig, s, dt, obs), Waiting(sig, s.idx, obs);
            if Decisions(r) == Decisions(s) then GoesOn(sig, s, r, dt, waiting)
            else s.t + dt >= sig.settings.minGreen && waiting != {} && HandsOver(sig, s, r, waiting)
  {
    hide Terminate, OtherGreens;
    var waiting := Waiting(sig, s.idx, obs);
    var b := Clocked(s.(t := s.t + dt), dt, obs, waiting);
    var reason := EndReason(sig, b, waiting);
    assert waiting <= OtherGreens(sig, s.idx);
    if reason.Some? {
      TerminateHandsOver(sig, b, reason.value, waiting);
    }
  }

  /** The only direct step between two greens stays in one stage: same approaches, and further
      on in the plan. */
  lemma DirectStep(sig: Signal, s: State, dt: real, obs: Observation)
    requires SignalOk(sig) && WellCut(sig) && Inv(sig, s) && dt > 0.0
    requires IsGreen(sig, s.idx) && IsGreen(sig, Step(sig, s, dt, obs).idx) && Step(sig, s, dt, obs).idx != s.idx
    ensures var r := Step(sig, s, dt, obs);
            && r.idx > s.idx && sig.stageOf[r.idx] == sig.stageOf[s.idx]
            && sig.phases[r.idx].directions == sig.phases[s.idx].directions
  {
    GreenTick(sig, s, dt, obs);
    var r, k := Step(sig, s, dt, obs), sig.stageOf[s.idx];
    assert StageOk(sig, k) && InItsStage(sig, s.idx);
    var st := sig.stages[k];
    assert StageSafe(sig.phases, st) && OneApproachGroup(sig.phases, st);
    var x :| 0 <= x < |st.greens| && st.greens[x] == s.idx;
    var y :| 0 <= y < |st.greens| && st.greens[y] == r.idx;
  }

  // ---------------------------------------------------------------------
  // Runs
  // ---------------------------------------------------------------------

  /** The state after the given ticks. */
  function Run(sig: Signal, s: State, dt: real, obs: seq<Observation>): (r: State)
    requires SignalOk(sig) && Inv(sig, s) && dt > 0.0
    ensures Inv(sig, r)
    decreases |obs|
  {
    if obs == [] then s
    else
      StepKeepsInv(sig, s, dt, obs[0]);
      Run(sig, Step(sig, s, dt, obs[0]), dt, obs[1..])
  }

  lemma InitialInv(sig: Signal)
    requires SignalOk(sig)
    ensures Inv(sig, INITIAL)
  {
    var g := SomeGreen(sig);
    assert InItsStage(sig, 0);
  }

  /** Clearance safety over whole runs. From a clearance with `e` seconds cleared, whatever is
      detected, after `n` ticks the same clearance is still shown, exactly `e + n*dt` seconds
      into its configured phases, until its full configured length is reached. */
  lemma {:induction false} ClearanceRunsInFull(sig: Signal, s: State, dt: real, obs: seq<Observation>)
    requires SignalOk(sig) && Inv(sig, s) && dt > 0.0 && Clearing(sig, s)
    requires obs == [] || Cleared(sig, s) + Times(dt, |obs|) < Clearance(sig, sig.stageOf[s.idx])
    ensures var r := Run(sig, s, dt, obs);
            && Clearing(sig, r) && sig.stageOf[r.idx] == sig.stageOf[s.idx] && r.target == s.target
            && Cleared(sig, r) == Cleared(sig, s) + Times(dt, |obs|)
            && Decisions(r) == Decisions(s)
    decreases |obs|
  {
    hide ClearOut, AfterClearance, IndexOf;
    if obs != [] {
      var k := sig.stageOf[s.idx];
      var r := Step(sig, s, dt, obs[0]);
      StepKeepsInv(sig, s, dt, obs[0]);
      ClearOutKeepsTime(sig, s.(t := s.t + dt));
      TimesSplit(dt, 1, |obs| - 1);
      TimesMono(dt, 0, |obs| - 1);
      ClearanceRunsInFull(sig, r, dt, obs[1..]);
    }
  }

  /** A green that ends into a clearance is followed by no green, in any run, until the ended
      stage's whole clearance has been shown: a yellow for its approaches and an all-red in it. */
  lemma NoGreenBeforeClearance(sig: Signal, s: State, dt: real, first: Observation, obs: seq<Observation>)
    requires SignalOk(sig) && WellCut(sig) && Inv(sig, s) && dt > 0.0 && IsGreen(sig, s.idx)
    requires !IsGreen(sig, Step(sig, s, dt, first).idx) && Inv(sig, Step(sig, s, dt, first))
    requires IsGreen(sig, Run(sig, Step(sig, s, dt, first), dt, obs).idx)
    ensures Times(dt, |obs|) >= Clearance(sig, sig.stageOf[s.idx])
    ensures var clearances := StageAt(sig, s.idx).clearances;
            && (exists y :: && y in clearances && y < |sig.phases| && sig.phases[y].color == Yellow
                            && forall d :: d in sig.phases[s.idx].directions ==> d in sig.phases[y].directions)
            && exists y :: y in clearances && y < |sig.phases| && sig.phases[y].name == "all_red"
  {
    EndedStageIsCleared(sig, s.idx);
    var r, k := Step(sig, s, dt, first), sig.stageOf[s.idx];
    GreenTick(sig, s, dt, first);
    assert Cleared(sig, r) == 0.0;
    if Times(dt, |obs|) < Clearance(sig, k) {
      hide Step, Run, Inv, Clearance, Cleared;
      ClearanceRunsInFull(sig, r, dt, obs);
    }
  }

  lemma EndedStageIsCleared(sig: Signal, i: nat)
    requires SignalOk(sig) && WellCut(sig) && IsGreen(sig, i)
    ensures var clearances := StageAt(sig, i).clearances;
            && (exists y :: && y in clearances && y < |sig.phases| && sig.phases[y].color == Yellow
                            && forall d :: d in sig.phases[i].directions ==> d in sig.phases[y].directions)
            && exists y :: y in clearances && y < |sig.phases| && sig.phases[y].name == "all_red"
  {
    var k := sig.stageOf[i];
    assert InItsStage(sig, i) && StageSafe(sig.phases, sig.stages[k]);
    StageSafeIff(sig.phases, sig.stages[k]);
    hide StageSafe, SignalOk, WellCut;
  }

  /** The tick that reaches the full length enters the destination's green, carrying the rest. */
  lemma ClearanceHandsOver(sig: Signal, s: State, dt: real, obs: seq<Observation>, last: Observation)
    requires SignalOk(sig) && Inv(sig, s) && dt > 0.0 && Clearing(sig, s)
    requires var total := Clearance(sig, sig.stageOf[s.idx]);
             && (obs == [] || Cleared(sig, s) + Times(dt, |obs|) < total)
             && total <= Cleared(sig, s) + Times(dt, |obs|) + dt
    ensures var r := Step(sig, Run(sig, s, dt, obs), dt, last);
            && IsGreen(sig, r.idx) && (s.target.Some? ==> r.idx == s.target.value)
            && r.t == Cleared(sig, s) + Times(dt, |obs|) + dt - Clearance(sig, sig.stageOf[s.idx])
  {
    ClearanceRunsInFull(sig, s, dt, obs);
    LastClearanceTick(sig, Run(sig, s, dt, obs), dt, last);
  }

  lemma LastClearanceTick(sig: Signal, s: State, dt: real, last: Observation)
    requires SignalOk(sig) && Inv(sig, s) && dt > 0.0 && Clearing(sig, s)
    requires Clearance(sig, sig.stageOf[s.idx]) <= Cleared(sig, s) + dt
    ensures var r := Step(sig, s, dt, last);
            && IsGreen(sig, r.idx) && (s.target.Some? ==> r.idx == s.target.value)
            && r.t == Cleared(sig, s) + dt - Clearance(sig, sig.stageOf[s.idx])
  {
    var u, k := s.(t := s.t + dt), sig.stageOf[s.idx];
    ClearOutKeepsTime(sig, u);
    var r := ClearOut(sig, u);
    if !IsGreen(sig, r.idx) {
      ClearSecondsMono(sig, k, Pos(sig, r) + 1, |sig.stages[k].clearances|);
    }
  }

  /** A green with somebody waiting at every tick is still running only while it is below its
      maximum, so the tick that ends it does so below `m + maxGreen + dt`. */
  lemma {:induction false} LongestGreen(sig: Signal, s: State, dt: real, obs: seq<Observation>)
    requires SignalOk(sig) && Inv(sig, s) && dt > 0.0 && IsGreen(sig, s.idx)
    requires s.t - TimerStart(s) < sig.settings.maxGreen
    requires forall k :: 0 <= k < |obs| ==> Waiting(sig, s.idx, obs[k]) != {}
    ensures var r := Run(sig, s, dt, obs);
            Decisions(r) >= Decisions(s)
            && (Decisions(r) == Decisions(s) ==>
                  r.idx == s.idx && r.t == s.t + Times(dt, |obs|) && r.t < TimerStart(s) + sig.settings.maxGreen)
    decreases |obs|
  {
    if obs != [] {
      var r := Step(sig, s, dt, obs[0]);
      StepKeepsInv(sig, s, dt, obs[0]);
      GreenTick(sig, s, dt, obs[0]);
      TimesSplit(dt, 1, |obs| - 1);
      DecisionsGrow(sig, r, dt, obs[1..]);
      if Decisions(r) == Decisions(s) {
        LongestGreen(sig, r, dt, obs[1..]);
      }
    }
  }

  lemma {:induction false} DecisionsGrow(sig: Signal, s: State, dt: real, obs: seq<Observation>)
    requires SignalOk(sig) && Inv(sig, s) && dt > 0.0
    ensures Decisions(Run(sig, s, dt, obs)) >= Decisions(s)
    decreases |obs|
  {
    if obs != [] {
      StepKeepsInv(sig, s, dt, obs[0]);
      if IsGreen(sig, s.idx) {
        GreenTick(sig, s, dt, obs[0]);
      } else {
        ClearOutDecides(sig, s.(t := s.t + dt));
      }
      DecisionsGrow(sig, Step(sig, s, dt, obs[0]), dt, obs[1..]);
    }
  }

  /** Clearances take no decisions. */
  lemma {:induction false} ClearOutDecides(sig: Signal, s: State)
    requires SignalOk(sig) && (Clearing(sig, s) || IsGreen(sig, s.idx))
    ensures Decisions(ClearOut(sig, s)) == Decisions(s)
    decreases if IsGreen(sig, s.idx) then 0 else |StageAt(sig, s.idx).clearances| - Pos(sig, s)
  {
    if !IsGreen(sig, s.idx) && s.t >= sig.phases[s.idx].duration {
      var u := s.(t := s.t - sig.phases[s.idx].duration);
      HandOver(sig, u);
      ClearOutDecides(sig, AfterClearance(sig, u));
    }
  }
}
