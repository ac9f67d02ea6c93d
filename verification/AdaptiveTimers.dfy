/** When an adaptive green ends and why, told from the detections since it began. */
module AdaptiveTimers {
  import opened RealMath
  import opened Phases
  import opened AdaptiveSpec
  import opened AdaptiveSafety

  /** Some green other than `idx` has as many vehicles calling as the threshold asks for. */
  predicate SomebodyWaits(sig: Signal, idx: nat, now: Observation) {
    exists i :: i in now.calls && i < |sig.phases| && sig.phases[i].color == Phases.Green && i != idx
                && now.calls[i] >= sig.settings.demandThreshold
  }

  lemma WaitsIffWaiting(sig: Signal, idx: nat, now: Observation)
    ensures SomebodyWaits(sig, idx, now) <==> Waiting(sig, idx, now) != {}
  {
    if i :| i in now.calls && i < |sig.phases| && sig.phases[i].color == Phases.Green && i != idx
            && now.calls[i] >= sig.settings.demandThreshold {
      assert i in Waiting(sig, idx, now);
    }
  }

  /** Ticks since the last one with a vehicle passing, or since the first. */
  function QuietTicks(obs: seq<Observation>): nat {
    if obs == [] || obs[|obs| - 1].passing > 0 then 0 else QuietTicks(obs[..|obs| - 1]) + 1
  }

  /** Ticks from the first at which somebody waited on, that one included. */
  function WaitedTicks(sig: Signal, idx: nat, obs: seq<Observation>): nat {
    if obs == [] then 0
    else
      var before := WaitedTicks(sig, idx, obs[..|obs| - 1]);
      if before > 0 || SomebodyWaits(sig, idx, obs[|obs| - 1]) then before + 1 else 0
  }

  /** The minimum green has run at the last of these ticks, the first of which began at `start`. */
  predicate PastMinimum(sig: Signal, start: real, dt: real, obs: seq<Observation>) {
    start + Times(dt, |obs|) >= sig.settings.minGreen
  }

  /** Ticks past the minimum with nobody waiting and nobody passing. */
  function RestTicks(sig: Signal, idx: nat, start: real, dt: real, obs: seq<Observation>): nat {
    if obs == [] then 0
    else
      var now := obs[|obs| - 1];
      RestTicks(sig, idx, start, dt, obs[..|obs| - 1])
      + if PastMinimum(sig, start, dt, obs) && !SomebodyWaits(sig, idx, now) && now.passing <= 0 then 1 else 0
  }

  /** The green was kept past its minimum at some tick although somebody waited. */
  predicate Stretched(sig: Signal, idx: nat, start: real, dt: real, obs: seq<Observation>) {
    obs != []
    && (Stretched(sig, idx, start, dt, obs[..|obs| - 1])
        || (PastMinimum(sig, start, dt, obs) && SomebodyWaits(sig, idx, obs[|obs| - 1])))
  }

  /** A green as it is entered: its timers have not started. */
  predicate JustGreen(sig: Signal, s: State) {
    IsGreen(sig, s.idx) && s.t >= 0.0 && s.target.None? && s.gapTimer == 0.0 && s.maxTimerStart.None? && !s.extended
  }

  /** What a green entered as `s` has measured after the ticks `obs`, none of which ended it. */
  predicate Measured(sig: Signal, s: State, dt: real, obs: seq<Observation>, r: State) {
    && r.idx == s.idx && r.t == s.t + Times(dt, |obs|) && r.target.None?
    && r.gapTimer == Times(dt, QuietTicks(obs))
    && (r.maxTimerStart.Some? <==> WaitedTicks(sig, s.idx, obs) > 0)
    && (r.maxTimerStart.Some? ==> r.t - r.maxTimerStart.value == Times(dt, WaitedTicks(sig, s.idx, obs)))
    && r.gapOuts == s.gapOuts && r.maxOuts == s.maxOuts
    && r.restSeconds == s.restSeconds + Times(dt, RestTicks(sig, s.idx, s.t, dt, obs))
    && (r.extended <==> Stretched(sig, s.idx, s.t, dt, obs))
    && r.greensExtended == s.greensExtended + if r.extended then 1 else 0
  }

  /** The tick after `obs` ends the green for its gap: the minimum has run, somebody waits, and
      nobody has passed for the extension step. */
  predicate GapsOut(sig: Signal, s: State, dt: real, obs: seq<Observation>, now: Observation) {
    && PastMinimum(sig, s.t, dt, obs + [now]) && SomebodyWaits(sig, s.idx, now)
    && Times(dt, QuietTicks(obs + [now])) >= sig.settings.extensionStep
  }

  /** The tick ends the green at its maximum: traffic has not paused for the extension step, and
      the maximum has run since somebody first waited. */
  predicate MaxesOut(sig: Signal, s: State, dt: real, obs: seq<Observation>, now: Observation) {
    && PastMinimum(sig, s.t, dt, obs + [now]) && SomebodyWaits(sig, s.idx, now)
    && Times(dt, QuietTicks(obs + [now])) < sig.settings.extensionStep
    && Times(dt, WaitedTicks(sig, s.idx, obs + [now])) >= sig.settings.maxGreen
  }

  lemma OneMoreTick(sig: Signal, s: State, dt: real, obs: seq<Observation>, now: Observation)
    ensures var all := obs + [now];
            && Times(dt, |all|) == Times(dt, |obs|) + dt
            && QuietTicks(all) == (if now.passing > 0 then 0 else QuietTicks(obs) + 1)
            && WaitedTicks(sig, s.idx, all)
               == (if WaitedTicks(sig, s.idx, obs) > 0 || SomebodyWaits(sig, s.idx, now)
                   then WaitedTicks(sig, s.idx, obs) + 1 else 0)
            && RestTicks(sig, s.idx, s.t, dt, all)
               == RestTicks(sig, s.idx, s.t, dt, obs)
                  + (if PastMinimum(sig, s.t, dt, all) && !SomebodyWaits(sig, s.idx, now) && now.passing <= 0
                     then 1 else 0)
            && (Stretched(sig, s.idx, s.t, dt, all)
                <==> Stretched(sig, s.idx, s.t, dt, obs)
                     || (PastMinimum(sig, s.t, dt, all) && SomebodyWaits(sig, s.idx, now)))
  {
    hide SomebodyWaits;
    assert (obs + [now])[..|obs|] == obs;
  }

  /** One more tick of a green: it gaps out, maxes out, or measures on. */
  lemma MeasuresOn(sig: Signal, s: State, dt: real, obs: seq<Observation>, v: State, now: Observation)
    requires SignalOk(sig) && JustGreen(sig, s) && dt > 0.0 && Measured(sig, s, dt, obs, v) && Inv(sig, v)
    ensures var r := Step(sig, v, dt, now);
            if GapsOut(sig, s, dt, obs, now) then r.gapOuts == s.gapOuts + 1 && r.maxOuts == s.maxOuts
            else if MaxesOut(sig, s, dt, obs, now) then r.maxOuts == s.maxOuts + 1 && r.gapOuts == s.gapOuts
            else Measured(sig, s, dt, obs + [now], r)
  {
    hide QuietTicks, WaitedTicks, RestTicks, Stretched, SomebodyWaits, Waiting, Terminate, OtherGreens, SignalOk;
    OneMoreTick(sig, s, dt, obs, now);
    WaitsIffWaiting(sig, s.idx, now);
    TimesMono(dt, 0, |obs|);
    var waiting := Waiting(sig, s.idx, now);
    WaitingIsOther(sig, s.idx, now);
    if waiting != {} {
      var b := Clocked(v.(t := v.t + dt), dt, now, waiting);
      TerminateCounts(sig, b, GapOut, waiting);
      TerminateCounts(sig, b, MaxOut, waiting);
    }
  }

  lemma WaitingIsOther(sig: Signal, idx: nat, now: Observation)
    ensures Waiting(sig, idx, now) <= OtherGreens(sig, idx)
  {
  }

  lemma TerminateCounts(sig: Signal, s: State, reason: Reason, waiting: set<nat>)
    requires SignalOk(sig) && IsGreen(sig, s.idx) && waiting != {} && waiting <= OtherGreens(sig, s.idx)
    ensures var r := Terminate(sig, s, reason, waiting);
            && r.gapOuts == s.gapOuts + (if reason == GapOut then 1 else 0)
            && r.maxOuts == s.maxOuts + (if reason == MaxOut then 1 else 0)
  {
    hide OtherGreens, Nearest, Later;
  }

  lemma {:induction false} OneMoreInRun(sig: Signal, s: State, dt: real, obs: seq<Observation>, now: Observation)
    requires SignalOk(sig) && Inv(sig, s) && dt > 0.0
    ensures Inv(sig, Run(sig, s, dt, obs))
    ensures Run(sig, s, dt, obs + [now]) == Step(sig, Run(sig, s, dt, obs), dt, now)
    decreases |obs|
  {
    hide ClearOut, AdaptiveSpec.UpdateGreen, SignalOk;
    if obs != [] {
      StepKeepsInv(sig, s, dt, obs[0]);
      OneMoreInRun(sig, Step(sig, s, dt, obs[0]), dt, obs[1..], now);
      assert (obs + [now])[1..] == obs[1..] + [now];
    } else {
      assert (obs + [now])[1..] == [];
    }
  }

  /** Whatever is detected: while a green has not ended, its gap timer is the time since a
      vehicle last passed, and its max timer the time since somebody first waited. */
  lemma {:induction false} GreenMeasures(sig: Signal, s: State, dt: real, obs: seq<Observation>)
    requires SignalOk(sig) && Inv(sig, s) && JustGreen(sig, s) && dt > 0.0
    requires Decisions(Run(sig, s, dt, obs)) == Decisions(s)
    ensures Measured(sig, s, dt, obs, Run(sig, s, dt, obs))
    decreases |obs|
  {
    if obs != [] {
      var n := |obs| - 1;
      var before, v := obs[..n], Run(sig, s, dt, obs[..n]);
      assert obs == before + [obs[n]];
      OneMoreInRun(sig, s, dt, before, obs[n]);
      DecisionsGrow(sig, s, dt, before);
      DecisionsGrow(sig, v, dt, [obs[n]]);
      OneMoreInRun(sig, v, dt, [], obs[n]);
      GreenMeasures(sig, s, dt, before);
      hide Step, Inv, SignalOk, GapsOut, MaxesOut;
      MeasuresOn(sig, s, dt, before, v, obs[n]);
    }
  }

  /** The rule of termination, on the detections alone. A green that has not ended before ends
      at a tick exactly if somebody waits, the minimum has run, and either nobody has passed for
      the extension step, which counts as a gap-out, or the maximum has run since somebody first
      waited, which counts as a max-out. */
  lemma GreenEndsIff(sig: Signal, s: State, dt: real, obs: seq<Observation>, now: Observation)
    requires SignalOk(sig) && Inv(sig, s) && JustGreen(sig, s) && dt > 0.0
    requires Decisions(Run(sig, s, dt, obs)) == Decisions(s)
    ensures var r := Run(sig, s, dt, obs + [now]);
            && (r.gapOuts == s.gapOuts + 1 <==> GapsOut(sig, s, dt, obs, now))
            && (r.maxOuts == s.maxOuts + 1 <==> MaxesOut(sig, s, dt, obs, now))
            && (Decisions(r) == Decisions(s)
                <==> !GapsOut(sig, s, dt, obs, now) && !MaxesOut(sig, s, dt, obs, now))
            && (Decisions(r) == Decisions(s) ==> Measured(sig, s, dt, obs + [now], r))
  {
    GreenMeasures(sig, s, dt, obs);
    OneMoreInRun(sig, s, dt, obs, now);
    MeasuresOn(sig, s, dt, obs, Run(sig, s, dt, obs), now);
    hide Step, Inv, SignalOk, Run, QuietTicks, WaitedTicks, RestTicks, Stretched, SomebodyWaits;
  }

  /** Every green is entered with its timers not started: out of a clearance, or from another
      green of its stage. */
  lemma EntersJustGreen(sig: Signal, s: State, dt: real, now: Observation)
    requires SignalOk(sig) && Inv(sig, s) && dt > 0.0
    requires IsGreen(sig, Step(sig, s, dt, now).idx) && Step(sig, s, dt, now).idx != s.idx
    ensures JustGreen(sig, Step(sig, s, dt, now)) && Inv(sig, Step(sig, s, dt, now))
  {
    StepKeepsInv(sig, s, dt, now);
    if !IsGreen(sig, s.idx) {
      EntersFromClearance(sig, s.(t := s.t + dt));
    }
  }

  lemma {:induction false} EntersFromClearance(sig: Signal, s: State)
    requires SignalOk(sig) && Clearing(sig, s) && s.t >= 0.0 && IsGreen(sig, ClearOut(sig, s).idx)
    ensures JustGreen(sig, ClearOut(sig, s))
    decreases |StageAt(sig, s.idx).clearances| - Pos(sig, s)
  {
    if s.t >= sig.phases[s.idx].duration {
      var u := s.(t := s.t - sig.phases[s.idx].duration);
      HandOver(sig, u);
      if !IsGreen(sig, AfterClearance(sig, u).idx) {
        EntersFromClearance(sig, AfterClearance(sig, u));
      }
    }
  }

  /** The first green of a run is entered so as well, when the plan begins with one. */
  lemma BeginsJustGreen(sig: Signal)
    requires SignalOk(sig) && IsGreen(sig, 0)
    ensures JustGreen(sig, INITIAL) && Inv(sig, INITIAL)
  {
  }
}
