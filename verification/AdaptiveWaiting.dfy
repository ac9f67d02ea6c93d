/** Bounded waiting: how soon the adaptive signal serves a green that keeps being called. */
module AdaptiveWaiting {
  import opened RealMath
  import opened Phases
  import opened AdaptiveSpec
  import opened AdaptiveSafety

  /** Greens among the first `i` phases. */
  function Rank(phases: Plan, i: nat): nat
    requires i <= |phases|
  {
    if i == 0 then 0 else Rank(phases, i - 1) + if phases[i - 1].IsGreen() then 1 else 0
  }

  function Greens(phases: Plan): nat {
    Rank(phases, |phases|)
  }

  lemma {:induction false} RankMono(phases: Plan, i: nat, j: nat)
    requires i <= j <= |phases|
    ensures Rank(phases, i) <= Rank(phases, j)
    ensures i < j && phases[i].IsGreen() ==> Rank(phases, i) < Rank(phases, j)
    decreases j - i
  {
    if i < j {
      RankMono(phases, i + 1, j);
    }
  }

  /** Greens from `i` forward to `j` on the cyclic plan, not counting `i`. */
  function Ahead(phases: Plan, i: nat, j: nat): int
    requires i < |phases| && j < |phases|
  {
    var d := Rank(phases, j) - Rank(phases, i);
    if i <= j then d else d + Greens(phases)
  }

  /** Going to a green on the way to `j` uses up at least one of the greens ahead. */
  lemma AheadFalls(phases: Plan, i: nat, k: nat, j: nat)
    requires i < |phases| && k < |phases| && j < |phases| && i != k && i != j
    requires phases[i].IsGreen() && phases[j].IsGreen() && phases[k].IsGreen()
    requires Dist(i, k, |phases|) <= Dist(i, j, |phases|)
    ensures 0 <= Ahead(phases, k, j) < Ahead(phases, i, j) < Greens(phases)
    ensures Ahead(phases, k, j) == 0 ==> k == j
  {
    RankMono(phases, i, |phases|);
    RankMono(phases, j, |phases|);
    RankMono(phases, k, |phases|);
    if i < j { RankMono(phases, i, j); } else { RankMono(phases, j, i); }
    if i < k { RankMono(phases, i, k); } else { RankMono(phases, k, i); }
    if k < j { RankMono(phases, k, j); } else if j < k { RankMono(phases, j, k); }
  }

  // ---------------------------------------------------------------------
  // The time still to wait
  // ---------------------------------------------------------------------

  /** No stage's clearance is longer than `longest`. */
  ghost predicate LongestClearance(sig: Signal, longest: real)
    requires SignalOk(sig)
  {
    forall k :: 0 <= k < |sig.stages| ==> Clearance(sig, k) <= longest
  }

  /** One green and its clearance last at most this, in whole ticks. */
  function Turnaround(sig: Signal, longest: real, dt: real): real {
    sig.settings.maxGreen + longest + 2.0 * dt
  }

  /** An upper bound on the seconds until green `j` starts, if it is called all the time. */
  ghost function ToWait(sig: Signal, s: State, dt: real, longest: real, j: nat): real
    requires SignalOk(sig) && Inv(sig, s) && IsGreen(sig, j)
  {
    var per := Turnaround(sig, longest, dt);
    if IsGreen(sig, s.idx) then
      var left := dt + Max(0.0, sig.settings.maxGreen - (s.t - TimerStart(s)));
      left + longest + dt + Times(per, Max0(Ahead(sig.phases, s.idx, j) - 1))
    else
      Clearance(sig, sig.stageOf[s.idx]) - Cleared(sig, s) + dt
        + Times(per, Max0(Ahead(sig.phases, NextOr(sig, s, j), j)))
  }

  function Max0(i: int): nat {
    if i > 0 then i else 0
  }

  /** The green the state shows or is bound for, or `j` when it is bound for none. */
  function NextOr(sig: Signal, s: State, j: nat): (g: nat)
    requires IsGreen(sig, j)
    ensures IsGreen(sig, g)
  {
    if IsGreen(sig, NextGreen(sig, s)) then NextGreen(sig, s) else j
  }

  /** Green `j` is called at every tick at which another green is shown. */
  ghost predicate KeepsCalling(sig: Signal, s: State, dt: real, obs: seq<Observation>, j: nat)
    requires SignalOk(sig) && Inv(sig, s) && dt > 0.0
    decreases |obs|
  {
    obs == [] || (
      && (IsGreen(sig, s.idx) && s.idx != j ==> j in Waiting(sig, s.idx, obs[0]))
      && (StepKeepsInv(sig, s, dt, obs[0]); KeepsCalling(sig, Step(sig, s, dt, obs[0]), dt, obs[1..], j)))
  }

  /** Green `j` is shown within the run, after at most `ends` greens ended. */
  ghost predicate Starts(sig: Signal, s: State, dt: real, obs: seq<Observation>, j: nat, ends: int)
    requires SignalOk(sig) && Inv(sig, s) && dt > 0.0
    decreases |obs|
  {
    && ends >= 0
    && (s.idx == j
        || (obs != [] && (
              StepKeepsInv(sig, s, dt, obs[0]);
              var r := Step(sig, s, dt, obs[0]);
              Starts(sig, r, dt, obs[1..], j, ends - (Decisions(r) - Decisions(s))))))
  }

  /** Greens that may still end before `j`. */
  ghost function EndsLeft(sig: Signal, s: State, j: nat): int
    requires SignalOk(sig) && Inv(sig, s) && IsGreen(sig, j)
  {
    Ahead(sig.phases, NextOr(sig, s, j), j)
  }

  lemma LongestNonNegative(sig: Signal, longest: real)
    requires SignalOk(sig) && LongestClearance(sig, longest)
    ensures longest >= 0.0
  {
    ClearSecondsMono(sig, 0, 0, |sig.stages[0].clearances|);
    assert Clearance(sig, 0) <= longest;
  }

  /** A green that has just started has whole turnarounds ahead of it. */
  lemma FreshGreen(sig: Signal, s: State, dt: real, longest: real, j: nat)
    requires SignalOk(sig) && Inv(sig, s) && IsGreen(sig, s.idx) && IsGreen(sig, j) && s.idx != j
    requires s.maxTimerStart.None?
    ensures ToWait(sig, s, dt, longest, j) == Times(Turnaround(sig, longest, dt), Max0(Ahead(sig.phases, s.idx, j)))
  {
    AheadFalls(sig.phases, s.idx, j, j);
  }

  lemma GreenGoesOnCloser(sig: Signal, s: State, r: State, dt: real, waiting: set<nat>, longest: real, j: nat)
    requires SignalOk(sig) && Inv(sig, s) && Inv(sig, r) && dt > 0.0 && IsGreen(sig, j)
    requires LongestClearance(sig, longest)
    requires IsGreen(sig, s.idx) && s.idx != j && waiting != {} && GoesOn(sig, s, r, dt, waiting)
    ensures Closer(sig, s, r, dt, longest, j)
  {
    AheadFalls(sig.phases, s.idx, j, j);
    ToWaitPositive(sig, s, dt, longest, j);
  }

  lemma GreenEndsCloser(sig: Signal, s: State, r: State, dt: real, waiting: set<nat>, longest: real, j: nat)
    requires SignalOk(sig) && Inv(sig, s) && Inv(sig, r) && dt > 0.0 && IsGreen(sig, j)
    requires LongestClearance(sig, longest)
    requires IsGreen(sig, s.idx) && s.idx != j && j in waiting && waiting <= OtherGreens(sig, s.idx)
    requires HandsOver(sig, s, r, waiting)
    ensures Closer(sig, s, r, dt, longest, j)
  {
    var k, per := NextGreen(sig, r), Turnaround(sig, longest, dt);
    assert k in OtherGreens(sig, s.idx);
    LongestNonNegative(sig, longest);
    ToWaitPositive(sig, s, dt, longest, j);
    AheadFalls(sig.phases, s.idx, k, j);
    TimesMono(per, Ahead(sig.phases, k, j), Ahead(sig.phases, s.idx, j) - 1);
    if IsGreen(sig, r.idx) {
      if r.idx != j {
        FreshGreen(sig, r, dt, longest, j);
      }
    } else {
      assert Clearance(sig, sig.stageOf[r.idx]) <= longest;
      assert Cleared(sig, r) == 0.0;
    }
  }

  lemma GreenTickCloser(sig: Signal, s: State, dt: real, obs: Observation, longest: real, j: nat)
    requires SignalOk(sig) && Inv(sig, s) && dt > 0.0 && IsGreen(sig, j) && LongestClearance(sig, longest)
    requires IsGreen(sig, s.idx) && s.idx != j && j in Waiting(sig, s.idx, obs)
    ensures Closer(sig, s, Step(sig, s, dt, obs), dt, longest, j)
  {
    StepKeepsInv(sig, s, dt, obs);
    GreenTick(sig, s, dt, obs);
    var r, waiting := Step(sig, s, dt, obs), Waiting(sig, s.idx, obs);
    if Decisions(r) == Decisions(s) {
      GreenGoesOnCloser(sig, s, r, dt, waiting, longest, j);
    } else {
      GreenEndsCloser(sig, s, r, dt, waiting, longest, j);
    }
  }

  lemma ClearingTickCloser(sig: Signal, s: State, dt: real, obs: Observation, longest: real, j: nat)
    requires SignalOk(sig) && Inv(sig, s) && dt > 0.0 && IsGreen(sig, j) && LongestClearance(sig, longest)
    requires !IsGreen(sig, s.idx) && s.target.Some?
    ensures Closer(sig, s, Step(sig, s, dt, obs), dt, longest, j)
  {
    hide ClearOut, UpdateGreen, Rank, IndexOf;
    StepKeepsInv(sig, s, dt, obs);
    var r, u, per := Step(sig, s, dt, obs), s.(t := s.t + dt), Turnaround(sig, longest, dt);
    LongestNonNegative(sig, longest);
    ClearOutKeepsTime(sig, u);
    ClearOutDecides(sig, u);
    TimesMono(per, 0, Max0(Ahead(sig.phases, s.target.value, j)));
    ClearSecondsMono(sig, sig.stageOf[s.idx], Pos(sig, s) + 1, |StageAt(sig, s.idx).clearances|);
    if s.target.value != j {
      AheadFalls(sig.phases, s.target.value, j, j);
      if IsGreen(sig, r.idx) {
        FreshGreen(sig, r, dt, longest, j);
      }
    }
  }

  lemma TickCloser(sig: Signal, s: State, dt: real, obs: Observation, longest: real, j: nat)
    requires SignalOk(sig) && Inv(sig, s) && dt > 0.0 && IsGreen(sig, j) && LongestClearance(sig, longest)
    requires s.idx != j && (IsGreen(sig, s.idx) || s.target.Some?)
    requires IsGreen(sig, s.idx) ==> j in Waiting(sig, s.idx, obs)
    ensures Closer(sig, s, Step(sig, s, dt, obs), dt, longest, j)
  {
    if IsGreen(sig, s.idx) {
      GreenTickCloser(sig, s, dt, obs, longest, j);
    } else {
      ClearingTickCloser(sig, s, dt, obs, longest, j);
    }
  }

  /** The tick from `s` to `r` brings green `j` one tick nearer, and every green that ends
      leaves fewer greens ahead. */
  ghost predicate Closer(sig: Signal, s: State, r: State, dt: real, longest: real, j: nat)
    requires SignalOk(sig) && Inv(sig, s) && IsGreen(sig, j)
  {
    && Inv(sig, r) && (IsGreen(sig, r.idx) || r.target.Some?)
    && ToWait(sig, s, dt, longest, j) > 0.0
    && (r.idx != j ==> ToWait(sig, r, dt, longest, j) <= ToWait(sig, s, dt, longest, j) - dt)
    && 0 <= EndsLeft(sig, r, j) <= EndsLeft(sig, s, j) - (Decisions(r) - Decisions(s))
  }

  /** Over a run long enough for `ToWait`, green `j` starts. */
  lemma {:induction false} StartsInTime(sig: Signal, s: State, dt: real, obs: seq<Observation>, longest: real, j: nat)
    requires SignalOk(sig) && Inv(sig, s) && dt > 0.0 && IsGreen(sig, j) && LongestClearance(sig, longest)
    requires IsGreen(sig, s.idx) || s.target.Some?
    requires KeepsCalling(sig, s, dt, obs, j) && EndsLeft(sig, s, j) >= 0
    requires s.idx != j ==> ToWait(sig, s, dt, longest, j) <= Times(dt, |obs|)
    ensures Starts(sig, s, dt, obs, j, EndsLeft(sig, s, j))
    decreases |obs|
  {
    hide Step, Ahead, NextOr, Rank;
    if s.idx != j {
      if obs == [] {
        ToWaitPositive(sig, s, dt, longest, j);
      } else {
        StepKeepsInv(sig, s, dt, obs[0]);
        var r := Step(sig, s, dt, obs[0]);
        TickCloser(sig, s, dt, obs[0], longest, j);
        StartsInTime(sig, r, dt, obs[1..], longest, j);
        StartsMono(sig, r, dt, obs[1..], j, EndsLeft(sig, r, j), EndsLeft(sig, s, j) - (Decisions(r) - Decisions(s)));
      }
    }
  }

  lemma ToWaitPositive(sig: Signal, s: State, dt: real, longest: real, j: nat)
    requires SignalOk(sig) && Inv(sig, s) && dt > 0.0 && IsGreen(sig, j) && LongestClearance(sig, longest)
    ensures ToWait(sig, s, dt, longest, j) > 0.0
  {
    LongestNonNegative(sig, longest);
    var per := Turnaround(sig, longest, dt);
    if IsGreen(sig, s.idx) {
      TimesMono(per, 0, Max0(Ahead(sig.phases, s.idx, j) - 1));
    } else {
      TimesMono(per, 0, Max0(Ahead(sig.phases, NextOr(sig, s, j), j)));
      ClearSecondsMono(sig, sig.stageOf[s.idx], Pos(sig, s) + 1, |StageAt(sig, s.idx).clearances|);
    }
  }

  lemma {:induction false} StartsMono(sig: Signal, s: State, dt: real, obs: seq<Observation>, j: nat, a: int, b: int)
    requires SignalOk(sig) && Inv(sig, s) && dt > 0.0 && a <= b
    requires Starts(sig, s, dt, obs, j, a)
    ensures Starts(sig, s, dt, obs, j, b)
    decreases |obs|
  {
    if s.idx != j {
      StepKeepsInv(sig, s, dt, obs[0]);
      var r := Step(sig, s, dt, obs[0]);
      var d := Decisions(r) - Decisions(s);
      StartsMono(sig, r, dt, obs[1..], j, a - d, b - d);
    }
  }

  lemma ToWaitAtMost(sig: Signal, s: State, dt: real, longest: real, j: nat)
    requires SignalOk(sig) && Inv(sig, s) && dt > 0.0 && LongestClearance(sig, longest)
    requires IsGreen(sig, s.idx) && IsGreen(sig, j) && s.idx != j
    ensures 0 <= EndsLeft(sig, s, j) <= Greens(sig.phases) - 1
    ensures ToWait(sig, s, dt, longest, j) <= Times(Turnaround(sig, longest, dt), Greens(sig.phases) - 1)
  {
    var per, ahead := Turnaround(sig, longest, dt), Ahead(sig.phases, s.idx, j);
    AheadFalls(sig.phases, s.idx, j, j);
    LongestNonNegative(sig, longest);
    TimesMono(per, ahead, Greens(sig.phases) - 1);
    assert Times(per, ahead) == Times(per, ahead - 1) + per;
  }

  lemma BoundedWaitInTicks(sig: Signal, s: State, dt: real, obs: seq<Observation>, longest: real, j: nat)
    requires SignalOk(sig) && Inv(sig, s) && dt > 0.0 && IsGreen(sig, s.idx) && IsGreen(sig, j)
    requires LongestClearance(sig, longest) && KeepsCalling(sig, s, dt, obs, j)
    requires Times(Turnaround(sig, longest, dt), Max0(Greens(sig.phases) - 1)) <= Times(dt, |obs|)
    ensures Starts(sig, s, dt, obs, j, Greens(sig.phases) - 1)
  {
    RankMono(sig.phases, j, |sig.phases|);
    if s.idx != j {
      ToWaitAtMost(sig, s, dt, longest, j);
      StartsInTime(sig, s, dt, obs, longest, j);
      StartsMono(sig, s, dt, obs, j, EndsLeft(sig, s, j), Greens(sig.phases) - 1);
    }
  }

  /** Bounded wait. From any green, if green `j` is called at every tick at which another green
      is shown, then `j` starts after at most `G - 1` greens have ended and within
      `(G - 1) * (maxGreen + longest clearance + 2*dt)` seconds, whatever else is detected. */
  lemma BoundedWait(sig: Signal, s: State, dt: real, obs: seq<Observation>, longest: real, j: nat)
    requires SignalOk(sig) && Inv(sig, s) && dt > 0.0 && IsGreen(sig, s.idx) && IsGreen(sig, j)
    requires LongestClearance(sig, longest) && KeepsCalling(sig, s, dt, obs, j)
    requires Turnaround(sig, longest, dt) * ((Greens(sig.phases) - 1) as real) <= dt * (|obs| as real)
    ensures Starts(sig, s, dt, obs, j, Greens(sig.phases) - 1)
  {
    hide SignalOk, Inv, KeepsCalling, Starts, LongestClearance;
    var g := Max0(Greens(sig.phases) - 1);
    RankMono(sig.phases, j, |sig.phases|);
    assert g == Greens(sig.phases) - 1;
    TimesIsProduct(dt, |obs|);
    TimesIsProduct(Turnaround(sig, longest, dt), g);
    BoundedWaitInTicks(sig, s, dt, obs, longest, j);
  }
}
