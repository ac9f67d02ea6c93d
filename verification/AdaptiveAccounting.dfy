/** The exact accounting of the adaptive signal: cycles, greens started and greens skipped. */
module AdaptiveAccounting {
  import opened Phases
  import opened Stages
  import opened AdaptiveSpec
  import opened AdaptiveSafety
  import opened AdaptiveWaiting

  /** A plan that begins with a green and ends with a clearance, so that no stage wraps. */
  predicate BeginsGreen(sig: Signal) {
    && |sig.phases| > 0 && sig.phases[0].IsGreen() && !sig.phases[|sig.phases| - 1].IsGreen()
  }

  function StageEnd(sig: Signal, starts: seq<nat>, k: nat): nat
    requires k < |starts|
  {
    if k + 1 < |starts| then starts[k + 1] else |sig.phases|
  }

  /** Stage `k` occupies consecutive plan indices, greens first. */
  ghost predicate StraightStage(sig: Signal, starts: seq<nat>, k: nat)
    requires k < |starts| == |sig.stages|
  {
    var greens, clearances, end := sig.stages[k].greens, sig.stages[k].clearances, StageEnd(sig, starts, k);
    && greens != []
    && starts[k] + |greens| < end <= |sig.phases|
    && (forall x :: 0 <= x < |greens| ==> greens[x] == starts[k] + x)
    && (forall y :: 0 <= y < |clearances| ==> starts[k] + |greens| <= clearances[y] < end)
    && (forall i :: starts[k] <= i <= starts[k] + |greens| ==>
          Rank(sig.phases, i) == Rank(sig.phases, starts[k]) + i - starts[k])
    && Rank(sig.phases, end) == Rank(sig.phases, starts[k]) + |greens|
  }

  ghost predicate Straight(sig: Signal, starts: seq<nat>) {
    && |starts| == |sig.stages| > 0 && starts[0] == 0
    && (forall j, k :: 0 <= j < k < |starts| ==> starts[j] < starts[k])
    && forall k :: 0 <= k < |starts| ==> StraightStage(sig, starts, k)
  }

  lemma {:induction false} RankOfRun(phases: Plan, a: nat, b: nat, green: bool)
    requires a <= b <= |phases|
    requires forall i :: a <= i < b ==> phases[i].IsGreen() == green
    ensures Rank(phases, b) == Rank(phases, a) + if green then b - a else 0
    decreases b
  {
    if a < b {
      RankOfRun(phases, a, b - 1, green);
    }
  }

  lemma StageIsStraight(sig: Signal, starts: seq<nat>, k: nat)
    requires IsSplitAt(sig.phases, starts, sig.stages) && starts[0] == 0 && k < |starts|
    ensures StraightStage(sig, starts, k)
  {
    var phases, st := sig.phases, sig.stages[k];
    assert IsStage(phases, starts, k, st);
    var m, end := starts[k] + |st.greens|, StageEnd(sig, starts, k);
    assert end == End(starts, k, |phases|) && end <= |phases|;
    forall i | starts[k] <= i < m
      ensures phases[i].IsGreen()
    {
      assert st.greens[i - starts[k]] == i;
    }
    forall i | starts[k] <= i <= m
      ensures Rank(phases, i) == Rank(phases, starts[k]) + i - starts[k]
    {
      RankOfRun(phases, starts[k], i, true);
    }
    forall i | m <= i < end
      ensures !phases[i].IsGreen()
    {
      assert st.clearances[i - m] == i;
    }
    RankOfRun(phases, m, end, false);
  }

  lemma FirstIsLeast(starts: seq<nat>, x: nat)
    requires x < |starts| && forall j, k :: 0 <= j < k < |starts| ==> starts[j] < starts[k]
    ensures starts[0] <= starts[x]
  {
  }

  lemma StraightPlan(sig: Signal) returns (starts: seq<nat>)
    requires WellCut(sig) && BeginsGreen(sig)
    ensures Straight(sig, starts)
  {
    starts :| IsSplitAt(sig.phases, starts, sig.stages);
    assert StartsStage(sig.phases, 0);
    var x :| 0 <= x < |starts| && starts[x] == 0;
    FirstIsLeast(starts, x);
    forall k | 0 <= k < |starts|
      ensures StraightStage(sig, starts, k)
    {
      StageIsStraight(sig, starts, k);
    }
  }

  // ---------------------------------------------------------------------
  // The law
  // ---------------------------------------------------------------------

  /** The rank of the green shown, or of the last green of the stage being cleared. */
  function RankOf(sig: Signal, s: State): nat
    requires SignalOk(sig) && s.idx < |sig.phases|
  {
    if IsGreen(sig, s.idx) then Rank(sig.phases, s.idx)
    else
      assert StageOk(sig, sig.stageOf[s.idx]);
      var greens := StageAt(sig, s.idx).greens;
      Rank(sig.phases, greens[|greens| - 1])
  }

  /** Greens passed since the start are greens started or skipped, and every decision started
      a green or has one pending. */
  ghost predicate Law(sig: Signal, s: State)
    requires SignalOk(sig) && s.idx < |sig.phases|
  {
    && Greens(sig.phases) * s.cycle + RankOf(sig, s) == s.greensStarted - 1 + s.phasesSkipped
    && s.greensStarted + (if s.target.Some? then 1 else 0) == 1 + Decisions(s)
    && (s.target.Some? <==> !IsGreen(sig, s.idx))
  }

  /** The rank at the start of stage `k`. */
  function StartRank(sig: Signal, starts: seq<nat>, k: nat): nat
    requires k < |starts|
  {
    if starts[k] <= |sig.phases| then Rank(sig.phases, starts[k]) else 0
  }

  lemma {:induction false} StagesPassedRank(sig: Signal, starts: seq<nat>, s: nat, last: nat)
    requires Straight(sig, starts) && s < |starts| && last < |starts|
    ensures StagesPassed(sig.stages, s, last)
            == StartRank(sig, starts, last) - StartRank(sig, starts, s) + if s <= last then 0 else Greens(sig.phases)
    decreases if s <= last then last - s else last + |starts| - s
  {
    if s != last {
      assert StraightStage(sig, starts, s);
      StagesPassedRank(sig, starts, Next(s, |starts|), last);
    }
  }

  /** In a straight stage the greens after position `x` are the tail of the list. */
  lemma {:induction false} LaterIsTail(greens: seq<nat>, start: nat, x: nat)
    requires forall y :: 0 <= y < |greens| ==> greens[y] == start + y
    ensures Later(greens, start + x) == if x < |greens| then greens[x + 1..] else []
    decreases |greens|
  {
    if greens != [] {
      var front := greens[..|greens| - 1];
      LaterIsTail(front, start, x);
      if x < |front| {
        assert front[x + 1..] + [greens[|greens| - 1]] == greens[x + 1..];
      }
    }
  }

  lemma {:induction false} IndexInRun(s: seq<nat>, start: nat, y: nat)
    requires y < |s| && forall z :: 0 <= z < |s| ==> s[z] == start + z
    ensures s[y] in s && IndexOf(s, s[y]) == y
  {
    assert s[IndexOf(s, s[y])] == s[y];
  }

  /** Ranks and list positions inside one stage, for a green `i` of it. */
  lemma StageRanks(sig: Signal, starts: seq<nat>, k: nat, i: nat)
    requires k < |starts| == |sig.stages| && StraightStage(sig, starts, k) && i in sig.stages[k].greens
    ensures var greens := sig.stages[k].greens;
            && starts[k] <= i < starts[k] + |greens| && starts[k] + |greens| <= |sig.phases|
            && Rank(sig.phases, i) == StartRank(sig, starts, k) + i - starts[k]
            && greens[|greens| - 1] == starts[k] + |greens| - 1
            && |Later(greens, i)| == starts[k] + |greens| - 1 - i
  {
    hide Later;
    var greens := sig.stages[k].greens;
    PlaceInRun(greens, starts[k], i);
    LaterIsTail(greens, starts[k], i - starts[k]);
    assert greens[i - starts[k]] == i;
  }

  lemma TailIndex(greens: seq<nat>, start: nat, x: nat, y: nat)
    requires x < y < |greens| && forall z :: 0 <= z < |greens| ==> greens[z] == start + z
    ensures greens[y] in greens[x + 1..] && IndexOf(greens[x + 1..], greens[y]) == y - x - 1
  {
    var tail := greens[x + 1..];
    assert tail[y - x - 1] == greens[y];
    IndexInRun(tail, start + x + 1, y - x - 1);
  }

  lemma LaterIndexInRun(greens: seq<nat>, start: nat, x: nat, y: nat)
    requires x < y < |greens| && forall z :: 0 <= z < |greens| ==> greens[z] == start + z
    ensures start + y in Later(greens, start + x) && IndexOf(Later(greens, start + x), start + y) == y - x - 1
  {
    hide Later, IndexOf;
    LaterIsTail(greens, start, x);
    TailIndex(greens, start, x, y);
  }

  lemma PlaceInRun(s: seq<nat>, start: nat, i: nat)
    requires i in s && forall z :: 0 <= z < |s| ==> s[z] == start + z
    ensures start <= i < start + |s|
  {
  }

  lemma LaterIndex(sig: Signal, starts: seq<nat>, k: nat, i: nat, j: nat)
    requires k < |starts| == |sig.stages| && StraightStage(sig, starts, k)
    requires i in sig.stages[k].greens && j in sig.stages[k].greens && i < j
    ensures j in Later(sig.stages[k].greens, i) && IndexOf(Later(sig.stages[k].greens, i), j) == j - i - 1
  {
    hide Later, IndexOf;
    var greens := sig.stages[k].greens;
    PlaceInRun(greens, starts[k], i);
    PlaceInRun(greens, starts[k], j);
    LaterIndexInRun(greens, starts[k], i - starts[k], j - starts[k]);
  }

  /** How many greens a termination skips: those between the ended green and the target if
      the target lies further on in the stage, else the rest of the stage. */
  lemma TerminateSkips(sig: Signal, starts: seq<nat>, s: State, reason: Reason, waiting: set<nat>)
    requires SignalOk(sig) && Straight(sig, starts)
    requires IsGreen(sig, s.idx) && waiting != {} && waiting <= OtherGreens(sig, s.idx)
    requires s.target.None? && s.maxTimerStart.Some? && s.maxTimerStart.value >= 0.0
    ensures var r := Terminate(sig, s, reason, waiting);
            && r.idx < |sig.phases|
            && RankOf(sig, r) - RankOf(sig, s)
               == r.phasesSkipped - s.phasesSkipped + if IsGreen(sig, r.idx) then 1 else 0
  {
    var k := sig.stageOf[s.idx];
    TerminateHandsOver(sig, s, reason, waiting);
    var r := Terminate(sig, s, reason, waiting);
    assert InItsStage(sig, s.idx) && StraightStage(sig, starts, k);
    hide Straight;
    StageRanks(sig, starts, k, s.idx);
    StageRanks(sig, starts, k, sig.stages[k].greens[|sig.stages[k].greens| - 1]);
    if IsGreen(sig, r.idx) {
      StageRanks(sig, starts, k, r.idx);
      LaterIndex(sig, starts, k, s.idx, r.idx);
    }
  }

  lemma TerminateKeepsLaw(sig: Signal, starts: seq<nat>, s: State, reason: Reason, waiting: set<nat>)
    requires SignalOk(sig) && Straight(sig, starts)
    requires IsGreen(sig, s.idx) && waiting != {} && waiting <= OtherGreens(sig, s.idx)
    requires Law(sig, s) && s.maxTimerStart.Some? && s.maxTimerStart.value >= 0.0
    ensures Terminate(sig, s, reason, waiting).idx < |sig.phases| && Law(sig, Terminate(sig, s, reason, waiting))
  {
    TerminateSkips(sig, starts, s, reason, waiting);
    TerminateHandsOver(sig, s, reason, waiting);
  }

  /** The greens from the end of stage `k` forward to green `j` of stage `l`. */
  lemma PassedGreens(sig: Signal, starts: seq<nat>, k: nat, l: nat, j: nat)
    requires Straight(sig, starts) && k < |starts| && l < |starts| && j in sig.stages[l].greens && j < |sig.phases|
    ensures StagesPassed(sig.stages, Next(k, |starts|), l) + IndexOf(sig.stages[l].greens, j)
            == Rank(sig.phases, j) - StartRank(sig, starts, k) - |sig.stages[k].greens|
               + if l <= k then Greens(sig.phases) else 0
  {
    assert StraightStage(sig, starts, k) && StraightStage(sig, starts, l);
    StageRanks(sig, starts, l, j);
    IndexInRun(sig.stages[l].greens, starts[l], j - starts[l]);
    StagesPassedRank(sig, starts, Next(k, |starts|), l);
  }

  /** The hand-over wraps past the plan's end exactly when its stage is not before the target's. */
  lemma WrapsPast(sig: Signal, starts: seq<nat>, k: nat, l: nat, i: nat, j: nat)
    requires Straight(sig, starts) && k < |starts| && l < |starts|
    requires i in sig.stages[k].clearances && j in sig.stages[l].greens
    ensures j <= i <==> l <= k
  {
    assert StraightStage(sig, starts, k) && StraightStage(sig, starts, l);
    StageOrder(sig, starts, k, l);
  }

  /** A hand-over into a green passes exactly the greens it counts as skipped, and one more. */
  lemma HandOverSkips(sig: Signal, starts: seq<nat>, s: State)
    requires SignalOk(sig) && Straight(sig, starts) && Clearing(sig, s)
    requires IsGreen(sig, AfterClearance(sig, s).idx)
    ensures var r := AfterClearance(sig, s);
            && RankOf(sig, r) - RankOf(sig, s) + (if r.cycle > s.cycle then Greens(sig.phases) else 0)
               == 1 + r.phasesSkipped - s.phasesSkipped
            && s.cycle <= r.cycle <= s.cycle + 1
  {
    HandOver(sig, s);
    var r := AfterClearance(sig, s);
    var k, l := sig.stageOf[s.idx], sig.stageOf[r.idx];
    assert InItsStage(sig, s.idx) && InItsStage(sig, r.idx) && StageOk(sig, k) && StraightStage(sig, starts, k);
    StageRanks(sig, starts, k, sig.stages[k].greens[|sig.stages[k].greens| - 1]);
    PassedGreens(sig, starts, k, l, r.idx);
    WrapsPast(sig, starts, k, l, s.idx, r.idx);
  }

  lemma StageOrder(sig: Signal, starts: seq<nat>, k: nat, l: nat)
    requires Straight(sig, starts) && k < |starts| && l < |starts|
    ensures k < l ==> StageEnd(sig, starts, k) <= starts[l]
    ensures l < k ==> StageEnd(sig, starts, l) <= starts[k]
  {
    assert k + 1 < l ==> starts[k + 1] < starts[l];
    assert l + 1 < k ==> starts[l + 1] < starts[k];
  }

  lemma AfterClearanceKeepsLaw(sig: Signal, starts: seq<nat>, s: State)
    requires SignalOk(sig) && Straight(sig, starts)
    requires Clearing(sig, s) && s.target.Some? && Law(sig, s)
    ensures AfterClearance(sig, s).idx < |sig.phases| && Law(sig, AfterClearance(sig, s))
  {
    HandOver(sig, s);
    var r := AfterClearance(sig, s);
    if IsGreen(sig, r.idx) {
      HandOverSkips(sig, starts, s);
      CycleArithmetic(Greens(sig.phases), s.cycle, r.cycle, RankOf(sig, s), RankOf(sig, r),
                      s.greensStarted - 1 + s.phasesSkipped, s.greensStarted + r.phasesSkipped);
    }
  }

  lemma CycleArithmetic(g: nat, c: nat, d: nat, rankC: int, rankD: int, passedC: int, passedD: int)
    requires c <= d <= c + 1 && g * c + rankC == passedC
    requires rankD - rankC + (if d > c then g else 0) == passedD - passedC
    ensures g * d + rankD == passedD
  {
    if d > c {
      assert g * d == g * c + g;
    } else {
      assert d == c;
    }
  }

  lemma {:induction false} ClearOutKeepsLaw(sig: Signal, starts: seq<nat>, s: State)
    requires SignalOk(sig) && Straight(sig, starts)
    requires Clearing(sig, s) && s.target.Some? && Law(sig, s)
    ensures ClearOut(sig, s).idx < |sig.phases| && Law(sig, ClearOut(sig, s))
    decreases |StageAt(sig, s.idx).clearances| - Pos(sig, s)
  {
    hide AfterClearance, IndexOf;
    if s.t >= sig.phases[s.idx].duration {
      var u := s.(t := s.t - sig.phases[s.idx].duration);
      assert Law(sig, u);
      HandOver(sig, u);
      AfterClearanceKeepsLaw(sig, starts, u);
      if !IsGreen(sig, AfterClearance(sig, u).idx) {
        ClearOutKeepsLaw(sig, starts, AfterClearance(sig, u));
      }
    }
  }

  lemma StepKeepsLaw(sig: Signal, starts: seq<nat>, s: State, dt: real, obs: Observation)
    requires SignalOk(sig) && Straight(sig, starts) && Inv(sig, s) && dt > 0.0 && Law(sig, s)
    ensures Step(sig, s, dt, obs).idx < |sig.phases| && Law(sig, Step(sig, s, dt, obs))
  {
    hide Straight, Terminate, ClearOut, OtherGreens;
    var u := s.(t := s.t + dt);
    assert Law(sig, u);
    if IsGreen(sig, s.idx) {
      var waiting := Waiting(sig, s.idx, obs);
      var b := Clocked(u, dt, obs, waiting);
      assert Law(sig, b);
      var reason := EndReason(sig, b, waiting);
      if reason.Some? {
        TerminateKeepsLaw(sig, starts, b, reason.value, waiting);
      }
    } else {
      ClearOutKeepsLaw(sig, starts, u);
    }
  }

  lemma {:induction false} RunKeepsLaw(sig: Signal, starts: seq<nat>, s: State, dt: real, obs: seq<Observation>)
    requires SignalOk(sig) && Straight(sig, starts) && Inv(sig, s) && dt > 0.0 && Law(sig, s)
    ensures var r := Run(sig, s, dt, obs); r.idx < |sig.phases| && Law(sig, r)
    decreases |obs|
  {
    if obs != [] {
      StepKeepsInv(sig, s, dt, obs[0]);
      StepKeepsLaw(sig, starts, s, dt, obs[0]);
      RunKeepsLaw(sig, starts, Step(sig, s, dt, obs[0]), dt, obs[1..]);
    }
  }

  /** The accounting law holds in every state any run from reset reaches. */
  lemma AccountingLaw(sig: Signal, dt: real, obs: seq<Observation>)
    requires SignalOk(sig) && WellCut(sig) && BeginsGreen(sig) && dt > 0.0
    ensures Inv(sig, INITIAL)
    ensures var r := Run(sig, INITIAL, dt, obs); r.idx < |sig.phases| && Law(sig, r)
  {
    InitialInv(sig);
    var starts := StraightPlan(sig);
    RunKeepsLaw(sig, starts, INITIAL, dt, obs);
  }
}
