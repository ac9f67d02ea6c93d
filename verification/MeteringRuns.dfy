/** Runs of the metered roundabout, seen by one arm: budgets, starvation and the lamps. */
module MeteringRuns {
  import opened Options
  import opened RealMath
  import opened Phases
  import opened MeteringCursor
  import opened MeteringControl
  import opened EntryGate

  /** What one arm's history depends on: the cursor, the arm's guard record, and the cycle the
      guard last saw. */
  datatype View = View(c: Cursor, arm: ArmGuard, last: nat)

  /** The cursor after a tick: it advances, then the queue cap may cut the shown green. */
  ghost function TickCursor(plan: MeteringPlan, c: Cursor, dt: real, queues: map<Direction, nat>): (r: Cursor)
    requires PlanOk(plan) && Settled(plan.phases, c) && dt >= 0.0
    ensures Settled(plan.phases, r)
  {
    AfterCap(plan, Advanced(plan.phases, c, dt), queues)
  }

  /** One controller tick as arm `d` sees it: advance, cap, then guard. */
  ghost function Tick(plan: MeteringPlan, d: Direction, dt: real, v: View,
                      queues: map<Direction, nat>, stopped: map<Direction, nat>): View
    requires PlanOk(plan) && Settled(plan.phases, v.c) && dt >= 0.0
  {
    var c := TickCursor(plan, v.c, dt, queues);
    View(c, ArmStep(plan, v.arm, c.cycle != v.last, Blocked(plan, c, stopped, d), dt),
         if plan.guard.enabled then c.cycle else v.last)
  }

  /** Which arms a tick holds. */
  lemma HoldRule(plan: MeteringPlan, d: Direction, dt: real, v: View, queues: map<Direction, nat>,
                 stopped: map<Direction, nat>)
    requires PlanOk(plan) && Settled(plan.phases, v.c) && dt >= 0.0
    ensures var w := Tick(plan, d, dt, v, queues, stopped);
            w.arm.held <==>
              && plan.guard.enabled && d in plan.metered && d in plan.phases[w.c.idx].directions
              && plan.phases[w.c.idx].color == Green
              && (if d in stopped then stopped[d] else 0) >= plan.guard.stoppedThreshold
              && (if w.c.cycle != v.last then 0.0 else v.arm.cycleHold) < plan.guard.maxHold
  {
    hide ArmStep, Blocked;
    var c := TickCursor(plan, v.c, dt, queues);
    if plan.guard.enabled {
      GuardRule(plan, v.arm, c.cycle != v.last, c, stopped, d, dt);
    } else {
      DisabledHoldsNone(plan, v.arm, c.cycle != v.last, Blocked(plan, c, stopped, d), dt);
    }
  }

  lemma DisabledHoldsNone(plan: MeteringPlan, a: ArmGuard, newCycle: bool, blocked: bool, dt: real)
    requires !plan.guard.enabled
    ensures !ArmStep(plan, a, newCycle, blocked, dt).held
  {
  }

  /** Only metered arms whose signal is green are held. */
  predicate HoldOk(plan: MeteringPlan, c: Cursor, holds: set<Direction>)
    requires c.idx < |plan.phases|
  {
    forall d :: d in holds ==> d in plan.metered && ColorOf(plan, c, d) == Green
  }

  /** The reported colour of an arm: its signal, or red while it is held. */
  function Lamp(plan: MeteringPlan, c: Cursor, holds: set<Direction>, d: Direction): Color
    requires c.idx < |plan.phases|
  {
    if d in holds then Red else ColorOf(plan, c, d)
  }

  /** An arm is closed at the gate exactly when its lamp is not green, whatever the reason. */
  lemma LampAgreesWithGate(plan: MeteringPlan, c: Cursor, holds: set<Direction>, d: Direction)
    requires c.idx < |plan.phases| && HoldOk(plan, c, holds)
    ensures ArmReason(plan, holds, c, d).None? <==> Lamp(plan, c, holds, d) == Green
    ensures ArmReason(plan, holds, c, d) == Some(YellowLight) <==> Lamp(plan, c, holds, d) == Yellow
  {
    assert d in holds ==> d in plan.metered;
  }

  // ---------------------------------------------------------------------
  // The hold budget
  // ---------------------------------------------------------------------

  /** The per-cycle hold is within its budget, and the total within one budget a cycle begun. */
  ghost predicate BudgetOk(plan: MeteringPlan, v: View) {
    && v.last <= v.c.cycle
    && 0.0 <= v.arm.cycleHold <= plan.guard.maxHold
    && v.arm.cumulativeHold <= Times(plan.guard.maxHold, v.last) + v.arm.cycleHold
    && (v.arm.exhausted ==> v.arm.cycleHold == plan.guard.maxHold)
  }

  lemma TickCursorCycle(plan: MeteringPlan, c: Cursor, dt: real, queues: map<Direction, nat>)
    requires PlanOk(plan) && Settled(plan.phases, c) && dt >= 0.0
    ensures TickCursor(plan, c, dt, queues).cycle >= c.cycle
  {
    CyclesNeverFall(plan.phases, c, dt);
  }

  /** Every tick keeps the budget, so in every reachable state the cycle's hold is at most
      `maxHold` and the total at most `(cycle + 1) * maxHold`. */
  lemma TickKeepsBudget(plan: MeteringPlan, d: Direction, dt: real, v: View,
                        queues: map<Direction, nat>, stopped: map<Direction, nat>)
    requires PlanOk(plan) && Settled(plan.phases, v.c) && dt >= 0.0 && BudgetOk(plan, v)
    ensures BudgetOk(plan, Tick(plan, d, dt, v, queues, stopped))
    ensures var w := Tick(plan, d, dt, v, queues, stopped);
            w.arm.cumulativeHold <= Times(plan.guard.maxHold, w.c.cycle + 1)
  {
    var c := TickCursor(plan, v.c, dt, queues);
    TickCursorCycle(plan, v.c, dt, queues);
    var w := Tick(plan, d, dt, v, queues, stopped);
    TimesMono(plan.guard.maxHold, v.last, c.cycle);
    if v.last < c.cycle {
      TimesMono(plan.guard.maxHold, v.last + 1, c.cycle);
    }
    TimesMono(plan.guard.maxHold, w.last, w.c.cycle);
  }

  /** An arm whose budget ran out is not held again until the cycle number changes. */
  lemma ExhaustedIsReleased(plan: MeteringPlan, d: Direction, dt: real, v: View,
                            queues: map<Direction, nat>, stopped: map<Direction, nat>)
    requires PlanOk(plan) && Settled(plan.phases, v.c) && dt >= 0.0 && BudgetOk(plan, v) && v.arm.exhausted
    requires plan.guard.enabled
    ensures var w := Tick(plan, d, dt, v, queues, stopped);
            w.c.cycle == v.last ==> w.arm.exhausted && !w.arm.held && !w.arm.exhaustedThisTick
  {
  }

  /** Consecutive ticks of one controller run, as arm `d` sees them. */
  ghost predicate IsRun(plan: MeteringPlan, d: Direction, dt: real, s: seq<View>,
                        queues: seq<map<Direction, nat>>, stopped: seq<map<Direction, nat>>)
    requires PlanOk(plan) && dt >= 0.0
  {
    && |s| == |queues| + 1 == |stopped| + 1
    && (forall k :: 0 <= k < |s| ==> Settled(plan.phases, s[k].c) && BudgetOk(plan, s[k]))
    && (forall j, k :: 0 <= j && k == j + 1 && k < |s| ==> s[k] == Tick(plan, d, dt, s[j], queues[j], stopped[j]))
  }

  /** Whatever the next observations are, a run goes on with its budget kept; so runs reach any
      length, and every state of every run keeps the budget. */
  lemma RunGoesOn(plan: MeteringPlan, d: Direction, dt: real, s: seq<View>, queues: seq<map<Direction, nat>>,
                  stopped: seq<map<Direction, nat>>, queue: map<Direction, nat>, stop: map<Direction, nat>)
    requires PlanOk(plan) && dt >= 0.0 && IsRun(plan, d, dt, s, queues, stopped)
    ensures IsRun(plan, d, dt, s + [Tick(plan, d, dt, s[|s| - 1], queue, stop)], queues + [queue], stopped + [stop])
  {
    var v := s[|s| - 1];
    TickKeepsBudget(plan, d, dt, v, queue, stop);
    hide Tick, BudgetOk;
  }

  /** In how many of the first `k` updates the arm was held; view 0 is the state before them. */
  function HeldUpdates(s: seq<View>, k: nat): nat
    requires k < |s|
  {
    if k == 0 then 0 else HeldUpdates(s, k - 1) + if s[k].arm.held then 1 else 0
  }

  /** `h` held updates have used up `h` ticks of the cycle's budget, or all of it. */
  ghost predicate Used(plan: MeteringPlan, dt: real, v: View, h: nat) {
    h > 0 ==> && v.arm.cycleHold >= Min(Times(dt, h), plan.guard.maxHold)
              && Times(dt, h - 1) < plan.guard.maxHold
  }

  lemma TickUses(plan: MeteringPlan, d: Direction, dt: real, v: View,
                 queues: map<Direction, nat>, stopped: map<Direction, nat>, h: nat)
    requires PlanOk(plan) && Settled(plan.phases, v.c) && dt >= 0.0 && BudgetOk(plan, v) && Used(plan, dt, v, h)
    requires h > 0 && plan.guard.enabled ==> v.last == TickCursor(plan, v.c, dt, queues).cycle
    ensures var w := Tick(plan, d, dt, v, queues, stopped);
            Used(plan, dt, w, h + if w.arm.held then 1 else 0)
  {
    hide TickCursor, Blocked;
    TimesMono(dt, 0, h);
  }

  /** Within one cycle, every held update uses the budget up by a tick. */
  lemma {:induction false} HoldsUseBudget(plan: MeteringPlan, d: Direction, dt: real, s: seq<View>,
                                          queues: seq<map<Direction, nat>>, stopped: seq<map<Direction, nat>>,
                                          cycle: nat, k: nat)
    requires PlanOk(plan) && dt >= 0.0 && IsRun(plan, d, dt, s, queues, stopped) && k < |s|
    requires forall j :: 1 <= j <= k ==> s[j].c.cycle == cycle
    ensures Used(plan, dt, s[k], HeldUpdates(s, k))
    ensures k > 0 && plan.guard.enabled ==> s[k].last == cycle
    decreases k
  {
    hide Used, BudgetOk, TickCursor, ArmStep;
    if k == 0 {
      NoneUsed(plan, dt, s[0]);
    } else {
      HoldsUseBudget(plan, d, dt, s, queues, stopped, cycle, k - 1);
      assert s[k] == Tick(plan, d, dt, s[k - 1], queues[k - 1], stopped[k - 1]);
      TickUses(plan, d, dt, s[k - 1], queues[k - 1], stopped[k - 1], HeldUpdates(s, k - 1));
    }
  }

  lemma NoneUsed(plan: MeteringPlan, dt: real, v: View)
    ensures Used(plan, dt, v, 0)
  {
  }

  /** However long the ring stays blocked, an arm is held in at most `maxHold / dt`, rounded up,
      updates of any one cycle. */
  lemma HeldPerCycle(plan: MeteringPlan, d: Direction, dt: real, s: seq<View>,
                     queues: seq<map<Direction, nat>>, stopped: seq<map<Direction, nat>>, cycle: nat)
    requires PlanOk(plan) && dt > 0.0 && IsRun(plan, d, dt, s, queues, stopped)
    requires forall k :: 1 <= k < |s| ==> s[k].c.cycle == cycle
    ensures HeldUpdates(s, |s| - 1) as real < plan.guard.maxHold / dt + 1.0
  {
    HoldsUseBudget(plan, d, dt, s, queues, stopped, cycle, |s| - 1);
    FewerThanCeiling(HeldUpdates(s, |s| - 1), dt, plan.guard.maxHold);
  }

  lemma FewerThanCeiling(h: nat, dt: real, budget: real)
    requires dt > 0.0 && budget >= 0.0 && (h > 0 ==> Times(dt, h - 1) < budget)
    ensures h as real < budget / dt + 1.0
  {
    var q := budget / dt;
    assert q * dt == budget;
    if h == 0 {
      if q < 0.0 {
        MulNegative(q, dt);
      }
    } else {
      TimesIsProduct(dt, h - 1);
      if q <= (h - 1) as real {
        MulMono(q, (h - 1) as real, dt);
      }
    }
  }

  // ---------------------------------------------------------------------
  // No starvation
  // ---------------------------------------------------------------------

  /** The same visit of the same phase, one tick later. */
  predicate Stays(a: View, b: View, dt: real) {
    b.c == a.c.(t := a.c.t + dt)
  }

  /** A tick that enters a phase leaves the cursor less than one tick into it. */
  lemma EntersYoung(plan: MeteringPlan, d: Direction, dt: real, v: View,
                    queues: map<Direction, nat>, stopped: map<Direction, nat>)
    requires PlanOk(plan) && Settled(plan.phases, v.c) && dt > 0.0 && ShorterThanPhases(dt, plan.phases)
    ensures var w := Tick(plan, d, dt, v, queues, stopped);
            Stays(v, w, dt) || w.c.t < dt
  {
    AdvancedByAtMostOne(plan.phases, v.c, dt);
  }

  /** A green visit only ends with its minimum green all but run. */
  lemma LeavesLate(plan: MeteringPlan, d: Direction, dt: real, v: View,
                   queues: map<Direction, nat>, stopped: map<Direction, nat>)
    requires PlanOk(plan) && Settled(plan.phases, v.c) && dt > 0.0 && ShorterThanPhases(dt, plan.phases)
    requires plan.phases[v.c.idx].IsGreen() && !Stays(v, Tick(plan, d, dt, v, queues, stopped), dt)
    ensures v.c.t + dt >= plan.specs[plan.specOf[v.c.idx]].minGreen - CAP_TOLERANCE
  {
    AdvancedByAtMostOne(plan.phases, v.c, dt);
    assert GreenOfSpec(plan, v.c.idx);
  }

  /** A green the advance has just entered is not cut by the cap in the same tick, so no visit
      passes between two updates. */
  lemma EntryIsNotCut(plan: MeteringPlan, c: Cursor, dt: real, queues: map<Direction, nat>)
    requires PlanOk(plan) && Settled(plan.phases, c) && dt > 0.0 && ShorterThanPhases(dt, plan.phases)
    requires var r := Advanced(plan.phases, c, dt);
             && r.idx != c.idx && plan.phases[r.idx].IsGreen()
             && plan.specs[plan.specOf[r.idx]].minGreen - CAP_TOLERANCE >= plan.guard.maxHold + 2.0 * dt
    ensures TickCursor(plan, c, dt, queues) == Advanced(plan.phases, c, dt)
  {
    AdvancedByAtMostOne(plan.phases, c, dt);
  }

  /** One visit of phase `i`, entered in the first tick of the run, by the advance or by a cut of
      the phase before it: it is seen by the updates `1 .. m` and left at update `m + 1`. A visit
      entered and cut within one tick is seen by none. */
  ghost predicate CompletedVisit(plan: MeteringPlan, s: seq<View>, dt: real, i: nat, m: nat)
    requires PlanOk(plan) && dt >= 0.0
  {
    && |s| >= m + 2 && Settled(plan.phases, s[0].c) && s[0].c.idx != i
    && (Advanced(plan.phases, s[0].c, dt).idx == i || s[1].c.idx == i)
    && (m == 0 <==> s[1].c.idx != i)
    && (forall j, k :: 1 <= j && k == j + 1 && k <= m ==> Stays(s[j], s[k], dt))
    && (m >= 1 ==> !Stays(s[m], s[m + 1], dt))
  }

  lemma {:induction false} VisitTimes(s: seq<View>, dt: real, m: nat, k: nat)
    requires m < |s| && 1 <= k <= m
    requires forall j, k :: 1 <= j && k == j + 1 && k <= m ==> Stays(s[j], s[k], dt)
    ensures s[k].c == s[1].c.(t := s[1].c.t + Times(dt, k - 1))
    decreases k
  {
    if k > 1 {
      VisitTimes(s, dt, m, k - 1);
      assert Stays(s[k - 1], s[k], dt);
    }
  }

  lemma {:induction false} AllHeld(s: seq<View>, k: nat)
    requires k < |s| && forall j :: 1 <= j <= k ==> s[j].arm.held
    ensures HeldUpdates(s, k) == k
    decreases k
  {
    if k > 0 {
      AllHeld(s, k - 1);
    }
  }

  /** No metered arm is starved: whatever the queue cap and the guard observe, every completed
      visit of a green releasing the arm has an update at which the arm's gate is open. */
  lemma NoStarvation(plan: MeteringPlan, d: Direction, dt: real, s: seq<View>,
                     queues: seq<map<Direction, nat>>, stopped: seq<map<Direction, nat>>, i: nat, m: nat)
    requires PlanOk(plan) && dt > 0.0 && ShorterThanPhases(dt, plan.phases)
    requires CompletedVisit(plan, s, dt, i, m)
    requires IsRun(plan, d, dt, s, queues, stopped)
    requires i < |plan.phases| && plan.phases[i].IsGreen() && d in plan.phases[i].directions
    requires plan.specs[plan.specOf[i]].minGreen - CAP_TOLERANCE >= plan.guard.maxHold + 2.0 * dt
    ensures exists k :: 1 <= k <= m && s[k].c.idx == i && !s[k].arm.held && ColorOf(plan, s[k].c, d) == Green
  {
    assert s[1] == Tick(plan, d, dt, s[0], queues[0], stopped[0]);
    if m == 0 {
      EntryIsNotCut(plan, s[0].c, dt, queues[0]);
      assert false;
    }
    forall k | 1 <= k <= m
      ensures s[k].c == s[1].c.(t := s[1].c.t + Times(dt, k - 1))
    {
      VisitTimes(s, dt, m, k);
    }
    if forall k :: 1 <= k <= m ==> s[k].arm.held {
      EntersYoung(plan, d, dt, s[0], queues[0], stopped[0]);
      assert s[m + 1] == Tick(plan, d, dt, s[m], queues[m], stopped[m]);
      LeavesLate(plan, d, dt, s[m], queues[m], stopped[m]);
      AllHeld(s, m);
      HoldsUseBudget(plan, d, dt, s, queues, stopped, s[1].c.cycle, m);
      assert false;
    }
    var k :| 1 <= k <= m && !s[k].arm.held;
    assert s[k].c.idx == i;
  }
}
