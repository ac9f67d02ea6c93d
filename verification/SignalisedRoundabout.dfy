/** The signalised roundabout: cursor, queue cap, spillback guard and gate, stepped in that order. */
module SignalisedRoundabout {
  import opened Options
  import opened RealMath
  import opened Phases
  import opened MeteringCursor
  import opened MeteringControl
  import opened EntryGate
  import opened MeteringRuns

  /** What a tick adds to the count of an event: arms newly closed for a reason, a cut by the
      cap, and arms whose hold budget ran out. */
  ghost function Events(plan: MeteringPlan, c: Cursor, holds: set<Direction>, last: map<Direction, Option<Reason>>,
                        exhausted: set<Direction>, cut: bool, e: Event): nat
    requires c.idx < |plan.phases|
  {
    match e
    case Closing(r) => |NewlyClosed(plan, holds, c, last, r)|
    case QueueCapEvent => if cut then 1 else 0
    case SpillbackExhausted => |exhausted|
    case YellowCommit => 0
    case EntryDenial => 0
  }

  ghost predicate EventsCounted(before: map<Event, nat>, after: map<Event, nat>, plan: MeteringPlan, c: Cursor,
                                holds: set<Direction>, last: map<Direction, Option<Reason>>,
                                exhausted: set<Direction>, cut: bool)
    requires c.idx < |plan.phases|
  {
    forall e :: Count(after, e) == Count(before, e) + Events(plan, c, holds, last, exhausted, cut, e)
  }

  lemma CutCounted(before: map<Event, nat>, mid: map<Event, nat>, after: map<Event, nat>, plan: MeteringPlan, c: Cursor,
                   holds: set<Direction>, last: map<Direction, Option<Reason>>, exhausted: set<Direction>, cut: bool)
    requires c.idx < |plan.phases| && EventsCounted(mid, after, plan, c, holds, last, exhausted, false)
    requires mid == if cut then Bump(before, QueueCapEvent) else before
    ensures EventsCounted(before, after, plan, c, holds, last, exhausted, cut)
  {
    hide Count, NewlyClosed;
  }

  lemma HoldsCounted(before: map<Event, nat>, mid: map<Event, nat>, after: map<Event, nat>, plan: MeteringPlan,
                     c: Cursor, holds: set<Direction>, last: map<Direction, Option<Reason>>, exhausted: set<Direction>)
    requires c.idx < |plan.phases| && Counted(mid, after, plan, holds, c, last, {})
    requires Count(mid, SpillbackExhausted) == Count(before, SpillbackExhausted) + |exhausted|
    requires forall e :: e != SpillbackExhausted ==> Count(mid, e) == Count(before, e)
    ensures EventsCounted(before, after, plan, c, holds, last, exhausted, false)
  {
    hide Count, NewlyClosed, Counted;
    AllClosingsCounted(mid, after, plan, holds, c, last);
  }

  /** The guard holds only metered arms whose light is green. */
  lemma HeldIsGreen(plan: MeteringPlan, a: ArmGuard, newCycle: bool, c: Cursor, stopped: map<Direction, nat>,
                    d: Direction, dt: real)
    requires c.idx < |plan.phases| && ArmStep(plan, a, newCycle, Blocked(plan, c, stopped, d), dt).held
    ensures d in plan.metered && ColorOf(plan, c, d) == Green
  {
  }

  class SignalisedRoundaboutController {
    const plan: MeteringPlan
    const cursor: MeteringPhaseCursor
    const gate: MeteredEntryGate
    const guard: SpillbackGuard
    const queueCap: QueueCap

    /** The four parts as the plan ties them together. */
    ghost predicate Parts()
      reads this, cursor, gate, guard, queueCap
    {
      && cursor.plan == plan && gate.plan == plan && guard.plan == plan && queueCap.plan == plan
      && gate.cursor == cursor
      && cursor.Valid() && gate.Valid() && guard.Valid() && queueCap.Valid()
    }

    /** What arm `d`'s history depends on. */
    ghost function ArmView(d: Direction): View
      requires guard.Valid()
      reads cursor, guard
    {
      View(cursor.State(), guard.Arm(d), guard.lastCycleNumber)
    }

    /** Every reachable state: time conserved with bounded savings, hold budgets kept, and only
        green metered arms held. */
    ghost predicate Valid()
      reads this, cursor, gate, guard, queueCap
    {
      && Parts()
      && gate.spillbackHolds == guard.currentlyHeld
      && HoldOk(plan, cursor.State(), gate.spillbackHolds)
      && (forall d :: BudgetOk(plan, ArmView(d)))
      && (forall k :: 0 <= k < |cursor.saves| ==> SavingOk(plan, cursor.saves[k]))
    }

    constructor (plan: MeteringPlan)
      requires PlanOk(plan)
      ensures Valid() && this.plan == plan && cursor.elapsed == 0.0 && cursor.saves == []
      ensures cursor.State() == At(plan.phases, Mod(plan.offset, Cycle(plan.phases)))
      ensures fresh(cursor) && fresh(gate) && fresh(guard) && fresh(queueCap)
    {
      this.plan := plan;
      var c := new MeteringPhaseCursor(plan);
      cursor := c;
      gate := new MeteredEntryGate(c);
      guard := new SpillbackGuard(plan);
      queueCap := new QueueCap(plan);
    }

    /** Back to time zero: the cursor at the offset, no holds, no latches, full budgets, and
        every counter cleared. */
    method Reset()
      requires Valid()
      modifies cursor, gate, guard, queueCap
      ensures Valid() && cursor.elapsed == 0.0 && cursor.saves == []
      ensures NonNegative(plan.phases) && Cycle(plan.phases) > 0.0
      ensures cursor.State() == At(plan.phases, Mod(plan.offset, Cycle(plan.phases)))
      ensures gate.spillbackHolds == {} && gate.yellowLatched == map[] && gate.committed == {}
      ensures gate.lastState == map[] && gate.decisionCounts == map[] && gate.denialCounts == map[]
      ensures forall d :: ArmView(d) == View(cursor.State(), ARM_START, 0) && queueCap.triggers[d] == 0
    {
      cursor.Reset();
      gate.Reset();
      guard.Reset();
      queueCap.Reset();
      NoBudgetUsed();
    }

    /** One simulation tick. A negative step is refused before anything has moved. Latches and
        denials are the business of consultations: a tick leaves them as they are. */
    method Update(deltaTime: real, queues: map<Direction, nat>, stopped: map<Direction, nat>) returns (ok: bool)
      requires Valid()
      modifies cursor, guard, queueCap, gate`spillbackHolds, gate`lastState, gate`decisionCounts
      ensures Valid() && ok == (deltaTime >= 0.0)
      ensures gate.yellowLatched == old(gate.yellowLatched) && gate.committed == old(gate.committed)
      ensures gate.denialCounts == old(gate.denialCounts)
      ensures !ok ==> cursor.State() == old(cursor.State()) && cursor.elapsed == old(cursor.elapsed)
                      && cursor.saves == old(cursor.saves) && forall d :: ArmView(d) == old(ArmView(d))
      ensures !ok ==> gate.spillbackHolds == old(gate.spillbackHolds) && gate.lastState == old(gate.lastState)
                      && gate.decisionCounts == old(gate.decisionCounts) && queueCap.triggers == old(queueCap.triggers)
      ensures ok ==> cursor.elapsed == old(cursor.elapsed) + deltaTime
      ensures ok ==> forall d :: ArmView(d) == Tick(plan, d, deltaTime, old(ArmView(d)), queues, stopped)
      ensures ok && plan.guard.enabled ==> forall d :: d in gate.spillbackHolds <==>
                && d in plan.metered && d in plan.phases[cursor.currentPhaseIdx].directions
                && plan.phases[cursor.currentPhaseIdx].color == Green
                && (if d in stopped then stopped[d] else 0) >= plan.guard.stoppedThreshold
                && (if cursor.cycleNumber != old(guard.lastCycleNumber) then 0.0 else old(guard.Arm(d)).cycleHold)
                   < plan.guard.maxHold
      ensures ok && !plan.guard.enabled ==> gate.spillbackHolds == {}
      ensures ok ==> Triggered(plan, Advanced(plan.phases, old(cursor.State()), deltaTime), queues,
                               old(queueCap.triggers), queueCap.triggers)
      ensures ok ==> forall d :: d in plan.metered ==>
                Recorded(gate.lastState, d) == ArmReason(plan, gate.spillbackHolds, cursor.State(), d)
      ensures ok ==> EventsCounted(old(gate.decisionCounts), gate.decisionCounts, plan, cursor.State(),
                                   gate.spillbackHolds, old(gate.lastState), guard.exhaustedThisTick,
                                   Cuts(plan, Advanced(plan.phases, old(cursor.State()), deltaTime), queues))
    {
      hide EventsCounted, Tick, Triggered, Cuts, Advanced, BudgetOk, HoldOk, TickCursor;
      ghost var before := cursor.State();
      ghost var cut := deltaTime >= 0.0 && Cuts(plan, Advanced(plan.phases, before, deltaTime), queues);
      ok := MoveCursor(deltaTime, queues);
      if !ok {
        assert forall d :: ArmView(d) == old(ArmView(d));
        return;
      }
      ghost var counts := gate.decisionCounts;
      assert forall d :: View(before, guard.Arm(d), guard.lastCycleNumber) == old(ArmView(d));
      FinishTick(deltaTime, stopped, before, queues);
      CutCounted(old(gate.decisionCounts), counts, gate.decisionCounts, plan, cursor.State(), gate.spillbackHolds,
                 old(gate.lastState), guard.exhaustedThisTick, cut);
      forall d {
        HoldRule(plan, d, deltaTime, old(ArmView(d)), queues, stopped);
      }
      assert forall d :: d in gate.spillbackHolds <==> ArmView(d).arm.held;
    }

    /** The part of a tick after the cursor has moved from `before`. */
    method FinishTick(deltaTime: real, stopped: map<Direction, nat>,
                      ghost before: Cursor, ghost queues: map<Direction, nat>)
      requires Parts() && deltaTime >= 0.0 && Settled(plan.phases, before)
      requires cursor.State() == TickCursor(plan, before, deltaTime, queues)
      requires forall d :: BudgetOk(plan, View(before, guard.Arm(d), guard.lastCycleNumber))
      requires forall k :: 0 <= k < |cursor.saves| ==> SavingOk(plan, cursor.saves[k])
      modifies guard, gate`spillbackHolds, gate`lastState, gate`decisionCounts
      ensures Valid()
      ensures forall d :: ArmView(d)
                == Tick(plan, d, deltaTime, View(before, old(guard.Arm(d)), old(guard.lastCycleNumber)), queues,
                        stopped)
      ensures forall d :: d in plan.metered ==>
                Recorded(gate.lastState, d) == ArmReason(plan, gate.spillbackHolds, cursor.State(), d)
      ensures EventsCounted(old(gate.decisionCounts), gate.decisionCounts, plan, cursor.State(), gate.spillbackHolds,
                            old(gate.lastState), guard.exhaustedThisTick, false)
    {
      HoldArms(deltaTime, stopped);
      hide EventsCounted, TickCursor, BudgetOk, HoldOk, ArmStep, Blocked, ArmReason;
      forall d {
        TickKeepsBudget(plan, d, deltaTime, View(before, old(guard.Arm(d)), old(guard.lastCycleNumber)), queues,
                        stopped);
      }
    }

    /** Advances the cursor and lets the queue cap cut the green it then shows. */
    method MoveCursor(deltaTime: real, queues: map<Direction, nat>) returns (ok: bool)
      requires Parts() && forall k :: 0 <= k < |cursor.saves| ==> SavingOk(plan, cursor.saves[k])
      modifies cursor, queueCap, gate`decisionCounts
      ensures Parts() && forall k :: 0 <= k < |cursor.saves| ==> SavingOk(plan, cursor.saves[k])
      ensures ok == (deltaTime >= 0.0)
      ensures !ok ==> cursor.State() == old(cursor.State()) && cursor.elapsed == old(cursor.elapsed)
                      && cursor.saves == old(cursor.saves) && queueCap.triggers == old(queueCap.triggers)
                      && gate.decisionCounts == old(gate.decisionCounts)
      ensures ok ==> cursor.elapsed == old(cursor.elapsed) + deltaTime
                     && cursor.State() == TickCursor(plan, old(cursor.State()), deltaTime, queues)
      ensures ok ==> var c := Advanced(plan.phases, old(cursor.State()), deltaTime);
                     && Triggered(plan, c, queues, old(queueCap.triggers), queueCap.triggers)
                     && gate.decisionCounts
                        == if Cuts(plan, c, queues) then Bump(old(gate.decisionCounts), QueueCapEvent)
                           else old(gate.decisionCounts)
    {
      hide SavingOk, Cuts, FirstAtCap, Advanced, Carry, Bump;
      ok := cursor.Advance(deltaTime);
      if !ok {
        return;
      }
      var cut, arm := queueCap.CheckAndTrigger(cursor, queues);
      if cut {
        gate.RecordEvent(QueueCapEvent);
      }
    }

    /** Lets the guard choose the arms to hold, and brings the gate up to date with them. */
    method HoldArms(deltaTime: real, stopped: map<Direction, nat>)
      requires Parts()
      modifies guard, gate`spillbackHolds, gate`lastState, gate`decisionCounts
      ensures Parts() && gate.spillbackHolds == guard.currentlyHeld
      ensures HoldOk(plan, cursor.State(), gate.spillbackHolds)
      ensures guard.lastCycleNumber == if plan.guard.enabled then cursor.cycleNumber else old(guard.lastCycleNumber)
      ensures forall d :: guard.Arm(d)
                == ArmStep(plan, old(guard.Arm(d)), cursor.cycleNumber != old(guard.lastCycleNumber),
                           Blocked(plan, cursor.State(), stopped, d), deltaTime)
      ensures forall d :: d in plan.metered ==>
                Recorded(gate.lastState, d) == ArmReason(plan, gate.spillbackHolds, cursor.State(), d)
      ensures EventsCounted(old(gate.decisionCounts), gate.decisionCounts, plan, cursor.State(), gate.spillbackHolds,
                            old(gate.lastState), guard.exhaustedThisTick, false)
    {
      hide NewlyClosed, Count, ArmStep, Blocked, ArmReason, ColorOf, Recorded, Guarded, Jammed, Counted,
           EventsCounted;
      var c := Cursor(cursor.currentPhaseIdx, cursor.timeInCurrentState, cursor.cycleNumber);
      var held := guard.Update(c, deltaTime, stopped);
      forall d | d in held
        ensures d in plan.metered && ColorOf(plan, c, d) == Green
      {
        assert guard.Arm(d).held;
        HeldIsGreen(plan, old(guard.Arm(d)), c.cycle != old(guard.lastCycleNumber), c, stopped, d, deltaTime);
      }
      gate.SetSpillbackHolds(held);
      CountExhaustions();
      ghost var counts, last := gate.decisionCounts, gate.lastState;
      gate.Update();
      HoldsCounted(old(gate.decisionCounts), counts, gate.decisionCounts, plan, c, held, last, guard.exhaustedThisTick);
    }

    method CountExhaustions()
      requires Parts()
      modifies gate`decisionCounts
      ensures Parts()
      ensures Count(gate.decisionCounts, SpillbackExhausted)
              == Count(old(gate.decisionCounts), SpillbackExhausted) + |guard.exhaustedThisTick|
      ensures forall e :: e != SpillbackExhausted ==>
                Count(gate.decisionCounts, e) == Count(old(gate.decisionCounts), e)
    {
      var rest := guard.exhaustedThisTick;
      while rest != {}
        invariant Parts()
        invariant Count(gate.decisionCounts, SpillbackExhausted) + |rest|
                  == Count(old(gate.decisionCounts), SpillbackExhausted) + |guard.exhaustedThisTick|
        invariant forall e :: e != SpillbackExhausted ==>
                  Count(gate.decisionCounts, e) == Count(old(gate.decisionCounts), e)
        decreases rest
      {
        var d :| d in rest;
        gate.RecordEvent(SpillbackExhausted);
        rest := rest - {d};
      }
    }

    /** The reported colours; they agree with the gate on every arm. */
    method SignalsState() returns (colors: map<Direction, Color>)
      requires Valid()
      ensures forall d :: d in colors && colors[d] == Lamp(plan, cursor.State(), gate.spillbackHolds, d)
      ensures forall d :: colors[d] == if d in gate.spillbackHolds then Red
                                       else if d !in plan.metered then Green
                                       else if d in plan.phases[cursor.currentPhaseIdx].directions
                                            then plan.phases[cursor.currentPhaseIdx].color
                                       else Red
      ensures forall d :: (colors[d] == Green <==> ArmReason(plan, gate.spillbackHolds, cursor.State(), d).None?)
      ensures forall d :: d !in plan.metered ==> colors[d] == Green
    {
      var c := Cursor(cursor.currentPhaseIdx, cursor.timeInCurrentState, cursor.cycleNumber);
      colors := map d | d in Arms() :: ColorOf(plan, c, d);
      var rest := gate.spillbackHolds;
      while rest != {}
        invariant rest <= gate.spillbackHolds && forall d :: d in colors
        invariant forall d :: colors[d] == if d in gate.spillbackHolds && d !in rest then Red else ColorOf(plan, c, d)
        decreases rest
      {
        var d :| d in rest;
        colors := colors[d := Red];
        rest := rest - {d};
      }
      forall d {
        LampAgreesWithGate(plan, c, gate.spillbackHolds, d);
      }
    }

    lemma NoBudgetUsed()
      requires guard.Valid() && PlanOk(plan)
      requires forall d :: ArmView(d) == View(cursor.State(), ARM_START, 0)
      ensures forall d :: BudgetOk(plan, ArmView(d))
    {
    }
  }
}
