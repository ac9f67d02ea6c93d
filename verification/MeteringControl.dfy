/** The queue cap and the spillback guard of a metered roundabout. */
module MeteringControl {
  import opened RealMath
  import opened Phases
  import opened MeteringCursor
  import SignalPlans

  const ALL_ARMS := {North, South, East, West}

  /** All four approaches. */
  function Arms(): (arms: set<Direction>)
    ensures forall d: Direction :: d in arms
  {
    NoOtherArm();
    ALL_ARMS
  }

  lemma NoOtherArm()
    ensures forall d: Direction :: d in ALL_ARMS
  {
    forall d: Direction
      ensures d in ALL_ARMS
    {
      match d
      case North =>
      case South =>
      case East =>
      case West =>
    }
  }

  /** Vehicles counted on an arm; an arm with no approach counts none. */
  function CountOn(counts: map<Direction, nat>, d: Direction): nat {
    if d in counts then counts[d] else 0
  }

  // ---------------------------------------------------------------------
  // Queue cap
  // ---------------------------------------------------------------------

  const CAP_TOLERANCE := 0.000001

  /** The order in which red arms are inspected: by name. */
  const CAP_ORDER := [East, North, South, West]

  /** The arm is red with a queue at the cap. */
  predicate QueueAtCap(plan: MeteringPlan, c: Cursor, queues: map<Direction, nat>, d: Direction)
    requires c.idx < |plan.phases|
  {
    d in plan.metered && ColorOf(plan, c, d) == Red && CountOn(queues, d) >= plan.cap.vehicles
  }

  /** The shown green may be cut: the cap is on and the minimum green has run. */
  predicate MayCut(plan: MeteringPlan, c: Cursor)
    requires PlanOk(plan) && c.idx < |plan.phases|
  {
    && plan.cap.enabled && plan.phases[c.idx].IsGreen()
    && c.t >= plan.specs[plan.specOf[c.idx]].minGreen - CAP_TOLERANCE
  }

  predicate Cuts(plan: MeteringPlan, c: Cursor, queues: map<Direction, nat>)
    requires PlanOk(plan) && c.idx < |plan.phases|
  {
    MayCut(plan, c) && exists d :: QueueAtCap(plan, c, queues, d)
  }

  /** When the cap cuts, in the plan's own terms: the shown green has all but run its minimum and
      some metered arm it does not release has as many vehicles queued as the cap asks for. */
  lemma CutsRule(plan: MeteringPlan, c: Cursor, queues: map<Direction, nat>)
    requires PlanOk(plan) && c.idx < |plan.phases|
    ensures Cuts(plan, c, queues) <==>
              && plan.cap.enabled && plan.phases[c.idx].color == Green
              && c.t >= plan.specs[plan.specOf[c.idx]].minGreen - 0.000001
              && exists d :: && d in plan.metered && d !in plan.phases[c.idx].directions
                             && (if d in queues then queues[d] else 0) >= plan.cap.vehicles
  {
    if MayCut(plan, c) {
      forall d: Direction
        ensures QueueAtCap(plan, c, queues, d)
                <==> && d in plan.metered && d !in plan.phases[c.idx].directions
                     && (if d in queues then queues[d] else 0) >= plan.cap.vehicles
      {
      }
    }
  }

  /** The arm that triggers a cut is, of those at the cap, the first in the order of their names. */
  lemma FirstByName(plan: MeteringPlan, c: Cursor, queues: map<Direction, nat>, arm: Direction, other: Direction)
    requires c.idx < |plan.phases| && plan.phases[c.idx].color == Green && FirstAtCap(plan, c, queues, arm)
    requires other in plan.metered && other !in plan.phases[c.idx].directions
    requires (if other in queues then queues[other] else 0) >= plan.cap.vehicles
    ensures arm in plan.metered && arm !in plan.phases[c.idx].directions
    ensures (if arm in queues then queues[arm] else 0) >= plan.cap.vehicles
    ensures SignalPlans.DirectionName(arm)[0] <= SignalPlans.DirectionName(other)[0]
  {
    hide SignalPlans.DirectionName;
    var i := PlaceOf(other);
    assert QueueAtCap(plan, c, queues, CAP_ORDER[i]);
    var j :| 0 <= j <= i && CAP_ORDER[j] == arm;
    InNameOrder(j, i);
  }

  lemma PlaceOf(d: Direction) returns (i: nat)
    ensures i < 4 && CAP_ORDER[i] == d
  {
    i := match d case East => 0 case North => 1 case South => 2 case West => 3;
  }

  lemma InNameOrder(j: nat, i: nat)
    requires j <= i < 4
    ensures SignalPlans.DirectionName(CAP_ORDER[j])[0] <= SignalPlans.DirectionName(CAP_ORDER[i])[0]
  {
    Initials();
    hide SignalPlans.DirectionName;
  }

  lemma Initials()
    ensures SignalPlans.DirectionName(East)[0] == 'e' && SignalPlans.DirectionName(North)[0] == 'n'
    ensures SignalPlans.DirectionName(South)[0] == 's' && SignalPlans.DirectionName(West)[0] == 'w'
  {
  }

  /** The cursor after the cap: the next phase from its start when the green is cut. */
  function AfterCap(plan: MeteringPlan, c: Cursor, queues: map<Direction, nat>): Cursor
    requires PlanOk(plan) && c.idx < |plan.phases|
  {
    if Cuts(plan, c, queues) then Carry(plan.phases, c.(t := plan.phases[c.idx].duration)) else c
  }

  /** What a cut may save: at most the green of the phase it cut beyond that phase's minimum,
      and the cap's tolerance. */
  ghost predicate SavingOk(plan: MeteringPlan, saving: Saving)
    requires PlanOk(plan)
  {
    && saving.phase < |plan.phases| && plan.phases[saving.phase].IsGreen()
    && var spec := plan.specs[plan.specOf[saving.phase]];
       0.0 < saving.seconds <= spec.green - spec.minGreen + CAP_TOLERANCE
  }

  /** The first arm in name order whose queue is at the cap. */
  ghost predicate FirstAtCap(plan: MeteringPlan, c: Cursor, queues: map<Direction, nat>, arm: Direction)
    requires c.idx < |plan.phases|
  {
    && QueueAtCap(plan, c, queues, arm)
    && forall i :: 0 <= i < 4 && QueueAtCap(plan, c, queues, CAP_ORDER[i]) ==>
        exists j :: 0 <= j <= i && CAP_ORDER[j] == arm
  }

  /** The cap counts its trigger on the first arm at the cap when it cuts, and nothing else. */
  ghost predicate Triggered(plan: MeteringPlan, c: Cursor, queues: map<Direction, nat>,
                            before: map<Direction, nat>, after: map<Direction, nat>)
    requires PlanOk(plan) && c.idx < |plan.phases|
  {
    if Cuts(plan, c, queues) then
      exists arm :: FirstAtCap(plan, c, queues, arm) && arm in before && after == before[arm := before[arm] + 1]
    else after == before
  }

  class QueueCap {
    const plan: MeteringPlan
    var triggers: map<Direction, nat>

    ghost predicate Valid()
      reads this
    {
      PlanOk(plan) && forall d :: d in triggers
    }

    constructor (plan: MeteringPlan)
      requires PlanOk(plan)
      ensures Valid() && this.plan == plan && forall d :: triggers[d] == 0
    {
      this.plan := plan;
      triggers := map d | d in Arms() :: 0;
    }

    method Reset()
      requires Valid()
      modifies this
      ensures Valid() && forall d :: triggers[d] == 0
    {
      triggers := map d | d in Arms() :: 0;
    }

    /** Cuts the shown green if a red arm's queue has reached the cap, and says which arm did:
        the first in name order. A cut saves at most `green - minGreen + 1e-6`. */
    method CheckAndTrigger(cursor: MeteringPhaseCursor, queues: map<Direction, nat>) returns (cut: bool, arm: Direction)
      requires Valid() && cursor.Valid() && cursor.plan == plan
      modifies this, cursor
      ensures Valid() && cursor.Valid() && cursor.elapsed == old(cursor.elapsed)
      ensures cut == Cuts(plan, old(cursor.State()), queues)
      ensures cut <==>
                && plan.cap.enabled && plan.phases[old(cursor.currentPhaseIdx)].color == Green
                && old(cursor.timeInCurrentState)
                   >= plan.specs[plan.specOf[old(cursor.currentPhaseIdx)]].minGreen - 0.000001
                && exists d :: && d in plan.metered && d !in plan.phases[old(cursor.currentPhaseIdx)].directions
                               && (if d in queues then queues[d] else 0) >= plan.cap.vehicles
      ensures cursor.State() == AfterCap(plan, old(cursor.State()), queues)
      ensures cut ==> FirstAtCap(plan, old(cursor.State()), queues, arm)
      ensures triggers == if cut then old(triggers)[arm := old(triggers)[arm] + 1] else old(triggers)
      ensures !cut ==> cursor.saves == old(cursor.saves)
      ensures cut ==>
                |cursor.saves| == |old(cursor.saves)| + 1 && cursor.saves[..|old(cursor.saves)|] == old(cursor.saves)
      ensures cut ==> var saving := cursor.saves[|cursor.saves| - 1];
                      saving.phase == old(cursor.currentPhaseIdx) && SavingOk(plan, saving)
    {
      CutsRule(plan, cursor.State(), queues);
      arm := East;
      cut := false;
      if !plan.cap.enabled {
        return;
      }
      var idx := cursor.currentPhaseIdx;
      if !plan.phases[idx].IsGreen() {
        return;
      }
      assert GreenOfSpec(plan, idx);
      if cursor.timeInCurrentState < plan.specs[plan.specOf[idx]].minGreen - CAP_TOLERANCE {
        return;
      }
      var view := Cursor(cursor.currentPhaseIdx, cursor.timeInCurrentState, cursor.cycleNumber);
      cut, arm := FindArm(view, queues);
      if cut {
        hide QueueAtCap, FirstAtCap;
        var ended := cursor.EndGreenEarly();
        triggers := triggers[arm := triggers[arm] + 1];
      }
    }

    /** Inspects the red metered arms by name. */
    method FindArm(c: Cursor, queues: map<Direction, nat>) returns (found: bool, arm: Direction)
      requires c.idx < |plan.phases|
      ensures found <==> exists d :: QueueAtCap(plan, c, queues, d)
      ensures found ==> FirstAtCap(plan, c, queues, arm)
    {
      for i := 0 to 4
        invariant forall j :: 0 <= j < i ==> !QueueAtCap(plan, c, queues, CAP_ORDER[j])
      {
        var d := CAP_ORDER[i];
        if d in plan.metered && ColorOf(plan, c, d) == Red && CountOn(queues, d) >= plan.cap.vehicles {
          assert QueueAtCap(plan, c, queues, d);
          return true, d;
        }
      }
      forall d
        ensures !QueueAtCap(plan, c, queues, d)
      {
        assert d == CAP_ORDER[0] || d == CAP_ORDER[1] || d == CAP_ORDER[2] || d == CAP_ORDER[3];
      }
      return false, East;
    }
  }

  // ---------------------------------------------------------------------
  // Spillback guard
  // ---------------------------------------------------------------------

  /** What the guard keeps about one arm. */
  datatype ArmGuard = ArmGuard(
    cycleHold: real, cumulativeHold: real, activations: nat, exhaustions: nat,
    held: bool, exhausted: bool, exhaustedThisTick: bool)

  const ARM_START := ArmGuard(0.0, 0.0, 0, 0, false, false, false)

  /** Green on the plan while the ring downstream of it is blocked. */
  predicate Blocked(plan: MeteringPlan, c: Cursor, stopped: map<Direction, nat>, d: Direction)
    requires c.idx < |plan.phases|
  {
    d in plan.metered && ColorOf(plan, c, d) == Green && CountOn(stopped, d) >= plan.guard.stoppedThreshold
  }

  /** The arm with its budget renewed, when the cursor has entered a new cycle. */
  function Renewed(a: ArmGuard, newCycle: bool): ArmGuard {
    if newCycle then a.(cycleHold := 0.0, exhausted := false) else a
  }

  /** A blocked arm is held while it has budget left. */
  function Serve(plan: MeteringPlan, a: ArmGuard, blocked: bool, dt: real): ArmGuard {
    var budget := Max(0.0, plan.guard.maxHold - a.cycleHold);
    if blocked && budget > 0.0 then
      var hold := Min(dt, budget);
      a.(cycleHold := a.cycleHold + hold, cumulativeHold := a.cumulativeHold + hold, held := true,
         activations := if a.held then a.activations else a.activations + 1, exhaustedThisTick := false)
    else if blocked && !a.exhausted then
      a.(held := false, exhausted := true, exhaustions := a.exhaustions + 1, exhaustedThisTick := true)
    else a.(held := false, exhaustedThisTick := false)
  }

  /** One guard update seen by one arm. */
  function ArmStep(plan: MeteringPlan, a: ArmGuard, newCycle: bool, blocked: bool, dt: real): ArmGuard {
    if !plan.guard.enabled then a.(held := false, exhaustedThisTick := false)
    else Serve(plan, Renewed(a, newCycle), blocked, dt)
  }

  /** What was noted as exhausted in the tick before plays no part in this one. */
  lemma ServeStartsClean(plan: MeteringPlan, a: ArmGuard, blocked: bool, dt: real)
    ensures Serve(plan, a.(exhaustedThisTick := false), blocked, dt) == Serve(plan, a, blocked, dt)
  {
  }

  /** The guard passes an unmetered arm by. */
  lemma UnmeteredNotServed(plan: MeteringPlan, a: ArmGuard, c: Cursor, stopped: map<Direction, nat>, d: Direction,
                           dt: real)
    requires c.idx < |plan.phases| && d !in plan.metered
    ensures Serve(plan, a, Blocked(plan, c, stopped, d), dt) == a.(held := false, exhaustedThisTick := false)
  {
  }

  /** The ring is blocked downstream of an arm whose signal is green. */
  predicate Jammed(plan: MeteringPlan, c: Cursor, stopped: map<Direction, nat>, d: Direction)
    requires c.idx < |plan.phases|
  {
    && d in plan.metered && d in plan.phases[c.idx].directions && plan.phases[c.idx].color == Green
    && (if d in stopped then stopped[d] else 0) >= plan.guard.stoppedThreshold
  }

  /** What an update makes of an arm's record, told from what stands downstream and the hold
      spent: a jammed arm is held while its hold this cycle is below the maximum, and noted as
      exhausted once a cycle when it is not. */
  ghost predicate Guarded(plan: MeteringPlan, a: ArmGuard, r: ArmGuard, newCycle: bool, jammed: bool, dt: real) {
    var spent := if newCycle then 0.0 else a.cycleHold;
    var hold := if !r.held then 0.0 else if dt <= plan.guard.maxHold - spent then dt else plan.guard.maxHold - spent;
    && (r.held <==> jammed && spent < plan.guard.maxHold)
    && r.cycleHold == spent + hold && r.cumulativeHold == a.cumulativeHold + hold
    && r.activations == a.activations + (if r.held && !a.held then 1 else 0)
    && (r.exhaustedThisTick <==> jammed && spent >= plan.guard.maxHold && (newCycle || !a.exhausted))
    && (r.exhausted <==> r.exhaustedThisTick || (!newCycle && a.exhausted))
    && r.exhaustions == a.exhaustions + (if r.exhaustedThisTick then 1 else 0)
  }

  lemma GuardRule(plan: MeteringPlan, a: ArmGuard, newCycle: bool, c: Cursor, stopped: map<Direction, nat>,
                  d: Direction, dt: real)
    requires c.idx < |plan.phases| && plan.guard.enabled
    ensures Guarded(plan, a, ArmStep(plan, a, newCycle, Blocked(plan, c, stopped, d), dt), newCycle,
                    Jammed(plan, c, stopped, d), dt)
  {
  }

  class SpillbackGuard {
    const plan: MeteringPlan
    var cycleHoldTime: map<Direction, real>
    var cumulativeHoldTime: map<Direction, real>
    var holdActivations: map<Direction, nat>
    var budgetExhaustions: map<Direction, nat>
    var exhaustedThisTick: set<Direction>
    var currentlyHeld: set<Direction>
    var exhaustedArms: set<Direction>
    var lastCycleNumber: nat

    ghost function Arm(d: Direction): ArmGuard
      requires d in cycleHoldTime && d in cumulativeHoldTime && d in holdActivations && d in budgetExhaustions
      reads this
    {
      ArmGuard(cycleHoldTime[d], cumulativeHoldTime[d], holdActivations[d], budgetExhaustions[d],
               d in currentlyHeld, d in exhaustedArms, d in exhaustedThisTick)
    }

    ghost predicate Valid()
      reads this
    {
      forall d :: d in cycleHoldTime && d in cumulativeHoldTime && d in holdActivations && d in budgetExhaustions
    }

    constructor (plan: MeteringPlan)
      ensures Valid() && this.plan == plan && lastCycleNumber == 0 && currentlyHeld == {}
      ensures forall d :: Arm(d) == ARM_START
    {
      this.plan := plan;
      cycleHoldTime, cumulativeHoldTime := map d | d in Arms() :: 0.0, map d | d in Arms() :: 0.0;
      holdActivations, budgetExhaustions := map d | d in Arms() :: 0, map d | d in Arms() :: 0;
      exhaustedThisTick, currentlyHeld, exhaustedArms, lastCycleNumber := {}, {}, {}, 0;
    }

    method Reset()
      requires Valid()
      modifies this
      ensures Valid() && lastCycleNumber == 0 && currentlyHeld == {} && forall d :: Arm(d) == ARM_START
    {
      cycleHoldTime, cumulativeHoldTime := map d | d in Arms() :: 0.0, map d | d in Arms() :: 0.0;
      holdActivations, budgetExhaustions := map d | d in Arms() :: 0, map d | d in Arms() :: 0;
      exhaustedThisTick, currentlyHeld, exhaustedArms, lastCycleNumber := {}, {}, {}, 0;
    }

    /** Decides which green arms to hold this tick. The arms are visited in no fixed order, and
        the result does not depend on it. */
    method Update(c: Cursor, deltaTime: real, stopped: map<Direction, nat>) returns (held: set<Direction>)
      requires Valid() && c.idx < |plan.phases|
      modifies this
      ensures Valid() && held == currentlyHeld
      ensures lastCycleNumber == if plan.guard.enabled then c.cycle else old(lastCycleNumber)
      ensures forall d :: Arm(d)
                == ArmStep(plan, old(Arm(d)), c.cycle != old(lastCycleNumber), Blocked(plan, c, stopped, d), deltaTime)
      ensures plan.guard.enabled ==> forall d ::
                Guarded(plan, old(Arm(d)), Arm(d), c.cycle != old(lastCycleNumber), Jammed(plan, c, stopped, d),
                        deltaTime)
      ensures plan.guard.enabled ==> forall d :: d in held <==>
                && d in plan.metered && d in plan.phases[c.idx].directions && plan.phases[c.idx].color == Green
                && (if d in stopped then stopped[d] else 0) >= plan.guard.stoppedThreshold
                && (if c.cycle != old(lastCycleNumber) then 0.0 else old(cycleHoldTime)[d]) < plan.guard.maxHold
      ensures !plan.guard.enabled ==> held == {} && exhaustedThisTick == {}
    {
      hide Serve, Blocked, ArmStep, Renewed;
      VisitAll(c, deltaTime, stopped);
      held := currentlyHeld;
      if plan.guard.enabled {
        forall d
          ensures Guarded(plan, old(Arm(d)), Arm(d), c.cycle != old(lastCycleNumber), Jammed(plan, c, stopped, d),
                          deltaTime)
        {
          GuardRule(plan, old(Arm(d)), c.cycle != old(lastCycleNumber), c, stopped, d, deltaTime);
        }
        assert forall d :: d in held <==> Arm(d).held;
      }
    }

    /** One update of every arm, each by its own step. */
    method VisitAll(c: Cursor, deltaTime: real, stopped: map<Direction, nat>)
      requires Valid() && c.idx < |plan.phases|
      modifies this
      ensures Valid()
      ensures lastCycleNumber == if plan.guard.enabled then c.cycle else old(lastCycleNumber)
      ensures forall d :: Arm(d)
                == ArmStep(plan, old(Arm(d)), c.cycle != old(lastCycleNumber), Blocked(plan, c, stopped, d), deltaTime)
      ensures !plan.guard.enabled ==> currentlyHeld == {} && exhaustedThisTick == {}
    {
      hide Serve, Blocked;
      exhaustedThisTick := {};
      if !plan.guard.enabled {
        currentlyHeld := {};
        return;
      }
      ghost var newCycle := c.cycle != lastCycleNumber;
      if c.cycle != lastCycleNumber {
        RenewBudgets(c.cycle);
      }
      assert forall d :: Arm(d) == Renewed(old(Arm(d)), newCycle).(exhaustedThisTick := false);
      label Renewed:
      var held := VisitArms(c, deltaTime, stopped);
      label Visited:
      currentlyHeld := held;
      forall d
        ensures Arm(d) == ArmStep(plan, old(Arm(d)), newCycle, Blocked(plan, c, stopped, d), deltaTime)
      {
        assert Arm(d) == old@Visited(Arm(d)).(held := d in held);
        assert Arm(d) == Serve(plan, old@Renewed(Arm(d)), Blocked(plan, c, stopped, d), deltaTime);
        ServeStartsClean(plan, Renewed(old(Arm(d)), newCycle), Blocked(plan, c, stopped, d), deltaTime);
      }
    }

    method RenewBudgets(cycle: nat)
      requires Valid()
      modifies this
      ensures Valid() && lastCycleNumber == cycle && currentlyHeld == old(currentlyHeld)
      ensures exhaustedThisTick == old(exhaustedThisTick)
      ensures forall d :: Arm(d) == old(Arm(d)).(cycleHold := 0.0, exhausted := false)
    {
      lastCycleNumber := cycle;
      exhaustedArms := {};
      cycleHoldTime := map d | d in Arms() :: 0.0;
    }

    /** Serves every metered arm once; `held` collects the arms to hold. */
    method VisitArms(c: Cursor, deltaTime: real, stopped: map<Direction, nat>) returns (held: set<Direction>)
      requires Valid() && c.idx < |plan.phases| && exhaustedThisTick == {}
      modifies this
      ensures Valid() && lastCycleNumber == old(lastCycleNumber) && currentlyHeld == old(currentlyHeld)
      ensures forall d :: Arm(d).(held := d in held)
                == Serve(plan, old(Arm(d)), Blocked(plan, c, stopped, d), deltaTime)
    {
      hide Serve, Blocked;
      held := {};
      var rest := plan.metered;
      while rest != {}
        invariant rest <= plan.metered && Valid()
        invariant lastCycleNumber == old(lastCycleNumber) && currentlyHeld == old(currentlyHeld)
        invariant forall d :: d in rest || d !in plan.metered ==> Arm(d) == old(Arm(d)) && d !in held
        invariant forall d :: d in plan.metered && d !in rest ==>
                    Arm(d).(held := d in held) == Serve(plan, old(Arm(d)), Blocked(plan, c, stopped, d), deltaTime)
        decreases rest
      {
        var d :| d in rest;
        assert !Arm(d).exhaustedThisTick;
        var hold := UpdateArm(d, c, deltaTime, stopped);
        rest := rest - {d};
        if hold {
          held := held + {d};
        }
      }
      forall d | d !in plan.metered {
        UnmeteredNotServed(plan, old(Arm(d)), c, stopped, d, deltaTime);
      }
    }

    /** Spends hold time on one arm, or notes that its budget ran out. */
    method UpdateArm(d: Direction, c: Cursor, deltaTime: real, stopped: map<Direction, nat>) returns (hold: bool)
      requires Valid() && c.idx < |plan.phases| && d in plan.metered && d !in exhaustedThisTick
      modifies this
      ensures Valid() && lastCycleNumber == old(lastCycleNumber) && currentlyHeld == old(currentlyHeld)
      ensures forall e :: e != d ==> Arm(e) == old(Arm(e))
      ensures Arm(d).(held := hold) == Serve(plan, old(Arm(d)), Blocked(plan, c, stopped, d), deltaTime)
    {
      hide ColorOf, CountOn, Min, Max;
      hold := false;
      if ColorOf(plan, c, d) == Green && CountOn(stopped, d) >= plan.guard.stoppedThreshold {
        var remainingBudget := Max(0.0, plan.guard.maxHold - cycleHoldTime[d]);
        if remainingBudget > 0.0 {
          hold := true;
          SpendHold(d, Min(deltaTime, remainingBudget));
        } else if d !in exhaustedArms {
          NoteExhausted(d);
        }
      }
    }

    method SpendHold(d: Direction, seconds: real)
      requires Valid()
      modifies this`cycleHoldTime, this`cumulativeHoldTime, this`holdActivations
      ensures Valid()
      ensures cycleHoldTime == old(cycleHoldTime)[d := old(cycleHoldTime)[d] + seconds]
      ensures cumulativeHoldTime == old(cumulativeHoldTime)[d := old(cumulativeHoldTime)[d] + seconds]
      ensures holdActivations == if d in currentlyHeld then old(holdActivations)
                                 else old(holdActivations)[d := old(holdActivations)[d] + 1]
    {
      cycleHoldTime := cycleHoldTime[d := cycleHoldTime[d] + seconds];
      cumulativeHoldTime := cumulativeHoldTime[d := cumulativeHoldTime[d] + seconds];
      if d !in currentlyHeld {
        holdActivations := holdActivations[d := holdActivations[d] + 1];
      }
    }

    method NoteExhausted(d: Direction)
      requires Valid()
      modifies this`exhaustedArms, this`budgetExhaustions, this`exhaustedThisTick
      ensures Valid()
      ensures exhaustedArms == old(exhaustedArms) + {d} && exhaustedThisTick == old(exhaustedThisTick) + {d}
      ensures budgetExhaustions == old(budgetExhaustions)[d := old(budgetExhaustions)[d] + 1]
    {
      exhaustedArms := exhaustedArms + {d};
      budgetExhaustions := budgetExhaustions[d := budgetExhaustions[d] + 1];
      exhaustedThisTick := exhaustedThisTick + {d};
    }
  }
}
