/** The phase cursor of an entry-metering plan: carry-over advance, offset and early cuts. */
module MeteringCursor {
  import opened RealMath
  import opened Phases

  /** One green of the plan: the entries it releases and its bounds. */
  datatype PhaseSpec = PhaseSpec(entries: seq<Direction>, green: real, minGreen: real, maxGreen: real)

  datatype GuardConfig = GuardConfig(enabled: bool, stoppedThreshold: int, maxHold: real)

  datatype CapConfig = CapConfig(enabled: bool, vehicles: int)

  datatype MeteringPlan = MeteringPlan(
    phases: Plan, specs: seq<PhaseSpec>, specOf: seq<nat>, metered: set<Direction>,
    yellow: real, allRed: real, offset: real, cycleDuration: real, guard: GuardConfig, cap: CapConfig)

  /** What building a plan establishes: positive phases, and every green one of its spec. */
  ghost predicate PlanOk(plan: MeteringPlan) {
    && plan.phases != [] && AllPositive(plan.phases) && plan.cycleDuration == Cycle(plan.phases) > 0.0
    && |plan.specOf| == |plan.phases| && plan.offset >= 0.0 && plan.guard.maxHold >= 0.0
    && (forall i :: 0 <= i < |plan.phases| ==> plan.specOf[i] < |plan.specs|)
    && (forall i :: 0 <= i < |plan.phases| && plan.phases[i].IsGreen() ==> GreenOfSpec(plan, i))
  }

  predicate GreenOfSpec(plan: MeteringPlan, i: nat)
    requires i < |plan.phases| && i < |plan.specOf| && plan.specOf[i] < |plan.specs|
  {
    var spec := plan.specs[plan.specOf[i]];
    plan.phases[i].duration == spec.green && 0.0 < spec.minGreen <= spec.green
  }

  lemma {:induction false} PositiveCycle(phases: Plan, k: nat)
    requires AllPositive(phases) && 0 < k <= |phases|
    ensures Before(phases, k) > 0.0
    decreases k
  {
    if k > 1 {
      PositiveCycle(phases, k - 1);
    }
  }

  /** The shortest phase, which bounds how many hand-overs one advance can make. */
  function Shortest(phases: Plan): (m: real)
    requires phases != [] && AllPositive(phases)
    ensures m > 0.0 && forall i :: 0 <= i < |phases| ==> m <= phases[i].duration
  {
    var last := phases[|phases| - 1].duration;
    if |phases| == 1 then last else Min(Shortest(phases[..|phases| - 1]), last)
  }

  /** Where a cursor is `dt` seconds on: its position moves by exactly `dt`. A one-phase plan
      starts that phase over and over and counts no cycles. */
  ghost function Advanced(phases: Plan, c: Cursor, dt: real): (r: Cursor)
    requires AllPositive(phases) && Settled(phases, c) && dt >= 0.0
    ensures Settled(phases, r)
    ensures |phases| >= 2 ==> Position(phases, r) == Position(phases, c) + dt
    ensures |phases| == 1 ==> r.t == Mod(c.t + dt, phases[0].duration) && r.cycle == c.cycle
  {
    if |phases| == 1 then Cursor(0, Mod(c.t + dt, phases[0].duration), c.cycle)
    else
      PositiveCycle(phases, |phases|);
      SettledOffset(phases, c);
      TimesMono(Cycle(phases), 0, c.cycle);
      At(phases, Position(phases, c) + dt)
  }

  predicate ShorterThanPhases(dt: real, phases: Plan) {
    forall i :: 0 <= i < |phases| ==> dt < phases[i].duration
  }

  /** A step shorter than every phase hands over at most once. */
  lemma AdvancedByAtMostOne(phases: Plan, c: Cursor, dt: real)
    requires AllPositive(phases) && Settled(phases, c) && dt >= 0.0 && ShorterThanPhases(dt, phases)
    ensures Advanced(phases, c, dt) == if c.t + dt < phases[c.idx].duration then c.(t := c.t + dt)
                                       else Carry(phases, c.(t := c.t + dt))
  {
    var moved := c.(t := c.t + dt);
    if |phases| == 1 {
      var dur := phases[0].duration;
      ModUnique(c.t + dt, dur, if c.t + dt < dur then 0 else 1, if c.t + dt < dur then c.t + dt else c.t + dt - dur);
    } else if c.t + dt < phases[c.idx].duration {
      SettledUnique(phases, Advanced(phases, c, dt), moved);
    } else {
      CarryKeepsPosition(phases, moved);
      SettledUnique(phases, Advanced(phases, c, dt), Carry(phases, moved));
    }
  }

  /** Time never runs back over a cycle boundary. */
  lemma CyclesNeverFall(phases: Plan, c: Cursor, dt: real)
    requires AllPositive(phases) && Settled(phases, c) && dt >= 0.0
    ensures Advanced(phases, c, dt).cycle >= c.cycle
  {
    var r := Advanced(phases, c, dt);
    if |phases| >= 2 && r.cycle < c.cycle {
      PositiveCycle(phases, |phases|);
      TimesMono(Cycle(phases), r.cycle + 1, c.cycle);
      SettledOffset(phases, c);
      SettledOffset(phases, r);
      assert false;
    }
  }

  /** The green an early cut left unused, and the phase it was cut from. */
  datatype Saving = Saving(phase: nat, seconds: real)

  function Sum(s: seq<Saving>): real {
    if s == [] then 0.0 else Sum(s[..|s| - 1]) + s[|s| - 1].seconds
  }

  /** The same position; on a one-phase plan, the same remainder in the same cycle. */
  predicate SamePlace(phases: Plan, a: Cursor, b: Cursor)
    requires AllPositive(phases) && a.idx < |phases| && b.idx < |phases|
  {
    if |phases| == 1 then Mod(a.t, phases[0].duration) == Mod(b.t, phases[0].duration) && a.cycle == b.cycle
    else Position(phases, a) == Position(phases, b)
  }

  lemma CarryKeepsPlace(phases: Plan, a: Cursor, b: Cursor)
    requires AllPositive(phases) && a.idx < |phases| && b.idx < |phases| && SamePlace(phases, a, b)
    ensures SamePlace(phases, Carry(phases, a), b)
  {
    if |phases| == 1 {
      ModShift(a.t, phases[0].duration, -1);
    } else {
      CarryKeepsPosition(phases, a);
    }
  }

  lemma PlaceIsAdvanced(phases: Plan, start: Cursor, dt: real, c: Cursor)
    requires AllPositive(phases) && Settled(phases, start) && dt >= 0.0 && Settled(phases, c)
    requires SamePlace(phases, c, start.(t := start.t + dt))
    ensures c == Advanced(phases, start, dt)
  {
    if |phases| == 1 {
      ModUnique(c.t, phases[0].duration, 0, c.t);
    } else {
      SettledUnique(phases, c, Advanced(phases, start, dt));
    }
  }

  class MeteringPhaseCursor {
    const plan: MeteringPlan
    var currentPhaseIdx: nat
    var timeInCurrentState: real
    var cycleNumber: nat
    /** Seconds advanced since the last reset, and what each early cut saved. */
    ghost var elapsed: real
    ghost var saves: seq<Saving>

    ghost function State(): Cursor
      reads this
    {
      Cursor(currentPhaseIdx, timeInCurrentState, cycleNumber)
    }

    /** The cursor is inside its phase, and no time is lost: its position is the offset, the
        time advanced and the green saved by cuts. A one-phase plan counts no cycles. */
    ghost predicate Valid()
      reads this
    {
      && PlanOk(plan)
      && Settled(plan.phases, State())
      && elapsed >= 0.0
      && (|plan.phases| == 1 ==> cycleNumber == 0)
      && (|plan.phases| >= 2 ==>
            Position(plan.phases, State()) == Mod(plan.offset, Cycle(plan.phases)) + elapsed + Sum(saves))
    }

    constructor (plan: MeteringPlan)
      requires PlanOk(plan)
      ensures Valid() && this.plan == plan && elapsed == 0.0 && saves == []
      ensures State() == At(plan.phases, Mod(plan.offset, Cycle(plan.phases)))
    {
      this.plan := plan;
      currentPhaseIdx, timeInCurrentState, cycleNumber := 0, 0.0, 0;
      elapsed, saves := 0.0, [];
      new;
      Reset();
    }

    method Reset()
      requires PlanOk(plan)
      modifies this
      ensures Valid() && elapsed == 0.0 && saves == []
      ensures NonNegative(plan.phases) && Cycle(plan.phases) > 0.0
      ensures State() == At(plan.phases, Mod(plan.offset, Cycle(plan.phases)))
    {
      currentPhaseIdx, timeInCurrentState, cycleNumber := 0, 0.0, 0;
      elapsed, saves := 0.0, [];
      ModUnique(0.0, Cycle(plan.phases), 0, 0.0);
      if plan.offset > 0.0 && plan.cycleDuration > 0.0 {
        ghost var wraps := AdvanceBy(Mod(plan.offset, plan.cycleDuration));
        NoWrapWithin(plan.phases, State(), wraps, Mod(plan.offset, plan.cycleDuration));
      }
      OnSchedule(plan.phases, State(), Mod(plan.offset, Cycle(plan.phases)));
    }

    /** Steps the cursor `seconds` on; `wraps` is how often it passed the end of the plan. */
    method AdvanceBy(seconds: real) returns (ghost wraps: nat)
      requires PlanOk(plan) && Settled(plan.phases, State()) && seconds >= 0.0
      modifies this`currentPhaseIdx, this`timeInCurrentState, this`cycleNumber
      ensures Settled(plan.phases, State())
      ensures Before(plan.phases, currentPhaseIdx) + timeInCurrentState
              == old(Before(plan.phases, currentPhaseIdx) + timeInCurrentState)
                  + seconds - Times(plan.cycleDuration, wraps)
      ensures cycleNumber == old(cycleNumber) + if |plan.phases| >= 2 then wraps else 0
    {
      var remaining := seconds;
      wraps := 0;
      while remaining > 0.0
        invariant Settled(plan.phases, State()) && remaining >= 0.0
        invariant Before(plan.phases, currentPhaseIdx) + timeInCurrentState + remaining
                  == old(Before(plan.phases, currentPhaseIdx) + timeInCurrentState)
                      + seconds - Times(plan.cycleDuration, wraps)
        invariant cycleNumber == old(cycleNumber) + if |plan.phases| >= 2 then wraps else 0
        decreases ((Before(plan.phases, currentPhaseIdx) + timeInCurrentState + remaining) / plan.cycleDuration).Floor,
                  |plan.phases| - currentPhaseIdx, if remaining > 0.0 then 1 else 0
      {
        var timeLeft := plan.phases[currentPhaseIdx].duration - timeInCurrentState;
        if remaining < timeLeft {
          timeInCurrentState := timeInCurrentState + remaining;
          remaining := 0.0;
        } else {
          ghost var total := Before(plan.phases, currentPhaseIdx) + timeInCurrentState + remaining;
          remaining := remaining - timeLeft;
          timeInCurrentState := 0.0;
          var oldIdx := currentPhaseIdx;
          currentPhaseIdx := Next(currentPhaseIdx, |plan.phases|);
          if currentPhaseIdx < oldIdx {
            cycleNumber := cycleNumber + 1;
          }
          if currentPhaseIdx == 0 {
            FloorFalls(total, plan.cycleDuration, plan.cycleDuration);
            wraps := wraps + 1;
          }
        }
      }
    }

    /** One advance. A negative step is refused; any other lands on the periodic schedule. */
    method Advance(deltaTime: real) returns (ok: bool)
      requires Valid()
      modifies this
      ensures Valid() && saves == old(saves) && ok == (deltaTime >= 0.0)
      ensures !ok ==> State() == old(State()) && elapsed == old(elapsed)
      ensures ok ==> elapsed == old(elapsed) + deltaTime && State() == Advanced(plan.phases, old(State()), deltaTime)
    {
      if deltaTime < 0.0 {
        return false;
      }
      ghost var start := State();
      elapsed := elapsed + deltaTime;
      timeInCurrentState := timeInCurrentState + deltaTime;
      ghost var moved := State();
      while plan.phases[currentPhaseIdx].duration > 0.0
            && timeInCurrentState >= plan.phases[currentPhaseIdx].duration
        invariant currentPhaseIdx < |plan.phases| && timeInCurrentState >= 0.0
        invariant elapsed == old(elapsed) + deltaTime && saves == old(saves)
        invariant SamePlace(plan.phases, State(), moved)
        decreases (timeInCurrentState / Shortest(plan.phases)).Floor
      {
        ghost var before := State();
        FloorFalls(timeInCurrentState, plan.phases[currentPhaseIdx].duration, Shortest(plan.phases));
        timeInCurrentState := timeInCurrentState - plan.phases[currentPhaseIdx].duration;
        var oldIdx := currentPhaseIdx;
        currentPhaseIdx := Next(currentPhaseIdx, |plan.phases|);
        if currentPhaseIdx < oldIdx {
          cycleNumber := cycleNumber + 1;
        }
        assert State() == Carry(plan.phases, before);
        CarryKeepsPlace(plan.phases, before, moved);
      }
      PlaceIsAdvanced(plan.phases, start, deltaTime, State());
      ok := true;
    }

    /** Ends the shown green at once; the unused green is saved, not lost. */
    method EndGreenEarly() returns (ended: bool)
      requires Valid()
      modifies this
      ensures Valid() && elapsed == old(elapsed)
      ensures ended == plan.phases[old(currentPhaseIdx)].IsGreen()
      ensures !ended ==> State() == old(State()) && saves == old(saves)
      ensures ended ==>
                && State() == Carry(plan.phases, old(State()).(t := plan.phases[old(currentPhaseIdx)].duration))
                && saves == old(saves) + [Saving(old(currentPhaseIdx), plan.phases[old(currentPhaseIdx)].duration
                                                                       - old(timeInCurrentState))]
    {
      if !plan.phases[currentPhaseIdx].IsGreen() {
        return false;
      }
      ghost var full := State().(t := plan.phases[currentPhaseIdx].duration);
      saves := saves + [Saving(currentPhaseIdx, full.t - timeInCurrentState)];
      assert saves[..|saves| - 1] == old(saves);
      timeInCurrentState := 0.0;
      var oldIdx := currentPhaseIdx;
      currentPhaseIdx := Next(currentPhaseIdx, |plan.phases|);
      if currentPhaseIdx < oldIdx {
        cycleNumber := cycleNumber + 1;
      }
      assert State() == Carry(plan.phases, full);
      if |plan.phases| >= 2 {
        CarryKeepsPosition(plan.phases, full);
      }
      ended := true;
    }
  }

  /** The signal colour of an approach; unmetered arms are always green. */
  function ColorOf(plan: MeteringPlan, c: Cursor, d: Direction): Color
    requires c.idx < |plan.phases|
  {
    if d !in plan.metered then Green
    else if d in plan.phases[c.idx].directions then plan.phases[c.idx].color
    else Red
  }
}
