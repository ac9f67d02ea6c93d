/** The fixed-time signal and the metering cursor are written separately and keep the same time. */
module CursorAgreement {
  import opened RealMath
  import opened Phases
  import opened FixedTimeSignal
  import opened MeteringCursor

  /** Both cursors on the same all-positive plan, standing at the same place. */
  ghost predicate InStep(signal: FixedTimeSignalController, cursor: MeteringPhaseCursor)
    reads signal, cursor
  {
    && signal.Valid() && cursor.Valid() && signal.phases == cursor.plan.phases
    && signal.State() == cursor.State()
  }

  /** Stepped by the same tick, shorter than a cycle, they end in the same phase, at the same
      time in it, with the same cycle number. */
  method StepTogether(signal: FixedTimeSignalController, cursor: MeteringPhaseCursor, deltaTime: real)
    requires InStep(signal, cursor) && 0.0 <= deltaTime < Cycle(signal.phases)
    modifies signal, cursor
    ensures InStep(signal, cursor)
    ensures signal.elapsed == old(signal.elapsed) + deltaTime && cursor.elapsed == old(cursor.elapsed) + deltaTime
  {
    ghost var start := cursor.State();
    signal.Update(deltaTime);
    var ok := cursor.Advance(deltaTime);
    PlaceIsAdvanced(cursor.plan.phases, start, deltaTime, signal.State()) by {
      if |signal.phases| == 1 {
        OneCycle(signal.phases);
        ModShift(start.t + deltaTime, signal.phases[0].duration,
                 if start.t + deltaTime < signal.phases[0].duration then 0 else -1);
      }
    }
  }

  lemma OneCycle(phases: Plan)
    requires |phases| == 1
    ensures Cycle(phases) == phases[0].duration
  {
    assert Before(phases, 1) == Before(phases, 0) + phases[0].duration;
  }

  /** From reset with the same offset, and over any run of ticks shorter than a cycle. */
  method RunTogether(plan: MeteringPlan, ticks: seq<real>)
    returns (signal: FixedTimeSignalController, cursor: MeteringPhaseCursor)
    requires PlanOk(plan) && forall k :: 0 <= k < |ticks| ==> 0.0 <= ticks[k] < Cycle(plan.phases)
    ensures InStep(signal, cursor) && signal.phases == plan.phases && cursor.plan == plan
    ensures signal.offset == plan.offset
  {
    signal := new FixedTimeSignalController(plan.phases, plan.offset);
    cursor := new MeteringPhaseCursor(plan);
    OnSchedule(plan.phases, signal.State(), Mod(plan.offset, Cycle(plan.phases)));
    for k := 0 to |ticks|
      invariant InStep(signal, cursor) && signal.phases == plan.phases && cursor.plan == plan
      invariant signal.offset == plan.offset
      invariant fresh(signal) && fresh(cursor)
    {
      StepTogether(signal, cursor, ticks[k]);
    }
  }
}
