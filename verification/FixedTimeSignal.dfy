/** The fixed-time signal: a cursor that steps through its phase plan tick by tick. */
module FixedTimeSignal {
  import opened RealMath
  import opened Phases

  /** Seconds spanned by `j` consecutive phases from `i`, wrapping once at the plan's end. */
  function Span(phases: Plan, i: nat, j: nat): real
    requires i < |phases| && j <= |phases|
  {
    if i + j <= |phases| then Before(phases, i + j) - Before(phases, i)
    else Cycle(phases) - Before(phases, i) + Before(phases, i + j - |phases|)
  }

  lemma SpanBounds(phases: Plan, i: nat, j: nat)
    requires NonNegative(phases) && i < |phases| && j <= |phases|
    ensures 0.0 <= Span(phases, i, j) <= Cycle(phases)
  {
    BeforeMono(phases, 0, i);
    BeforeMono(phases, i, |phases|);
    if i + j <= |phases| {
      BeforeMono(phases, i, i + j);
      BeforeMono(phases, i + j, |phases|);
    } else {
      BeforeMono(phases, i + j - |phases|, i);
    }
  }

  /** A zero-length phase begins at the moment `r` of the cycle. */
  predicate ZeroPhaseAt(phases: Plan, r: real) {
    exists i :: 0 <= i < |phases| && phases[i].duration == 0.0 && Before(phases, i) == r
  }

  /** A cursor that entered its phase out of a positive one, or has moved within it, stands in
      the first phase that reaches its moment; it is inside that phase unless a zero-length one
      begins there. */
  lemma StandsFirst(phases: Plan, c: Cursor)
    requires NonNegative(phases) && c.idx < |phases| && 0.0 <= c.t <= phases[c.idx].duration
    requires c.t < phases[c.idx].duration || c.t == 0.0
    requires c.t == 0.0 && c.idx > 0 ==> phases[c.idx - 1].duration > 0.0
    ensures forall i :: 0 <= i < c.idx ==> Before(phases, i) < Before(phases, c.idx) + c.t
    ensures Settled(phases, c) <==> !ZeroPhaseAt(phases, Before(phases, c.idx) + c.t)
  {
    var r := Before(phases, c.idx) + c.t;
    forall i | 0 <= i < c.idx
      ensures Before(phases, i) < r
    {
      BeforeMono(phases, i, c.idx - 1);
    }
    if Settled(phases, c) {
      forall i | 0 <= i < |phases| && phases[i].duration == 0.0
        ensures Before(phases, i) != r
      {
        if i > c.idx {
          BeforeMono(phases, c.idx + 1, i);
        }
      }
    } else {
      assert phases[c.idx].duration == 0.0 && Before(phases, c.idx) == r;
    }
  }

  class FixedTimeSignalController {
    const phases: Plan
    const offset: real
    var timeInCurrentState: real
    var cycleNumber: nat
    var currentPhaseIdx: nat
    /** Simulated seconds since the last reset. */
    ghost var elapsed: real

    ghost function State(): Cursor
      reads this
    {
      Cursor(currentPhaseIdx, timeInCurrentState, cycleNumber)
    }

    /** What the constructor relies on: a plan with a positive cycle. */
    ghost predicate PlanOk() {
      NonNegative(phases) && Cycle(phases) > 0.0
    }

    /** The time since reset, shifted by the offset, is the cursor's position. A plan of
        one phase never counts a cycle, so the law needs at least two. */
    ghost predicate Valid()
      reads this
    {
      && PlanOk()
      && currentPhaseIdx < |phases|
      && timeInCurrentState >= 0.0
      && elapsed >= 0.0
      && (|phases| == 1 ==> cycleNumber == 0)
      && (|phases| >= 2 ==> Position(phases, State()) == Mod(offset, Cycle(phases)) + elapsed)
    }

    constructor (phases: Plan, offset: real)
      requires NonNegative(phases) && Cycle(phases) > 0.0
      ensures Valid() && this.phases == phases && this.offset == offset && elapsed == 0.0 && cycleNumber == 0
      ensures Before(phases, currentPhaseIdx) + timeInCurrentState == Mod(offset, Cycle(phases))
      ensures 0.0 <= timeInCurrentState
      ensures timeInCurrentState < phases[currentPhaseIdx].duration || timeInCurrentState == 0.0
      ensures forall i :: 0 <= i < currentPhaseIdx ==> Before(phases, i) < Mod(offset, Cycle(phases))
      ensures Settled(phases, State()) <==> !ZeroPhaseAt(phases, Mod(offset, Cycle(phases)))
    {
      this.phases, this.offset := phases, offset;
      timeInCurrentState, cycleNumber, currentPhaseIdx := 0.0, 0, 0;
      elapsed := 0.0;
      new;
      Reset();
    }

    /** Back to time zero with the offset applied. */
    method Reset()
      requires PlanOk()
      modifies this
      ensures Valid() && elapsed == 0.0
      ensures Before(phases, currentPhaseIdx) + timeInCurrentState == Mod(offset, Cycle(phases))
      ensures cycleNumber == 0
      ensures 0.0 <= timeInCurrentState
      ensures timeInCurrentState < phases[currentPhaseIdx].duration || timeInCurrentState == 0.0
      ensures forall i :: 0 <= i < currentPhaseIdx ==> Before(phases, i) < Mod(offset, Cycle(phases))
      ensures Settled(phases, State()) <==> !ZeroPhaseAt(phases, Mod(offset, Cycle(phases)))
    {
      timeInCurrentState, cycleNumber, currentPhaseIdx := 0.0, 0, 0;
      elapsed := 0.0;
      if offset != 0.0 {
        ghost var wraps := AdvanceBy(Mod(offset, Cycle(phases)));
        NoWrapWithin(phases, State(), wraps, Mod(offset, Cycle(phases)));
      } else {
        ModUnique(0.0, Cycle(phases), 0, 0.0);
      }
      StandsFirst(phases, State());
    }

    /** Steps the cursor `seconds` on; `wraps` is how often it passed the end of the plan. */
    method AdvanceBy(seconds: real) returns (ghost wraps: nat)
      requires PlanOk() && seconds >= 0.0
      requires currentPhaseIdx < |phases| && 0.0 <= timeInCurrentState <= phases[currentPhaseIdx].duration
      modifies this`timeInCurrentState, this`cycleNumber, this`currentPhaseIdx
      ensures currentPhaseIdx < |phases|
      ensures Before(phases, currentPhaseIdx) + timeInCurrentState
              == old(Before(phases, currentPhaseIdx) + timeInCurrentState) + seconds - Times(Cycle(phases), wraps)
      ensures cycleNumber == old(cycleNumber) + if |phases| >= 2 then wraps else 0
      ensures 0.0 <= timeInCurrentState
      ensures timeInCurrentState < phases[currentPhaseIdx].duration || timeInCurrentState == 0.0 || seconds == 0.0
      ensures timeInCurrentState <= phases[currentPhaseIdx].duration
      ensures seconds > 0.0 && timeInCurrentState == 0.0 && wraps == 0 && currentPhaseIdx > 0
              ==> phases[currentPhaseIdx - 1].duration > 0.0
      ensures seconds == 0.0 ==> State() == old(State())
    {
      var remaining := seconds;
      wraps := 0;
      while remaining > 0.0
        invariant currentPhaseIdx < |phases|
        invariant 0.0 <= timeInCurrentState <= phases[currentPhaseIdx].duration && 0.0 <= remaining <= seconds
        invariant Before(phases, currentPhaseIdx) + timeInCurrentState + remaining
                  == old(Before(phases, currentPhaseIdx) + timeInCurrentState) + seconds - Times(Cycle(phases), wraps)
        invariant cycleNumber == old(cycleNumber) + if |phases| >= 2 then wraps else 0
        invariant remaining == 0.0 ==> timeInCurrentState < phases[currentPhaseIdx].duration
                                       || timeInCurrentState == 0.0 || seconds == 0.0
        invariant seconds > 0.0 && remaining == 0.0 && timeInCurrentState == 0.0 && currentPhaseIdx > 0
                  ==> phases[currentPhaseIdx - 1].duration > 0.0
        invariant seconds == 0.0 ==> State() == old(State())
        decreases ((Before(phases, currentPhaseIdx) + timeInCurrentState + remaining) / Cycle(phases)).Floor,
                  |phases| - currentPhaseIdx, if remaining > 0.0 then 1 else 0
      {
        var phase := phases[currentPhaseIdx];
        var timeLeft := phase.duration - timeInCurrentState;
        if remaining < timeLeft {
          timeInCurrentState := timeInCurrentState + remaining;
          remaining := 0.0;
        } else {
          ghost var total := Before(phases, currentPhaseIdx) + timeInCurrentState + remaining;
          remaining := remaining - timeLeft;
          timeInCurrentState := 0.0;
          var oldIdx := currentPhaseIdx;
          currentPhaseIdx := Next(currentPhaseIdx, |phases|);
          if currentPhaseIdx < oldIdx {
            cycleNumber := cycleNumber + 1;
          }
          if currentPhaseIdx == 0 {
            FloorFalls(total, Cycle(phases), Cycle(phases));
            wraps := wraps + 1;
          }
        }
      }
    }

    /** One tick. The position moves by exactly the tick, and the cursor ends inside a
        phase exactly when the tick spans less than the rest of the phase plus one cycle. */
    method Update(deltaTime: real)
      requires Valid() && deltaTime >= 0.0
      modifies this
      ensures Valid() && elapsed == old(elapsed) + deltaTime
      ensures |phases| >= 2 ==> Position(phases, State()) == old(Position(phases, State())) + deltaTime
      ensures Settled(phases, State())
              <==> old(timeInCurrentState) + deltaTime < Cycle(phases) + phases[old(currentPhaseIdx)].duration
      ensures |phases| >= 2 && Settled(phases, State())
              ==> State() == At(phases, Mod(offset, Cycle(phases)) + elapsed)
      ensures |phases| == 1 ==> State() == Cursor(0, old(timeInCurrentState) + deltaTime
                - (if old(timeInCurrentState) + deltaTime < phases[0].duration then 0.0 else phases[0].duration), 0)
    {
      elapsed := elapsed + deltaTime;
      timeInCurrentState := timeInCurrentState + deltaTime;
      ghost var start, total := currentPhaseIdx, timeInCurrentState;
      ghost var pos := Position(phases, State());
      ghost var j := HandOverPhases();
      EndsInside(phases, start, total, j, State());
      hide Position, Span, Wrap;
      if |phases| == 1 {
        OnlyPhase(phases);
      }
      if |phases| >= 2 && Settled(phases, State()) {
        OnSchedule(phases, State(), Mod(offset, Cycle(phases)) + elapsed);
      }
    }

    /** Ends the phases whose time is used up, at most as many as the plan has: `j` of them. */
    method HandOverPhases() returns (ghost j: nat)
      requires PlanOk() && currentPhaseIdx < |phases| && timeInCurrentState >= 0.0
      modifies this`timeInCurrentState, this`currentPhaseIdx, this`cycleNumber
      ensures j <= |phases| && currentPhaseIdx == Wrap(old(currentPhaseIdx) + j, |phases|)
      ensures timeInCurrentState == old(timeInCurrentState) - Span(phases, old(currentPhaseIdx), j) >= 0.0
      ensures j < |phases| ==> timeInCurrentState < phases[currentPhaseIdx].duration
      ensures if |phases| >= 2 then Position(phases, State()) == old(Position(phases, State()))
              else cycleNumber == old(cycleNumber)
    {
      ghost var start := currentPhaseIdx;
      var n := |phases|;
      var k := 0;
      while k < n && timeInCurrentState >= phases[currentPhaseIdx].duration
        invariant 0 <= k <= n && currentPhaseIdx == Wrap(start + k, n)
        invariant timeInCurrentState == old(timeInCurrentState) - Span(phases, start, k) >= 0.0
        invariant if n >= 2 then Position(phases, State()) == old(Position(phases, State()))
                  else cycleNumber == old(cycleNumber)
      {
        ghost var before := State();
        timeInCurrentState := timeInCurrentState - phases[currentPhaseIdx].duration;
        var oldIdx := currentPhaseIdx;
        currentPhaseIdx := Next(currentPhaseIdx, n);
        if currentPhaseIdx < oldIdx {
          cycleNumber := cycleNumber + 1;
        }
        assert State() == Carry(phases, before);
        if n >= 2 {
          CarryKeepsPosition(phases, before);
        }
        StepSpan(phases, start, k);
        k := k + 1;
      }
      j := k;
    }
  }

  /** A one-phase plan is left at most once, for itself. */
  lemma OnlyPhase(phases: Plan)
    requires |phases| == 1
    ensures Span(phases, 0, 0) == 0.0 && Span(phases, 0, 1) == phases[0].duration
    ensures Wrap(0, 1) == 0 == Wrap(1, 1)
  {
    assert Before(phases, 1) == Before(phases, 0) + phases[0].duration;
  }

  /** After `j` hand-overs out of phase `start`, with `total` seconds spent since it began. */
  lemma EndsInside(phases: Plan, start: nat, total: real, j: nat, c: Cursor)
    requires NonNegative(phases) && start < |phases| && j <= |phases|
    requires c.idx == Wrap(start + j, |phases|) && c.t == total - Span(phases, start, j) && c.t >= 0.0
    requires j < |phases| ==> c.t < phases[c.idx].duration
    ensures Settled(phases, c) <==> total < Cycle(phases) + phases[start].duration
  {
    if j < |phases| {
      StepSpan(phases, start, j);
      SpanBounds(phases, start, j + 1);
    }
  }

  lemma StepSpan(phases: Plan, i: nat, j: nat)
    requires i < |phases| && j < |phases|
    ensures Span(phases, i, j + 1) == Span(phases, i, j) + phases[Wrap(i + j, |phases|)].duration
    ensures Wrap(i + j + 1, |phases|) == Next(Wrap(i + j, |phases|), |phases|)
  {
    var w := Wrap(i + j, |phases|);
    assert Before(phases, w + 1) == Before(phases, w) + phases[w].duration;
    if i + j == |phases| {
      assert Before(phases, 0) == 0.0;
    }
  }

  const EXAMPLE: Plan := [
    Phase("ns_green", [North, South], [Straight], 10.0, Green), Phase("all_red", [], [], 0.0, Red),
    Phase("ew_green", [East, West], [Straight], 10.0, Green)]

  /** With an all-red of zero, an offset of 10 seconds makes the reset show it until the first
      update, which passes it. */
  method OffsetShowsZeroLength(deltaTime: real) returns (atReset: nat, afterUpdate: nat)
    requires 0.0 <= deltaTime < 10.0
    ensures EXAMPLE[1].duration == 0.0 && atReset == 1 && afterUpdate == 2
  {
    assert Before(EXAMPLE, 1) == 10.0 && Before(EXAMPLE, 2) == 10.0 && Cycle(EXAMPLE) == 20.0 by {
      assert Before(EXAMPLE, 0) == 0.0;
    }
    ModUnique(10.0, 20.0, 0, 10.0);
    var signal := new FixedTimeSignalController(EXAMPLE, 10.0);
    assert ZeroPhaseAt(EXAMPLE, 10.0);
    atReset := signal.currentPhaseIdx;
    signal.Update(deltaTime);
    ghost var c := Cursor(2, deltaTime, 0);
    SettledUnique(EXAMPLE, signal.State(), c);
    afterUpdate := signal.currentPhaseIdx;
  }
}
