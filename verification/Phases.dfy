/** Signal phases, plans and the position of a cursor on a cyclic plan. */
module Phases {
  import opened RealMath

  datatype Direction = North | South | East | West

  datatype Turn = Left | Straight | Right | UTurn

  datatype Color = Green | Yellow | Red

  datatype Phase = Phase(name: string, directions: seq<Direction>, turns: seq<Turn>, duration: real, color: Color)
  {
    predicate IsGreen() { color == Green }
  }

  type Plan = seq<Phase>

  /** The index after `i` on a cyclic plan of `n` phases. */
  function Next(i: nat, n: nat): (r: nat)
    requires i < n
    ensures r == if i + 1 == n then 0 else i + 1
  {
    (i + 1) % n
  }

  /** An index that has run past the end of the plan at most once, taken back into it. */
  function Wrap(i: nat, n: nat): (r: nat)
    requires i < 2 * n
    ensures r < n && (r == i || r == i - n)
  {
    if i < n then i else i - n
  }

  /** Total duration of the first `k` phases. */
  function Before(phases: Plan, k: nat): real
    requires k <= |phases|
  {
    if k == 0 then 0.0 else Before(phases, k - 1) + phases[k - 1].duration
  }

  function Cycle(phases: Plan): real {
    Before(phases, |phases|)
  }

  predicate NonNegative(phases: Plan) {
    forall i :: 0 <= i < |phases| ==> phases[i].duration >= 0.0
  }

  predicate AllPositive(phases: Plan) {
    forall i :: 0 <= i < |phases| ==> phases[i].duration > 0.0
  }

  lemma {:induction false} BeforeMono(phases: Plan, i: nat, j: nat)
    requires NonNegative(phases) && i <= j <= |phases|
    ensures 0.0 <= Before(phases, i) <= Before(phases, j)
    decreases j
  {
    if i < j {
      BeforeMono(phases, i, j - 1);
    } else if j > 0 {
      BeforeMono(phases, i - 1, j - 1);
    }
  }

  // ---------------------------------------------------------------------
  // Cursor positions
  // ---------------------------------------------------------------------

  /** Where a controller stands: phase index, seconds into it, cycles completed. */
  datatype Cursor = Cursor(idx: nat, t: real, cycle: nat)

  /** The plan seconds a cursor has behind it, counted from the first phase of cycle 0. */
  function Position(phases: Plan, c: Cursor): real
    requires c.idx <= |phases|
  {
    Times(Cycle(phases), c.cycle) + Before(phases, c.idx) + c.t
  }

  /** The cursor is strictly inside its phase, so the phase is not zero-length. */
  predicate Settled(phases: Plan, c: Cursor) {
    c.idx < |phases| && 0.0 <= c.t < phases[c.idx].duration
  }

  lemma SettledOffset(phases: Plan, c: Cursor)
    requires NonNegative(phases) && Settled(phases, c)
    ensures 0.0 <= Before(phases, c.idx) + c.t < Before(phases, c.idx + 1) <= Cycle(phases)
  {
    BeforeMono(phases, 0, c.idx);
    BeforeMono(phases, c.idx + 1, |phases|);
  }

  /** A position determines the settled cursor: phase, time in it and cycle number. */
  lemma SettledUnique(phases: Plan, a: Cursor, b: Cursor)
    requires NonNegative(phases) && Settled(phases, a) && Settled(phases, b)
    requires Position(phases, a) == Position(phases, b)
    ensures a == b
  {
    SettledOffset(phases, a);
    SettledOffset(phases, b);
    var c := Cycle(phases);
    TimesIsProduct(c, a.cycle);
    TimesIsProduct(c, b.cycle);
    ModUnique(Position(phases, a), c, a.cycle, Before(phases, a.idx) + a.t);
    ModUnique(Position(phases, b), c, b.cycle, Before(phases, b.idx) + b.t);
    if a.idx < b.idx {
      BeforeMono(phases, a.idx + 1, b.idx);
      assert false;
    } else if b.idx < a.idx {
      BeforeMono(phases, b.idx + 1, a.idx);
      assert false;
    }
  }

  /** Hand over to the next phase, carrying the time beyond the ended one. */
  function Carry(phases: Plan, c: Cursor): Cursor
    requires c.idx < |phases|
  {
    var idx := Next(c.idx, |phases|);
    Cursor(idx, c.t - phases[c.idx].duration, if idx < c.idx then c.cycle + 1 else c.cycle)
  }

  /** Handing over moves no time, on a plan of at least two phases. */
  lemma CarryKeepsPosition(phases: Plan, c: Cursor)
    requires c.idx < |phases| && |phases| >= 2
    ensures Position(phases, Carry(phases, c)) == Position(phases, c)
  {
  }

  /** The phase whose half-open interval holds `r`, searching from phase `k`. */
  function Locate(phases: Plan, r: real, k: nat): (idx: nat)
    requires k < |phases| && Before(phases, k) <= r < Cycle(phases)
    ensures k <= idx < |phases| && Before(phases, idx) <= r < Before(phases, idx + 1)
    decreases |phases| - k
  {
    if k + 1 == |phases| || r < Before(phases, k + 1) then k else Locate(phases, r, k + 1)
  }

  /** The closed-form periodic schedule: where the plan is `x` seconds after its start. */
  function At(phases: Plan, x: real): (c: Cursor)
    requires NonNegative(phases) && Cycle(phases) > 0.0 && x >= 0.0
    ensures Settled(phases, c) && Position(phases, c) == x
    ensures Before(phases, c.idx) + c.t == Mod(x, Cycle(phases))
  {
    var p := Cycle(phases);
    assert |phases| > 0;
    assert (x / p).Floor >= 0;
    var r := Mod(x, p);
    TimesIsProduct(p, (x / p).Floor);
    var idx := Locate(phases, r, 0);
    Cursor(idx, r - Before(phases, idx), (x / p).Floor)
  }

  lemma OnSchedule(phases: Plan, c: Cursor, x: real)
    requires NonNegative(phases) && Cycle(phases) > 0.0 && x >= 0.0
    requires Settled(phases, c) && Position(phases, c) == x
    ensures c == At(phases, x)
  {
    SettledUnique(phases, c, At(phases, x));
  }

  /** Exactly one phase's half-open interval holds a moment of the cycle. */
  lemma OnePhaseAt(phases: Plan, r: real) returns (idx: nat)
    requires NonNegative(phases) && 0.0 <= r < Cycle(phases)
    ensures idx < |phases|
    ensures forall i :: 0 <= i < |phases| ==> (Before(phases, i) <= r < Before(phases, i + 1) <==> i == idx)
  {
    idx := Locate(phases, r, 0);
    forall i | 0 <= i < |phases| && Before(phases, i) <= r < Before(phases, i + 1)
      ensures i == idx
    {
      if i < idx {
        BeforeMono(phases, i + 1, idx);
      } else if idx < i {
        BeforeMono(phases, idx + 1, i);
      }
    }
  }

  /** An offset shifts the schedule in time and does nothing else: the shown phase
      depends only on `(offset + elapsed)` modulo the cycle. */
  lemma OffsetIsATimeShift(phases: Plan, offset: real, elapsed: real)
    requires NonNegative(phases) && Cycle(phases) > 0.0 && elapsed >= 0.0
    ensures Mod(offset, Cycle(phases)) + elapsed >= 0.0
    ensures var c := At(phases, Mod(offset, Cycle(phases)) + elapsed);
            Before(phases, c.idx) + c.t == Mod(offset + elapsed, Cycle(phases))
  {
    var p := Cycle(phases);
    var k := (offset / p).Floor;
    ModShift(Mod(offset, p) + elapsed, p, k);
    assert Mod(offset, p) + elapsed + p * (k as real) == offset + elapsed;
  }

  /** A cursor less than one cycle from the start has not passed the end of its plan. */
  lemma NoWrapWithin(phases: Plan, c: Cursor, wraps: nat, seconds: real)
    requires NonNegative(phases) && c.idx < |phases| && c.t >= 0.0
    requires Before(phases, c.idx) + c.t == seconds - Times(Cycle(phases), wraps) && seconds < Cycle(phases)
    ensures wraps == 0
  {
    BeforeMono(phases, 0, c.idx);
    BeforeMono(phases, 0, |phases|);
    if wraps > 0 {
      TimesMono(Cycle(phases), 1, wraps);
      assert false;
    }
  }
}
