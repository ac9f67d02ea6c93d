/** Splitting a cyclic phase plan into stages: greens followed by their clearance phases. */
module Stages {
  import opened Phases

  /** Phase indices: the greens of one approach group, then the clearances that end it. */
  datatype Stage = Stage(greens: seq<nat>, clearances: seq<nat>)

  datatype PlanError = NoGreen | NoGap | MixedApproaches(k: nat) | NoCoveringYellow(k: nat) | NoAllRed(k: nat)

  datatype Split = Accepted(stages: seq<Stage>) | Rejected(error: PlanError)

  function Prev(i: nat, n: nat): (r: nat)
    requires i < n
    ensures r < n && Next(r, n) == i
  {
    if i == 0 then n - 1 else i - 1
  }

  /** A stage starts at a green whose cyclic predecessor is not green. */
  predicate StartsStage(phases: Plan, i: nat)
    requires i < |phases|
  {
    phases[i].IsGreen() && !phases[Prev(i, |phases|)].IsGreen()
  }

  /** The cyclic run of indices `a, a+1, ..., b-1`, taken back into the plan. */
  ghost predicate IsRun(s: seq<nat>, a: nat, b: nat, n: nat) {
    && a <= b <= 2 * n
    && |s| == b - a
    && forall x :: 0 <= x < |s| ==> s[x] == Wrap(a + x, n)
  }

  /** Strictly increasing, and holding exactly the stage starts below `m`. */
  ghost predicate AreStarts(phases: Plan, starts: seq<nat>, m: nat)
    requires m <= |phases|
  {
    && (forall k :: 0 <= k < |starts| ==> starts[k] < m && StartsStage(phases, starts[k]))
    && (forall j, k :: 0 <= j < k < |starts| ==> starts[j] < starts[k])
    && (forall i :: 0 <= i < m && StartsStage(phases, i) ==> i in starts)
  }

  /** Where the stage that starts at `starts[k]` ends, counted past the plan's end if it wraps. */
  function End(starts: seq<nat>, k: nat, n: nat): nat
    requires k < |starts|
  {
    if k + 1 < |starts| then starts[k + 1] else starts[0] + n
  }

  /** Stage `k`: a non-empty run of greens from its start, then a non-empty run of
      non-greens up to the next stage's start. */
  ghost predicate IsStage(phases: Plan, starts: seq<nat>, k: nat, stage: Stage)
    requires k < |starts| && (forall j :: 0 <= j < |starts| ==> starts[j] < |phases|)
  {
    var n := |phases|;
    var m := starts[k] + |stage.greens|;
    && stage.greens != [] && stage.clearances != []
    && IsRun(stage.greens, starts[k], m, n)
    && IsRun(stage.clearances, m, End(starts, k, n), n)
    && (forall x :: 0 <= x < |stage.greens| ==> phases[stage.greens[x]].IsGreen())
    && (forall x :: 0 <= x < |stage.clearances| ==> !phases[stage.clearances[x]].IsGreen())
  }

  ghost predicate IsSplitAt(phases: Plan, starts: seq<nat>, stages: seq<Stage>) {
    && starts != [] && AreStarts(phases, starts, |phases|)
    && |stages| == |starts|
    && forall k :: 0 <= k < |stages| ==> IsStage(phases, starts, k, stages[k])
  }

  /** `stages` is the plan cut at its stage starts. */
  ghost predicate IsSplit(phases: Plan, stages: seq<Stage>) {
    exists starts :: IsSplitAt(phases, starts, stages)
  }

  // ---------------------------------------------------------------------
  // What a stage must contain before an adaptive signal may run it
  // ---------------------------------------------------------------------

  predicate StageIn(phases: Plan, stage: Stage) {
    && (forall x :: 0 <= x < |stage.greens| ==> stage.greens[x] < |phases|)
    && (forall x :: 0 <= x < |stage.clearances| ==> stage.clearances[x] < |phases|)
  }

  predicate OneApproachGroup(phases: Plan, stage: Stage)
    requires StageIn(phases, stage)
  {
    forall x, y :: 0 <= x < |stage.greens| && 0 <= y < |stage.greens|
      ==> phases[stage.greens[x]].directions == phases[stage.greens[y]].directions
  }

  /** Clearance `x` is a yellow for every approach the stage's greens release. */
  predicate Covers(phases: Plan, stage: Stage, x: nat)
    requires StageIn(phases, stage) && stage.greens != [] && x < |stage.clearances|
  {
    && phases[stage.clearances[x]].color == Yellow
    && forall d :: d in phases[stage.greens[0]].directions ==> d in phases[stage.clearances[x]].directions
  }

  predicate HasCoveringYellow(phases: Plan, stage: Stage)
    requires StageIn(phases, stage) && stage.greens != []
  {
    exists x :: 0 <= x < |stage.clearances| && Covers(phases, stage, x)
  }

  predicate HasAllRed(phases: Plan, stage: Stage)
    requires StageIn(phases, stage)
  {
    exists x :: 0 <= x < |stage.clearances| && phases[stage.clearances[x]].name == "all_red"
  }

  predicate StageSafe(phases: Plan, stage: Stage) {
    && stage.greens != [] && StageIn(phases, stage)
    && OneApproachGroup(phases, stage) && HasCoveringYellow(phases, stage) && HasAllRed(phases, stage)
  }

  /** A stage's greens all have the same approaches. */
  predicate SameApproaches(phases: Plan, stage: Stage) {
    && (forall g :: g in stage.greens ==> g < |phases|)
    && forall g, h :: g in stage.greens && h in stage.greens ==> phases[g].directions == phases[h].directions
  }

  /** One of its clearances is a yellow for every approach of every green. */
  predicate YellowForItsGreens(phases: Plan, stage: Stage) {
    && (forall g :: g in stage.greens ==> g < |phases|)
    && exists y :: && y in stage.clearances && y < |phases| && phases[y].color == Yellow
                   && forall g, d :: g in stage.greens && d in phases[g].directions ==> d in phases[y].directions
  }

  predicate AllRedAmongThem(phases: Plan, stage: Stage) {
    exists y :: y in stage.clearances && y < |phases| && phases[y].name == "all_red"
  }

  predicate AllCleared(phases: Plan, stages: seq<Stage>) {
    forall stage :: stage in stages ==>
      SameApproaches(phases, stage) && YellowForItsGreens(phases, stage) && AllRedAmongThem(phases, stage)
  }

  /** What a safe stage is, in terms of its phases. */
  lemma StageSafeIff(phases: Plan, stage: Stage)
    requires stage.greens != [] && StageIn(phases, stage)
    ensures OneApproachGroup(phases, stage) <==> SameApproaches(phases, stage)
    ensures SameApproaches(phases, stage) ==>
              (HasCoveringYellow(phases, stage) <==> YellowForItsGreens(phases, stage))
    ensures HasAllRed(phases, stage) <==> AllRedAmongThem(phases, stage)
    ensures StageSafe(phases, stage)
            <==> SameApproaches(phases, stage) && YellowForItsGreens(phases, stage) && AllRedAmongThem(phases, stage)
  {
    SameApproachesIff(phases, stage);
    AllRedIff(phases, stage);
    if SameApproaches(phases, stage) {
      YellowIff(phases, stage);
    }
    hide OneApproachGroup, HasCoveringYellow, HasAllRed, SameApproaches, YellowForItsGreens, AllRedAmongThem;
  }

  lemma SameApproachesIff(phases: Plan, stage: Stage)
    requires StageIn(phases, stage)
    ensures OneApproachGroup(phases, stage) <==> SameApproaches(phases, stage)
  {
    if SameApproaches(phases, stage) {
      forall x, y | 0 <= x < |stage.greens| && 0 <= y < |stage.greens|
        ensures phases[stage.greens[x]].directions == phases[stage.greens[y]].directions
      {
        assert stage.greens[x] in stage.greens && stage.greens[y] in stage.greens;
      }
    }
  }

  lemma AllRedIff(phases: Plan, stage: Stage)
    requires StageIn(phases, stage)
    ensures HasAllRed(phases, stage) <==> AllRedAmongThem(phases, stage)
  {
    if x :| 0 <= x < |stage.clearances| && phases[stage.clearances[x]].name == "all_red" {
      assert stage.clearances[x] in stage.clearances;
    }
  }

  lemma YellowIff(phases: Plan, stage: Stage)
    requires stage.greens != [] && StageIn(phases, stage) && SameApproaches(phases, stage)
    ensures HasCoveringYellow(phases, stage) <==> YellowForItsGreens(phases, stage)
  {
    var first := stage.greens[0];
    assert first in stage.greens;
    if x :| 0 <= x < |stage.clearances| && Covers(phases, stage, x) {
      var y := stage.clearances[x];
      assert y in stage.clearances;
      forall g, d | g in stage.greens && d in phases[g].directions
        ensures d in phases[y].directions
      {
        assert phases[g].directions == phases[first].directions;
      }
    }
    if YellowForItsGreens(phases, stage) {
      var y :| && y in stage.clearances && y < |phases| && phases[y].color == Yellow
               && forall g, d :: g in stage.greens && d in phases[g].directions ==> d in phases[y].directions;
      var x :| 0 <= x < |stage.clearances| && stage.clearances[x] == y;
      assert Covers(phases, stage, x);
    }
  }

  /** The plan can be run adaptively: it splits, and every stage clears what it released. */
  ghost predicate Runnable(phases: Plan) {
    exists stages :: IsSplit(phases, stages) && forall k :: 0 <= k < |stages| ==> StageSafe(phases, stages[k])
  }

  // ---------------------------------------------------------------------
  // Facts about splits
  // ---------------------------------------------------------------------

  /** Two strictly increasing lists with the same elements are the same list. */
  lemma {:induction false} StartsUnique(phases: Plan, a: seq<nat>, b: seq<nat>, m: nat)
    requires m <= |phases| && AreStarts(phases, a, m) && AreStarts(phases, b, m)
    ensures a == b
  {
    if m == 0 {
      assert a == [] && b == [];
    } else if StartsStage(phases, m - 1) {
      LastStart(phases, a, m);
      LastStart(phases, b, m);
      hide AreStarts;
      StartsUnique(phases, a[..|a| - 1], b[..|b| - 1], m - 1);
      SameEnds(a, b);
    } else {
      StartsUnique(phases, a, b, m - 1);
    }
  }

  lemma SameEnds(a: seq<nat>, b: seq<nat>)
    requires a != [] && b != [] && a[..|a| - 1] == b[..|b| - 1] && a[|a| - 1] == b[|b| - 1]
    ensures a == b
  {
    assert a == a[..|a| - 1] + [a[|a| - 1]];
    assert b == b[..|b| - 1] + [b[|b| - 1]];
  }

  lemma LastStart(phases: Plan, a: seq<nat>, m: nat)
    requires 0 < m <= |phases| && AreStarts(phases, a, m) && StartsStage(phases, m - 1)
    ensures a != [] && a[|a| - 1] == m - 1 && AreStarts(phases, a[..|a| - 1], m - 1)
  {
    var x :| 0 <= x < |a| && a[x] == m - 1;
    assert a[|a| - 1] < m;
    assert x == |a| - 1;
    var p := a[..|a| - 1];
    forall i | 0 <= i < m - 1 && StartsStage(phases, i)
      ensures i in p
    {
      var y :| 0 <= y < |a| && a[y] == i;
      assert p[y] == i;
    }
  }

  predicate GreenAt(phases: Plan, u: nat)
    requires u < 2 * |phases|
  {
    phases[Wrap(u, |phases|)].IsGreen()
  }

  /** The colours of the plan fix how many greens a stage has. */
  lemma GreensEnd(phases: Plan, starts: seq<nat>, k: nat, stage: Stage)
    requires k < |starts| && (forall j :: 0 <= j < |starts| ==> starts[j] < |phases|)
    requires IsStage(phases, starts, k, stage)
    ensures starts[k] + |stage.greens| < 2 * |phases|
    ensures forall u :: starts[k] <= u < starts[k] + |stage.greens| ==> GreenAt(phases, u)
    ensures !GreenAt(phases, starts[k] + |stage.greens|)
  {
    assert stage.clearances[0] == Wrap(starts[k] + |stage.greens|, |phases|);
    forall u | starts[k] <= u < starts[k] + |stage.greens|
      ensures GreenAt(phases, u)
    {
      assert stage.greens[u - starts[k]] == Wrap(u, |phases|);
    }
  }

  lemma StageUnique(phases: Plan, starts: seq<nat>, k: nat, a: Stage, b: Stage)
    requires k < |starts| && (forall j :: 0 <= j < |starts| ==> starts[j] < |phases|)
    requires IsStage(phases, starts, k, a) && IsStage(phases, starts, k, b)
    ensures a == b
  {
    GreensEnd(phases, starts, k, a);
    GreensEnd(phases, starts, k, b);
    assert |a.greens| == |b.greens|;
  }

  /** A plan splits in at most one way. */
  lemma SplitUnique(phases: Plan, a: seq<Stage>, b: seq<Stage>)
    requires IsSplit(phases, a) && IsSplit(phases, b)
    ensures a == b
  {
    var s :| IsSplitAt(phases, s, a);
    var t :| IsSplitAt(phases, t, b);
    StartsUnique(phases, s, t, |phases|);
    forall k | 0 <= k < |a|
      ensures a[k] == b[k]
    {
      StageUnique(phases, s, k, a[k], b[k]);
    }
  }

  /** A cyclic plan with a green and a non-green has a stage start. */
  lemma {:induction false} StartExists(phases: Plan, g: nat, r: nat) returns (i: nat)
    requires g < |phases| && r < |phases| && phases[g].IsGreen() && !phases[r].IsGreen()
    ensures i < |phases| && StartsStage(phases, i)
    decreases if r <= g then g - r else g + |phases| - r
  {
    var p := Prev(g, |phases|);
    if phases[p].IsGreen() {
      i := StartExists(phases, p, r);
    } else {
      i := g;
    }
  }

  // ---------------------------------------------------------------------
  // Every phase belongs to exactly one stage
  // ---------------------------------------------------------------------

  predicate InStage(stage: Stage, i: nat) {
    i in stage.greens || i in stage.clearances
  }

  /** The index counted from the first stage start, so that stages do not wrap. */
  function Unwrapped(starts: seq<nat>, i: nat, n: nat): nat
    requires starts != []
  {
    if i >= starts[0] then i else i + n
  }

  lemma InStageRange(phases: Plan, starts: seq<nat>, stages: seq<Stage>, k: nat, i: nat)
    requires IsSplitAt(phases, starts, stages) && k < |stages| && i < |phases|
    ensures InStage(stages[k], i)
            <==> starts[k] <= Unwrapped(starts, i, |phases|) < End(starts, k, |phases|)
  {
    var n, st, u := |phases|, stages[k], Unwrapped(starts, i, |phases|);
    var m := starts[k] + |st.greens|;
    assert starts[0] <= starts[k];
    assert k + 1 < |starts| ==> starts[0] < starts[k + 1];
    if starts[k] <= u < End(starts, k, n) {
      if u < m {
        assert st.greens[u - starts[k]] == i;
      } else {
        assert st.clearances[u - m] == i;
      }
    }
    if i in st.greens {
      var x :| 0 <= x < |st.greens| && st.greens[x] == i;
    } else if i in st.clearances {
      var x :| 0 <= x < |st.clearances| && st.clearances[x] == i;
    }
  }

  /** A stage lists no phase twice. */
  lemma StageDistinct(phases: Plan, stages: seq<Stage>, k: nat)
    requires IsSplit(phases, stages) && k < |stages|
    ensures forall x, y :: 0 <= x < y < |stages[k].greens| ==> stages[k].greens[x] != stages[k].greens[y]
    ensures forall x, y :: 0 <= x < y < |stages[k].clearances| ==> stages[k].clearances[x] != stages[k].clearances[y]
  {
    var starts :| IsSplitAt(phases, starts, stages);
    assert IsStage(phases, starts, k, stages[k]);
    assert 0 < k ==> starts[0] < starts[k];
    assert starts[k] < End(starts, k, |phases|) <= starts[k] + |phases|;
  }

  lemma {:induction false} StageHolding(starts: seq<nat>, u: nat, n: nat, j: nat) returns (k: nat)
    requires j < |starts| && starts[j] <= u < starts[0] + n
    ensures j <= k < |starts| && starts[k] <= u < End(starts, k, n)
    decreases |starts| - j
  {
    if j + 1 < |starts| && starts[j + 1] <= u {
      k := StageHolding(starts, u, n, j + 1);
    } else {
      k := j;
    }
  }

  lemma EndsInOrder(starts: seq<nat>, j: nat, k: nat, n: nat)
    requires j < |starts| && k < |starts|
    requires forall x, y :: 0 <= x < y < |starts| ==> starts[x] < starts[y]
    ensures j < k ==> End(starts, j, n) <= starts[k]
  {
    assert j < k && j + 1 < k ==> starts[j + 1] < starts[k];
  }

  /** The stages partition the plan. */
  lemma StagesPartition(phases: Plan, stages: seq<Stage>, i: nat) returns (k: nat)
    requires IsSplit(phases, stages) && i < |phases|
    ensures k < |stages| && InStage(stages[k], i)
    ensures forall j :: 0 <= j < |stages| && InStage(stages[j], i) ==> j == k
  {
    var starts :| IsSplitAt(phases, starts, stages);
    var n := |phases|;
    var u := Unwrapped(starts, i, n);
    k := StageHolding(starts, u, n, 0);
    InStageRange(phases, starts, stages, k, i);
    forall j | 0 <= j < |stages| && InStage(stages[j], i)
      ensures j == k
    {
      InStageRange(phases, starts, stages, j, i);
      EndsInOrder(starts, j, k, n);
      EndsInOrder(starts, k, j, n);
    }
  }

  // ---------------------------------------------------------------------
  // The splitting algorithm
  // ---------------------------------------------------------------------

  /** The stage starts, in plan order. */
  method FindStarts(phases: Plan) returns (starts: seq<nat>)
    ensures AreStarts(phases, starts, |phases|)
  {
    starts := [];
    for i := 0 to |phases|
      invariant AreStarts(phases, starts, i)
    {
      if phases[i].IsGreen() && !phases[Prev(i, |phases|)].IsGreen() {
        starts := starts + [i];
      }
    }
  }

  /** No stage starts strictly between a start and the next one. */
  lemma NoStartBetween(phases: Plan, starts: seq<nat>, k: nat, u: nat)
    requires AreStarts(phases, starts, |phases|) && k < |starts|
    requires starts[k] < u < End(starts, k, |phases|)
    ensures u < 2 * |phases| && !StartsStage(phases, Wrap(u, |phases|))
  {
    var n := |phases|;
    assert u < 2 * n;
    forall x | 0 <= x < |starts|
      ensures starts[x] != Wrap(u, n)
    {
      assert 0 < x ==> starts[0] < starts[x];
      EndsInOrder(starts, k, x, n);
      EndsInOrder(starts, x, k, n);
    }
  }

  lemma EndIsStart(phases: Plan, starts: seq<nat>, k: nat)
    requires AreStarts(phases, starts, |phases|) && k < |starts|
    ensures starts[k] + 1 < End(starts, k, |phases|) < 2 * |phases|
    ensures Wrap(End(starts, k, |phases|), |phases|) == starts[if k + 1 < |starts| then k + 1 else 0]
    ensures GreenAt(phases, starts[k]) && !GreenAt(phases, End(starts, k, |phases|) - 1)
  {
    var n, e := |phases|, End(starts, k, |phases|);
    assert 0 < k ==> starts[0] < starts[k];
    assert Wrap(e, n) == starts[if k + 1 < |starts| then k + 1 else 0];
    assert StartsStage(phases, Wrap(e, n));
    assert Prev(Wrap(e, n), n) == Wrap(e - 1, n);
  }

  /** The indices from one stage start up to the next, in cyclic order. */
  method WalkSpan(phases: Plan, starts: seq<nat>, k: nat) returns (span: seq<nat>)
    requires AreStarts(phases, starts, |phases|) && k < |starts|
    ensures IsRun(span, starts[k], End(starts, k, |phases|), |phases|)
  {
    var n := |phases|;
    var start := starts[k];
    var end := starts[if k + 1 < |starts| then k + 1 else 0];
    ghost var stop := End(starts, k, n);
    EndIsStart(phases, starts, k);
    span := [start];
    var i := Next(start, n);
    while i != end
      invariant |span| >= 1 && start + |span| <= stop
      invariant IsRun(span, start, start + |span|, n)
      invariant i == Wrap(start + |span|, n)
      decreases stop - |span|
    {
      span := span + [i];
      i := Next(i, n);
    }
  }

  /** Inside a span a non-green is never followed by a green. */
  lemma GreensFirst(phases: Plan, starts: seq<nat>, k: nat, u: nat)
    requires AreStarts(phases, starts, |phases|) && k < |starts|
    requires starts[k] < u < End(starts, k, |phases|)
    ensures u < 2 * |phases| && (GreenAt(phases, u) ==> GreenAt(phases, u - 1))
  {
    NoStartBetween(phases, starts, k, u);
    assert Prev(Wrap(u, |phases|), |phases|) == Wrap(u - 1, |phases|);
  }

  lemma RunAppend(s: seq<nat>, a: nat, b: nat, n: nat)
    requires IsRun(s, a, b, n) && b < 2 * n
    ensures IsRun(s + [Wrap(b, n)], a, b + 1, n)
  {
  }

  /** The phases of a span, by their distance from its start. */
  lemma SpanAt(phases: Plan, span: seq<nat>, start: nat)
    requires start + |span| < 2 * |phases| && IsRun(span, start, start + |span|, |phases|)
    ensures forall x :: 0 <= x < |span| ==> span[x] < |phases| && span[x] == Wrap(start + x, |phases|)
    ensures forall x :: 0 <= x < |span| ==> (phases[span[x]].IsGreen() <==> GreenAt(phases, start + x))
  {
  }

  /** The first `x` phases of a span from `start`, sorted: a run of greens, then a run of
      others, and no other before the greens have ended. */
  ghost predicate Sorted(phases: Plan, start: nat, x: nat, greens: seq<nat>, clearances: seq<nat>)
    requires start + x <= 2 * |phases|
  {
    && |greens| + |clearances| == x
    && IsRun(greens, start, start + |greens|, |phases|)
    && IsRun(clearances, start + |greens|, start + x, |phases|)
    && (forall u :: start <= u < start + |greens| ==> GreenAt(phases, u))
    && (forall u :: start + |greens| <= u < start + x ==> !GreenAt(phases, u))
  }

  lemma SortGreen(phases: Plan, start: nat, x: nat, greens: seq<nat>, clearances: seq<nat>)
    requires start + x < 2 * |phases| && Sorted(phases, start, x, greens, clearances)
    requires GreenAt(phases, start + x) && (x > 0 ==> GreenAt(phases, start + x - 1))
    ensures Sorted(phases, start, x + 1, greens + [Wrap(start + x, |phases|)], clearances)
  {
    assert clearances == [];
    RunAppend(greens, start, start + x, |phases|);
    hide GreenAt;
  }

  lemma SortClearance(phases: Plan, start: nat, x: nat, greens: seq<nat>, clearances: seq<nat>)
    requires start + x < 2 * |phases| && Sorted(phases, start, x, greens, clearances) && !GreenAt(phases, start + x)
    ensures Sorted(phases, start, x + 1, greens, clearances + [Wrap(start + x, |phases|)])
  {
    RunAppend(clearances, start + |greens|, start + x, |phases|);
    hide GreenAt, IsRun;
  }

  /** What a sorted span is made of. */
  lemma SortedParts(phases: Plan, start: nat, x: nat, greens: seq<nat>, clearances: seq<nat>)
    requires 0 < x && start + x < 2 * |phases| && Sorted(phases, start, x, greens, clearances)
    requires GreenAt(phases, start) && !GreenAt(phases, start + x - 1)
    ensures greens != [] && clearances != []
    ensures forall y :: 0 <= y < |greens| ==> greens[y] < |phases| && phases[greens[y]].IsGreen()
    ensures forall y :: 0 <= y < |clearances| ==> clearances[y] < |phases| && !phases[clearances[y]].IsGreen()
  {
    forall y | 0 <= y < |greens|
      ensures greens[y] < |phases| && phases[greens[y]].IsGreen()
    {
      assert GreenAt(phases, start + y);
    }
    forall y | 0 <= y < |clearances|
      ensures clearances[y] < |phases| && !phases[clearances[y]].IsGreen()
    {
      assert !GreenAt(phases, start + |greens| + y);
    }
  }

  /** Sorts the phases of a span into greens and clearances. */
  method SortSpan(phases: Plan, span: seq<nat>, ghost start: nat) returns (greens: seq<nat>, clearances: seq<nat>)
    requires start + |span| < 2 * |phases| && span != []
    requires IsRun(span, start, start + |span|, |phases|)
    requires forall u :: start < u < start + |span| ==> (GreenAt(phases, u) ==> GreenAt(phases, u - 1))
    requires GreenAt(phases, start) && !GreenAt(phases, start + |span| - 1)
    ensures greens != [] && clearances != []
    ensures IsRun(greens, start, start + |greens|, |phases|)
    ensures IsRun(clearances, start + |greens|, start + |span|, |phases|)
    ensures forall y :: 0 <= y < |greens| ==> phases[greens[y]].IsGreen()
    ensures forall y :: 0 <= y < |clearances| ==> !phases[clearances[y]].IsGreen()
  {
    greens, clearances := [], [];
    SpanAt(phases, span, start);
    for x := 0 to |span|
      invariant Sorted(phases, start, x, greens, clearances)
    {
      hide Sorted, GreenAt;
      var j := span[x];
      if phases[j].IsGreen() {
        SortGreen(phases, start, x, greens, clearances);
        greens := greens + [j];
      } else {
        SortClearance(phases, start, x, greens, clearances);
        clearances := clearances + [j];
      }
    }
    SortedParts(phases, start, |span|, greens, clearances);
  }

  /** The stage from one start up to the next. */
  method WalkStage(phases: Plan, starts: seq<nat>, k: nat) returns (stage: Stage)
    requires AreStarts(phases, starts, |phases|) && k < |starts|
    ensures IsStage(phases, starts, k, stage)
  {
    var span := WalkSpan(phases, starts, k);
    EndIsStart(phases, starts, k);
    forall u | starts[k] < u < End(starts, k, |phases|)
      ensures GreenAt(phases, u) ==> GreenAt(phases, u - 1)
    {
      GreensFirst(phases, starts, k, u);
    }
    var greens, clearances := SortSpan(phases, span, starts[k]);
    stage := Stage(greens, clearances);
  }

  /** The first requirement the stage fails, if any, in the order they are checked. */
  method CheckStage(phases: Plan, stage: Stage, k: nat) returns (ok: bool, error: PlanError)
    requires stage.greens != [] && StageIn(phases, stage)
    ensures ok <==> StageSafe(phases, stage)
    ensures !ok ==> error == StageFault(phases, stage, k)
    ensures ok <==> SameApproaches(phases, stage) && YellowForItsGreens(phases, stage) && AllRedAmongThem(phases, stage)
    ensures !ok ==> error == (if !SameApproaches(phases, stage) then MixedApproaches(k)
                              else if !YellowForItsGreens(phases, stage) then NoCoveringYellow(k)
                              else NoAllRed(k))
  {
    StageSafeIff(phases, stage);
    hide SameApproaches, YellowForItsGreens, AllRedAmongThem;
    error := StageFault(phases, stage, k);
    for x := 0 to |stage.greens|
      invariant forall y :: 0 <= y < x ==> phases[stage.greens[y]].directions == phases[stage.greens[0]].directions
    {
      if phases[stage.greens[x]].directions != phases[stage.greens[0]].directions {
        return false, MixedApproaches(k);
      }
    }
    var covered, cleared := false, false;
    for x := 0 to |stage.clearances|
      invariant covered <==> exists y :: 0 <= y < x && Covers(phases, stage, y)
      invariant cleared <==> exists y :: 0 <= y < x && phases[stage.clearances[y]].name == "all_red"
    {
      var c := phases[stage.clearances[x]];
      if Covers(phases, stage, x) {
        covered := true;
      }
      if c.name == "all_red" {
        cleared := true;
      }
    }
    if !covered {
      return false, NoCoveringYellow(k);
    }
    if !cleared {
      return false, NoAllRed(k);
    }
    return true, error;
  }

  function StageFault(phases: Plan, stage: Stage, k: nat): PlanError
    requires stage.greens != [] && StageIn(phases, stage)
  {
    if !OneApproachGroup(phases, stage) then MixedApproaches(k)
    else if !HasCoveringYellow(phases, stage) then NoCoveringYellow(k)
    else NoAllRed(k)
  }

  lemma StageInPlan(phases: Plan, starts: seq<nat>, k: nat, stage: Stage)
    requires k < |starts| && (forall j :: 0 <= j < |starts| ==> starts[j] < |phases|)
    requires IsStage(phases, starts, k, stage)
    ensures StageIn(phases, stage)
  {
  }

  /** `stages` is the plan's split and its first unsafe stage is `k`, for the reason `error`. */
  ghost predicate FailsAt(phases: Plan, stages: seq<Stage>, k: nat, error: PlanError) {
    && IsSplit(phases, stages) && k < |stages|
    && (forall j :: 0 <= j < k ==> StageSafe(phases, stages[j]))
    && stages[k].greens != [] && StageIn(phases, stages[k]) && !StageSafe(phases, stages[k])
    && error == StageFault(phases, stages[k], k)
  }

  /** One stage for every start. */
  method CutStages(phases: Plan, starts: seq<nat>) returns (stages: seq<Stage>)
    requires starts != [] && AreStarts(phases, starts, |phases|)
    ensures IsSplitAt(phases, starts, stages)
    ensures forall k :: 0 <= k < |stages| ==> stages[k].greens != [] && StageIn(phases, stages[k])
  {
    stages := [];
    for k := 0 to |starts|
      invariant |stages| == k
      invariant forall j :: 0 <= j < k ==> IsStage(phases, starts, j, stages[j])
      invariant forall j :: 0 <= j < k ==> stages[j].greens != [] && StageIn(phases, stages[j])
    {
      var stage := WalkStage(phases, starts, k);
      StageInPlan(phases, starts, k, stage);
      stages := stages + [stage];
    }
  }

  /** Whether every stage is safe; if not, what is wrong with the first that is not. */
  method CheckStages(phases: Plan, stages: seq<Stage>) returns (ok: bool, error: PlanError)
    requires IsSplit(phases, stages)
    requires forall k :: 0 <= k < |stages| ==> stages[k].greens != [] && StageIn(phases, stages[k])
    ensures ok ==> forall k :: 0 <= k < |stages| ==> StageSafe(phases, stages[k])
    ensures !ok ==> !error.NoGreen? && !error.NoGap? && exists k :: FailsAt(phases, stages, k, error)
  {
    hide IsSplit;
    error := NoGreen;
    for k := 0 to |stages|
      invariant forall j :: 0 <= j < k ==> StageSafe(phases, stages[j])
    {
      ok, error := CheckStage(phases, stages[k], k);
      if !ok {
        assert FailsAt(phases, stages, k, error);
        return;
      }
    }
    ok := true;
  }

  method SplitStages(phases: Plan) returns (r: Split)
    ensures r == Rejected(NoGreen) <==> (forall i :: 0 <= i < |phases| ==> !phases[i].IsGreen())
    ensures r == Rejected(NoGap) <==> phases != [] && (forall i :: 0 <= i < |phases| ==> phases[i].IsGreen())
    ensures r.Accepted? ==>
              IsSplit(phases, r.stages) && forall k :: 0 <= k < |r.stages| ==> StageSafe(phases, r.stages[k])
    ensures r.Rejected? && !r.error.NoGreen? && !r.error.NoGap?
            ==> exists stages, k :: FailsAt(phases, stages, k, r.error)
    ensures r.Accepted? <==> Runnable(phases)
    ensures r.Accepted? <==> exists stages :: IsSplit(phases, stages) && AllCleared(phases, stages)
    ensures r.Accepted? ==> AllCleared(phases, r.stages)
  {
    hide IsSplit, StageSafe, AllCleared, FailsAt, Runnable;
    RunnableIff(phases);
    r := SplitAndCheck(phases);
    if r.Accepted? {
      SafeSplitIff(phases, r.stages);
    }
  }

  lemma SplitIsIn(phases: Plan, stages: seq<Stage>, k: nat)
    requires IsSplit(phases, stages) && k < |stages|
    ensures stages[k].greens != [] && StageIn(phases, stages[k])
  {
    var starts :| IsSplitAt(phases, starts, stages);
    assert IsStage(phases, starts, k, stages[k]);
    StageInPlan(phases, starts, k, stages[k]);
  }

  lemma SafeSplitIff(phases: Plan, stages: seq<Stage>)
    requires IsSplit(phases, stages)
    ensures (forall k :: 0 <= k < |stages| ==> StageSafe(phases, stages[k]))
            <==> AllCleared(phases, stages)
  {
    hide IsSplit, StageSafe, SameApproaches, YellowForItsGreens, AllRedAmongThem;
    forall k | 0 <= k < |stages|
      ensures StageSafe(phases, stages[k])
              <==> SameApproaches(phases, stages[k]) && YellowForItsGreens(phases, stages[k])
                   && AllRedAmongThem(phases, stages[k])
    {
      SplitIsIn(phases, stages, k);
      StageSafeIff(phases, stages[k]);
    }
  }

  /** A plan can be run adaptively exactly if it splits and every stage's greens share their
      approaches, which a yellow of the stage is for and an all-red of the stage follows. */
  lemma RunnableIff(phases: Plan)
    ensures Runnable(phases) <==> exists stages :: IsSplit(phases, stages) && AllCleared(phases, stages)
  {
    hide IsSplit, StageSafe, AllCleared;
    forall stages | IsSplit(phases, stages) {
      SafeSplitIff(phases, stages);
    }
  }

  /** The splitting itself. */
  method SplitAndCheck(phases: Plan) returns (r: Split)
    ensures r == Rejected(NoGreen) <==> (forall i :: 0 <= i < |phases| ==> !phases[i].IsGreen())
    ensures r == Rejected(NoGap) <==> phases != [] && (forall i :: 0 <= i < |phases| ==> phases[i].IsGreen())
    ensures r.Accepted? ==>
              IsSplit(phases, r.stages) && forall k :: 0 <= k < |r.stages| ==> StageSafe(phases, r.stages[k])
    ensures r.Rejected? && !r.error.NoGreen? && !r.error.NoGap?
            ==> exists stages, k :: FailsAt(phases, stages, k, r.error)
    ensures r.Accepted? <==> Runnable(phases)
  {
    var someGreen := exists i :: 0 <= i < |phases| && phases[i].IsGreen();
    if !someGreen {
      assert phases != [] ==> !phases[0].IsGreen();
      NotRunnable(phases);
      return Rejected(NoGreen);
    }
    var starts := FindStarts(phases);
    if starts == [] {
      NoStartsAllGreen(phases);
      NotRunnable(phases);
      return Rejected(NoGap);
    }
    assert !phases[Prev(starts[0], |phases|)].IsGreen();
    var stages := CutStages(phases, starts);
    var ok, error := CheckStages(phases, stages);
    if ok {
      return Accepted(stages);
    }
    ghost var k :| FailsAt(phases, stages, k, error);
    OnlyThisSplit(phases, stages, k);
    return Rejected(error);
  }

  lemma NoStartsAllGreen(phases: Plan)
    requires AreStarts(phases, [], |phases|)
    ensures (exists i :: 0 <= i < |phases| && phases[i].IsGreen()) ==>
              forall i :: 0 <= i < |phases| ==> phases[i].IsGreen()
  {
    if g: nat, r: nat :| g < |phases| && phases[g].IsGreen() && r < |phases| && !phases[r].IsGreen() {
      var s := StartExists(phases, g, r);
      assert false;
    }
  }

  lemma NotRunnable(phases: Plan)
    requires (forall i :: 0 <= i < |phases| ==> !phases[i].IsGreen())
          || (forall i :: 0 <= i < |phases| ==> phases[i].IsGreen())
    ensures !Runnable(phases)
  {
    forall stages
      ensures !IsSplit(phases, stages)
    {
      if IsSplit(phases, stages) {
        var g, r := SplitHasBoth(phases, stages);
      }
    }
  }

  lemma SplitHasBoth(phases: Plan, stages: seq<Stage>) returns (g: nat, r: nat)
    requires IsSplit(phases, stages)
    ensures g < |phases| && r < |phases| && phases[g].IsGreen() && !phases[r].IsGreen()
  {
    var starts :| IsSplitAt(phases, starts, stages);
    g := starts[0];
    r := Prev(g, |phases|);
    assert StartsStage(phases, g);
  }

  lemma OnlyThisSplit(phases: Plan, stages: seq<Stage>, k: nat)
    requires IsSplit(phases, stages) && k < |stages| && !StageSafe(phases, stages[k])
    ensures !Runnable(phases)
  {
    forall other | IsSplit(phases, other)
      ensures other == stages
    {
      SplitUnique(phases, other, stages);
    }
  }
}
