/** Building a signal's phase plan from its configuration. */
module SignalPlans {
  import opened Options
  import opened Phases
  import opened Stages

  /** The configured durations. */
  datatype Timing = Timing(straightRight: real, left: real, yellow: real, allRed: real,
                           nsGreen: Option<real>, ewGreen: Option<real>, uturn: bool)

  datatype BuildResult = Built(phases: Plan) | Unsupported(entry: nat)

  function GreenDurationFor(t: Timing, directions: seq<Direction>): real {
    if directions == [] then t.straightRight
    else
      var override := if directions[0] in {North, South} then t.nsGreen else t.ewGreen;
      if override.None? then t.straightRight else override.value
  }

  function UTurns(t: Timing): seq<Turn> {
    if t.uturn then [UTurn] else []
  }

  function AllRedPhase(t: Timing): Phase {
    Phase("all_red", [], [], t.allRed, Red)
  }

  // ---------------------------------------------------------------------
  // The default plan: one direction at a time
  // ---------------------------------------------------------------------

  function DirectionName(d: Direction): string {
    match d
    case North => "north"
    case South => "south"
    case East => "east"
    case West => "west"
  }

  /** The four phases one direction gets: through green, protected left, yellow, all-red. */
  function DirectionBlock(d: Direction, t: Timing): (b: Plan)
    ensures |b| == 4
  {
    [ Phase(DirectionName(d) + "_straight_right", [d], [Straight, Right], GreenDurationFor(t, [d]), Green),
      Phase(DirectionName(d) + "_left", [d], [Left] + UTurns(t), t.left, Green),
      Phase(DirectionName(d) + "_yellow", [d], [Left, Straight, Right] + UTurns(t), t.yellow, Yellow),
      AllRedPhase(t) ]
  }

  ghost predicate IsDefaultPlan(phases: Plan, order: seq<Direction>, t: Timing) {
    && |phases| == 4 * |order|
    && forall k :: 0 <= k < |order| ==> phases[4 * k..4 * k + 4] == DirectionBlock(order[k], t)
  }

  method BuildPhaseSequence(order: seq<Direction>, t: Timing) returns (phases: Plan)
    ensures IsDefaultPlan(phases, order, t)
  {
    phases := [];
    for i := 0 to |order|
      invariant IsDefaultPlan(phases, order[..i], t)
    {
      AppendBlock(phases, order, t, i);
      phases := phases + DirectionBlock(order[i], t);
    }
    assert order[..|order|] == order;
  }

  lemma AppendBlock(phases: Plan, order: seq<Direction>, t: Timing, i: nat)
    requires i < |order| && IsDefaultPlan(phases, order[..i], t)
    ensures IsDefaultPlan(phases + DirectionBlock(order[i], t), order[..i + 1], t)
  {
    hide DirectionBlock;
    var block := DirectionBlock(order[i], t);
    var more := phases + block;
    forall k | 0 <= k < i + 1
      ensures more[4 * k..4 * k + 4] == DirectionBlock(order[..i + 1][k], t)
    {
      assert order[..i + 1][k] == order[k];
      if k < i {
        assert order[..i][k] == order[k];
        assert more[4 * k..4 * k + 4] == phases[4 * k..4 * k + 4];
      } else {
        assert more[4 * i..4 * i + 4] == block;
      }
    }
  }

  /** One stage a direction: its two greens, then its yellow and all-red. */
  function DefaultStages(n: nat): (stages: seq<Stage>)
    ensures |stages| == n
  {
    seq(n, k requires 0 <= k < n => Stage([4 * k, 4 * k + 1], [4 * k + 2, 4 * k + 3]))
  }

  function DefaultStarts(n: nat): (starts: seq<nat>)
    ensures |starts| == n
  {
    seq(n, k requires 0 <= k < n => 4 * k)
  }

  lemma DefaultStart(phases: Plan, order: seq<Direction>, t: Timing, i: nat)
    requires IsDefaultPlan(phases, order, t) && i < |phases|
    ensures StartsStage(phases, i) <==> i % 4 == 0
  {
    var k, j := i / 4, i % 4;
    assert i == 4 * k + j;
    assert phases[4 * k..4 * k + 4] == DirectionBlock(order[k], t);
    assert phases[i] == DirectionBlock(order[k], t)[j];
    if j == 0 {
      var p := if k == 0 then |order| - 1 else k - 1;
      assert Prev(i, |phases|) == 4 * p + 3;
      assert phases[4 * p..4 * p + 4] == DirectionBlock(order[p], t);
      assert phases[4 * p + 3] == DirectionBlock(order[p], t)[3];
    } else {
      assert Prev(i, |phases|) == 4 * k + (j - 1);
      assert phases[4 * k + (j - 1)] == DirectionBlock(order[k], t)[j - 1];
    }
  }

  /** The default plan over any non-empty direction order is exactly one safe stage a direction. */
  lemma DefaultPlanStages(phases: Plan, order: seq<Direction>, t: Timing)
    requires IsDefaultPlan(phases, order, t) && order != []
    ensures IsSplit(phases, DefaultStages(|order|))
    ensures forall k :: 0 <= k < |order| ==> StageSafe(phases, DefaultStages(|order|)[k])
    ensures forall stages :: IsSplit(phases, stages) ==> stages == DefaultStages(|order|)
  {
    DefaultStartsAll(phases, order, t);
    forall k | 0 <= k < |order| {
      DefaultStage(phases, order, t, k);
    }
    hide IsStage, StageSafe, AreStarts, IsDefaultPlan;
    assert IsSplitAt(phases, DefaultStarts(|order|), DefaultStages(|order|));
    hide IsSplitAt;
    forall other | IsSplit(phases, other)
      ensures other == DefaultStages(|order|)
    {
      SplitUnique(phases, other, DefaultStages(|order|));
    }
  }

  lemma DefaultStartsAll(phases: Plan, order: seq<Direction>, t: Timing)
    requires IsDefaultPlan(phases, order, t)
    ensures AreStarts(phases, DefaultStarts(|order|), |phases|)
  {
    var starts := DefaultStarts(|order|);
    forall i | 0 <= i < |phases|
      ensures StartsStage(phases, i) <==> i % 4 == 0
    {
      DefaultStart(phases, order, t, i);
    }
    hide StartsStage;
    forall i | 0 <= i < |phases| && StartsStage(phases, i)
      ensures i in starts
    {
      assert starts[i / 4] == i;
    }
  }

  lemma BlockAt(phases: Plan, order: seq<Direction>, t: Timing, k: nat)
    requires IsDefaultPlan(phases, order, t) && k < |order|
    ensures 4 * k + 4 <= |phases|
    ensures phases[4 * k].color == phases[4 * k + 1].color == Green
    ensures phases[4 * k + 2].color == Yellow && phases[4 * k + 3].color == Red && phases[4 * k + 3].name == "all_red"
    ensures phases[4 * k].directions == phases[4 * k + 1].directions == phases[4 * k + 2].directions == [order[k]]
  {
    var block := phases[4 * k..4 * k + 4];
    assert block == DirectionBlock(order[k], t);
    assert phases[4 * k] == block[0] && phases[4 * k + 1] == block[1];
    assert phases[4 * k + 2] == block[2] && phases[4 * k + 3] == block[3];
  }

  lemma DefaultStage(phases: Plan, order: seq<Direction>, t: Timing, k: nat)
    requires IsDefaultPlan(phases, order, t) && k < |order|
    ensures IsStage(phases, DefaultStarts(|order|), k, DefaultStages(|order|)[k])
    ensures StageSafe(phases, DefaultStages(|order|)[k])
  {
    BlockAt(phases, order, t, k);
    BlockIsSafe(phases, order[k], k);
    DefaultRuns(|order|, k);
    hide DirectionBlock, StageSafe, IsRun, End;
    var stage := DefaultStages(|order|)[k];
    assert phases[4 * k + 2] == phases[stage.clearances[0]] && phases[4 * k + 3] == phases[stage.clearances[1]];
  }

  lemma DefaultRuns(n: nat, k: nat)
    requires k < n
    ensures IsRun([4 * k, 4 * k + 1], 4 * k, 4 * k + 2, 4 * n)
    ensures IsRun([4 * k + 2, 4 * k + 3], 4 * k + 2, 4 * k + 4, 4 * n)
    ensures End(DefaultStarts(n), k, 4 * n) == 4 * k + 4
  {
  }

  lemma BlockIsSafe(phases: Plan, d: Direction, k: nat)
    requires 4 * k + 4 <= |phases|
    requires phases[4 * k + 2].color == Yellow && phases[4 * k + 3].name == "all_red"
    requires phases[4 * k].directions == phases[4 * k + 1].directions == phases[4 * k + 2].directions == [d]
    ensures StageSafe(phases, Stage([4 * k, 4 * k + 1], [4 * k + 2, 4 * k + 3]))
  {
    var stage := Stage([4 * k, 4 * k + 1], [4 * k + 2, 4 * k + 3]);
    assert Covers(phases, stage, 0);
    assert phases[stage.clearances[1]].name == "all_red";
  }

  // ---------------------------------------------------------------------
  // Configured plans: a list of phase names
  // ---------------------------------------------------------------------

  /** The characters that `strip` removes. */
  predicate IsSpace(c: char) {
    || '\U{0009}' <= c <= '\U{000D}' || '\U{001C}' <= c <= '\U{0020}' || c == '\U{0085}' || c == '\U{00A0}'
    || c == '\U{1680}' || '\U{2000}' <= c <= '\U{200A}' || c == '\U{2028}' || c == '\U{2029}' || c == '\U{202F}'
    || c == '\U{205F}' || c == '\U{3000}'
  }

  function Strip(s: string): string {
    if s == [] then []
    else if IsSpace(s[0]) then Strip(s[1..])
    else if IsSpace(s[|s| - 1]) then Strip(s[..|s| - 1])
    else s
  }

  /** Lower case of the ASCII letters. No other character lowers to a letter that a name uses
      (only the Kelvin sign and the dotted capital I lower to ASCII ones, k and i), so a name
      holding one is no supported name either way. */
  function Lower(s: string): (r: string)
    ensures |r| == |s|
    ensures forall i :: 0 <= i < |s| ==>
              if 'A' <= s[i] <= 'Z' then 'a' <= r[i] <= 'z' && r[i] - 'a' == s[i] - 'A' else r[i] == s[i]
  {
    seq(|s|, i requires 0 <= i < |s| => if 'A' <= s[i] <= 'Z' then s[i] - 'A' + 'a' else s[i])
  }

  /** The last underscore, or the length when there is none. */
  function LastUnderscore(s: string, k: nat): (i: nat)
    requires k <= |s| && forall j :: k <= j < |s| ==> s[j] != '_'
    ensures i <= |s| && (i < |s| ==> s[i] == '_')
    ensures forall j :: 0 <= j < |s| && s[j] == '_' ==> j <= i < |s|
  {
    if k == 0 then |s| else if s[k - 1] == '_' then k - 1 else LastUnderscore(s, k - 1)
  }

  function GroupDirections(group: string): Option<seq<Direction>> {
    if group == "n" then Some([North])
    else if group == "s" then Some([South])
    else if group == "e" then Some([East])
    else if group == "w" then Some([West])
    else if group == "ns" || group == "sn" then Some([North, South])
    else if group == "ew" || group == "we" then Some([East, West])
    else None
  }

  /** One configured entry as a phase, or nothing when the entry is not supported. */
  function PhaseFor(raw: string, t: Timing): Option<Phase> {
    var name := Lower(Strip(raw));
    if name == "all_red" then Some(AllRedPhase(t))
    else
      var u := LastUnderscore(name, |name|);
      if u == |name| then None
      else
        var directions, color := GroupDirections(name[..u]), name[u + 1..];
        if directions.None? || (color != "green" && color != "yellow") then None
        else
          var duration := if color == "green" then GreenDurationFor(t, directions.value) else t.yellow;
          Some(Phase(raw, directions.value, [Left, Straight, Right] + UTurns(t), duration,
                     if color == "green" then Green else Yellow))
  }

  ghost predicate IsNamedPlan(phases: Plan, names: seq<string>, t: Timing) {
    && |phases| == |names|
    && forall i :: 0 <= i < |names| ==> PhaseFor(names[i], t) == Some(phases[i])
  }

  method BuildPhaseSequenceFromNames(names: seq<string>, t: Timing) returns (r: BuildResult)
    ensures r.Built? ==> IsNamedPlan(r.phases, names, t)
    ensures r.Unsupported? ==> r.entry < |names| && PhaseFor(names[r.entry], t).None?
    ensures r.Unsupported? ==> forall i :: 0 <= i < r.entry ==> PhaseFor(names[i], t).Some?
  {
    hide PhaseFor;
    var phases: Plan := [];
    for i := 0 to |names|
      invariant IsNamedPlan(phases, names[..i], t)
    {
      var phase := BuildNamed(names[i], t);
      if phase.None? {
        return Unsupported(i);
      }
      phases := phases + [phase.value];
    }
    assert names[..|names|] == names;
    return Built(phases);
  }

  /** One entry of the sequence: the all-red, or a group and a colour joined by an underscore. */
  method BuildNamed(raw: string, t: Timing) returns (r: Option<Phase>)
    ensures r == PhaseFor(raw, t)
  {
    hide Lower, Strip, LastUnderscore, GroupDirections, GreenDurationFor;
    var name := Lower(Strip(raw));
    if name == "all_red" {
      return Some(AllRedPhase(t));
    }
    var u := LastUnderscore(name, |name|);
    if u == |name| {
      return None;
    }
    var group, color := name[..u], name[u + 1..];
    var directions := GroupDirections(group);
    if directions.None? || (color != "green" && color != "yellow") {
      return None;
    }
    var duration := if color == "green" then GreenDurationFor(t, directions.value) else t.yellow;
    return Some(Phase(raw, directions.value, [Left, Straight, Right] + UTurns(t), duration,
                      if color == "green" then Green else Yellow));
  }

  // ---------------------------------------------------------------------
  // Whether a configured plan can run adaptively
  // ---------------------------------------------------------------------

  /** The plans differ at most in durations and turns. */
  ghost predicate SameShape(p: Plan, q: Plan) {
    && |p| == |q|
    && forall i :: 0 <= i < |p| ==>
         p[i].color == q[i].color && p[i].name == q[i].name && p[i].directions == q[i].directions
  }

  lemma SameShapeStarts(p: Plan, q: Plan, starts: seq<nat>)
    requires SameShape(p, q) && AreStarts(p, starts, |p|)
    ensures AreStarts(q, starts, |q|)
  {
    forall i | 0 <= i < |p|
      ensures StartsStage(p, i) <==> StartsStage(q, i)
    {
    }
    hide SameShape, StartsStage;
    assert |p| == |q|;
  }

  lemma SameShapeStage(p: Plan, q: Plan, starts: seq<nat>, k: nat, stage: Stage)
    requires SameShape(p, q) && k < |starts| && (forall j :: 0 <= j < |starts| ==> starts[j] < |p|)
    requires IsStage(p, starts, k, stage)
    ensures IsStage(q, starts, k, stage)
  {
    StageInPlan(p, starts, k, stage);
    hide IsRun;
  }

  lemma SameShapeSplit(p: Plan, q: Plan, stages: seq<Stage>)
    requires SameShape(p, q) && IsSplit(p, stages)
    ensures IsSplit(q, stages)
  {
    var starts :| IsSplitAt(p, starts, stages);
    SameShapeStarts(p, q, starts);
    forall k | 0 <= k < |stages|
      ensures IsStage(q, starts, k, stages[k])
    {
      SameShapeStage(p, q, starts, k, stages[k]);
    }
    hide IsStage, SameShape;
    assert IsSplitAt(q, starts, stages);
  }

  lemma SameShapeSafe(p: Plan, q: Plan, stage: Stage)
    requires SameShape(p, q) && StageSafe(p, stage)
    ensures StageSafe(q, stage)
  {
    var x :| 0 <= x < |stage.clearances| && Covers(p, stage, x);
    assert Covers(q, stage, x);
  }

  /** Whether a plan can run adaptively does not depend on its durations. */
  lemma SameShapeRunnable(p: Plan, q: Plan)
    requires SameShape(p, q) && Runnable(p)
    ensures Runnable(q)
  {
    var stages :| IsSplit(p, stages) && forall k :: 0 <= k < |stages| ==> StageSafe(p, stages[k]);
    SameShapeSplit(p, q, stages);
    forall k | 0 <= k < |stages|
      ensures StageSafe(q, stages[k])
    {
      SameShapeSafe(p, q, stages[k]);
    }
  }

  const PROBE := Timing(30.0, 0.0, 4.0, 2.0, None, None, false)

  /** The controller's own construction succeeds with these durations. */
  ghost predicate Constructible(names: seq<string>, t: Timing) {
    exists phases :: IsNamedPlan(phases, names, t) && Runnable(phases)
  }

  /** A configured sequence is passed exactly when the controller accepts it whatever its
      durations; an empty one stands for the default plan and is always passed. */
  method AdaptivePlanErrors(names: seq<string>) returns (ok: bool)
    ensures ok <==> names == [] || forall t :: Constructible(names, t)
    ensures ok <==> names == [] || exists t :: Constructible(names, t)
  {
    if names == [] {
      return true;
    }
    var built := BuildPhaseSequenceFromNames(names, PROBE);
    if built.Unsupported? {
      forall t
        ensures !Constructible(names, t)
      {
        UnsupportedAnywhere(names, t, built.entry);
      }
      assert !Constructible(names, PROBE);
      return false;
    }
    var split := SplitStages(built.phases);
    ok := split.Accepted?;
    forall t
      ensures Constructible(names, t) <==> ok
    {
      ShapeOfNames(names, built.phases, t);
    }
    assert Constructible(names, PROBE) <==> ok;
  }

  lemma UnsupportedAnywhere(names: seq<string>, t: Timing, i: nat)
    requires i < |names| && PhaseFor(names[i], PROBE).None?
    ensures !Constructible(names, t)
  {
    assert PhaseFor(names[i], t).None?;
  }

  lemma ShapeOfNames(names: seq<string>, probe: Plan, t: Timing)
    requires IsNamedPlan(probe, names, PROBE)
    ensures Constructible(names, t) <==> Runnable(probe)
  {
    forall i | 0 <= i < |names|
      ensures PhaseFor(names[i], t).Some?
    {
      assert PhaseFor(names[i], PROBE) == Some(probe[i]);
    }
    var phases := seq(|names|, i requires 0 <= i < |names| && PhaseFor(names[i], t).Some? =>
      PhaseFor(names[i], t).value);
    assert IsNamedPlan(phases, names, t);
    forall other: Plan | IsNamedPlan(other, names, t)
      ensures SameShape(probe, other) && SameShape(other, probe)
    {
      forall i | 0 <= i < |names|
        ensures probe[i].color == other[i].color && probe[i].name == other[i].name
        ensures probe[i].directions == other[i].directions
      {
        assert PhaseFor(names[i], PROBE) == Some(probe[i]) && PhaseFor(names[i], t) == Some(other[i]);
      }
    }
    if Runnable(probe) {
      SameShapeRunnable(probe, phases);
    }
    if Constructible(names, t) {
      var other :| IsNamedPlan(other, names, t) && Runnable(other);
      SameShapeRunnable(other, probe);
    }
  }
}
