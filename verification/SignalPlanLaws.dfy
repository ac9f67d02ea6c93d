/** What built signal plans hold, phase by phase, and which phase names are understood. */
module SignalPlanLaws {
  import opened Options
  import opened Phases
  import opened SignalPlans

  /** The green a direction is configured to get: its corridor's own, or the shared one. */
  function ConfiguredGreen(t: Timing, d: Direction): real {
    match d
    case North => if t.nsGreen.Some? then t.nsGreen.value else t.straightRight
    case South => if t.nsGreen.Some? then t.nsGreen.value else t.straightRight
    case East => if t.ewGreen.Some? then t.ewGreen.value else t.straightRight
    case West => if t.ewGreen.Some? then t.ewGreen.value else t.straightRight
  }

  /** Phase `i` of the default plan: whose it is, what it releases, its colour and its length. */
  lemma DefaultPhase(phases: Plan, order: seq<Direction>, t: Timing, i: nat)
    requires IsDefaultPlan(phases, order, t) && i < |phases|
    ensures var p, d, j := phases[i], order[i / 4], i % 4;
            && p.color == (if j <= 1 then Green else if j == 2 then Yellow else Red)
            && p.directions == (if j == 3 then [] else [d])
            && (forall turn :: turn in p.turns <==>
                  match turn
                  case Left => j == 1 || j == 2
                  case Straight => j == 0 || j == 2
                  case Right => j == 0 || j == 2
                  case UTurn => t.uturn && (j == 1 || j == 2))
            && p.duration == (if j == 0 then ConfiguredGreen(t, d) else if j == 1 then t.left
                              else if j == 2 then t.yellow else t.allRed)
            && (j == 3 ==> p.name == "all_red")
  {
    var k, j := i / 4, i % 4;
    assert i == 4 * k + j;
    assert phases[4 * k..4 * k + 4] == DirectionBlock(order[k], t);
    assert phases[i] == DirectionBlock(order[k], t)[j];
    hide IsDefaultPlan;
  }

  /** In the default plan every movement of every approach has exactly one green a cycle. */
  lemma OneGreenAMovement(phases: Plan, order: seq<Direction>, t: Timing, k: nat, turn: Turn, i: nat)
    requires IsDefaultPlan(phases, order, t) && k < |order| && i < |phases| && (turn == UTurn ==> t.uturn)
    requires forall a, b :: 0 <= a < b < |order| ==> order[a] != order[b]
    ensures phases[i].color == Green && order[k] in phases[i].directions && turn in phases[i].turns
            <==> i == 4 * k + if turn == Left || turn == UTurn then 1 else 0
  {
    DefaultPhase(phases, order, t, i);
    hide IsDefaultPlan;
    assert i == 4 * (i / 4) + i % 4;
    if i / 4 != k {
      assert order[i / 4] != order[k];
    }
  }

  /** A cycle of the default plan: every direction's own green, and left, yellow and all-red each. */
  function GreensOf(order: seq<Direction>, t: Timing): real {
    if order == [] then 0.0
    else GreensOf(order[..|order| - 1], t) + ConfiguredGreen(t, order[|order| - 1]) + t.left + t.yellow + t.allRed
  }

  lemma {:induction false} DefaultCycle(phases: Plan, order: seq<Direction>, t: Timing, k: nat)
    requires IsDefaultPlan(phases, order, t) && k <= |order|
    ensures Before(phases, 4 * k) == GreensOf(order[..k], t)
    decreases k
  {
    if k > 0 {
      DefaultCycle(phases, order, t, k - 1);
      BlockTime(phases, order, t, k - 1);
      hide IsDefaultPlan, ConfiguredGreen;
      assert order[..k][..k - 1] == order[..k - 1];
    }
  }

  lemma BlockTime(phases: Plan, order: seq<Direction>, t: Timing, k: nat)
    requires IsDefaultPlan(phases, order, t) && k < |order|
    ensures Before(phases, 4 * k + 4)
            == Before(phases, 4 * k) + ConfiguredGreen(t, order[k]) + t.left + t.yellow + t.allRed
  {
    hide Before;
    FourOn(phases, 4 * k);
    BlockMembers(phases, order, t, k);
  }

  lemma BlockMembers(phases: Plan, order: seq<Direction>, t: Timing, k: nat)
    requires IsDefaultPlan(phases, order, t) && k < |order|
    ensures phases[4 * k].duration == ConfiguredGreen(t, order[k]) && phases[4 * k + 1].duration == t.left
    ensures phases[4 * k + 2].duration == t.yellow && phases[4 * k + 3].duration == t.allRed
  {
    var block := DirectionBlock(order[k], t);
    assert phases[4 * k..4 * k + 4] == block;
    assert phases[4 * k] == block[0];
    assert phases[4 * k + 1] == block[1];
    assert phases[4 * k + 2] == block[2];
    assert phases[4 * k + 3] == block[3];
    hide IsDefaultPlan;
  }

  lemma FourOn(phases: Plan, i: nat)
    requires i + 4 <= |phases|
    ensures Before(phases, i + 4)
            == Before(phases, i) + phases[i].duration + phases[i + 1].duration + phases[i + 2].duration
               + phases[i + 3].duration
  {
    OneOn(phases, i);
    OneOn(phases, i + 1);
    OneOn(phases, i + 2);
    OneOn(phases, i + 3);
    hide Before;
  }

  lemma OneOn(phases: Plan, i: nat)
    requires i < |phases|
    ensures Before(phases, i + 1) == Before(phases, i) + phases[i].duration
  {
  }

  // ---------------------------------------------------------------------
  // Names
  // ---------------------------------------------------------------------

  /** A name with the white space around it taken off begins and ends with something else. */
  lemma {:induction false} StripRule(s: string) returns (i: nat, j: nat)
    ensures i <= j <= |s| && Strip(s) == s[i..j]
    ensures forall k :: 0 <= k < i || j <= k < |s| ==> IsSpace(s[k])
    ensures i < j ==> !IsSpace(s[i]) && !IsSpace(s[j - 1])
    decreases |s|
  {
    hide IsSpace;
    i, j := 0, |s|;
    if s != [] && IsSpace(s[0]) {
      i, j := StripRule(s[1..]);
      SliceOfTail(s, i, j);
      i, j := i + 1, j + 1;
    } else if s != [] && IsSpace(s[|s| - 1]) {
      i, j := StripRule(s[..|s| - 1]);
      assert s[..|s| - 1][i..j] == s[i..j];
    }
  }

  lemma SliceOfTail(s: string, i: nat, j: nat)
    requires s != [] && i <= j < |s|
    ensures s[1..][i..j] == s[i + 1..j + 1]
    ensures forall k :: 0 < k < |s| ==> s[k] == s[1..][k - 1]
  {
  }

  /** A group names the approaches whose initials it is made of. */
  lemma GroupRule(group: string)
    ensures GroupDirections(group).Some?
            <==> group in {"n", "s", "e", "w", "ns", "sn", "ew", "we"}
    ensures GroupDirections(group).Some? ==>
              |GroupDirections(group).value| == |group|
              && forall d: Direction :: d in GroupDirections(group).value <==> Initial(d) in group
  {
  }

  function Initial(d: Direction): char {
    match d case North => 'n' case South => 's' case East => 'e' case West => 'w'
  }

  lemma LastOf(group: string, color: string)
    requires forall c :: c in color ==> c != '_'
    ensures var name := group + "_" + color;
            LastUnderscore(name, |name|) == |group| && name[..|group|] == group && name[|group| + 1..] == color
  {
    var name := group + "_" + color;
    assert name[|group|] == '_';
    forall j | |group| < j < |name|
      ensures name[j] != '_'
    {
      assert name[j] == color[j - |group| - 1];
      assert color[j - |group| - 1] in color;
    }
    var u := LastUnderscore(name, |name|);
    assert |group| <= u < |name|;
  }

  lemma ColorsAreWords()
    ensures forall c :: c in "green" || c in "yellow" ==> c != '_'
  {
  }

  /** What a name stands for: a group's green, for as long as its corridor is configured, or its
      yellow, releasing or clearing every movement of the group. */
  lemma NamedPhase(raw: string, t: Timing, group: string, green: bool)
    requires Lower(Strip(raw)) == group + "_" + (if green then "green" else "yellow")
    requires GroupDirections(group).Some?
    ensures var r := PhaseFor(raw, t);
            && r.Some? && r.value.name == raw && r.value.directions == GroupDirections(group).value
            && r.value.color == (if green then Green else Yellow)
            && r.value.duration == (if green then ConfiguredGreen(t, GroupDirections(group).value[0]) else t.yellow)
            && (forall turn :: turn in r.value.turns <==> (turn == UTurn ==> t.uturn))
  {
    hide Lower, Strip, PhaseFor;
    ParsedAs(raw, t, group, green);
    GroupRule(group);
  }

  lemma ParsedAs(raw: string, t: Timing, group: string, green: bool)
    requires Lower(Strip(raw)) == group + "_" + (if green then "green" else "yellow")
    requires GroupDirections(group).Some?
    ensures var directions := GroupDirections(group).value;
            PhaseFor(raw, t)
            == Some(Phase(raw, directions, [Left, Straight, Right] + UTurns(t),
                          if green then GreenDurationFor(t, directions) else t.yellow, if green then Green else Yellow))
  {
    hide Lower, Strip, LastUnderscore, GroupDirections, GreenDurationFor;
    ColorsAreWords();
    LastOf(group, if green then "green" else "yellow");
    NotAllRed(group, green);
  }

  lemma NotAllRed(group: string, green: bool)
    ensures group + "_" + (if green then "green" else "yellow") != "all_red"
  {
    var name := group + "_" + (if green then "green" else "yellow");
    assert "all_red"[6] == 'd' && name[|name| - 1] == if green then 'n' else 'w';
  }

  /** No other name is understood. */
  lemma OnlyThese(raw: string, t: Timing) returns (group: string, green: bool)
    requires PhaseFor(raw, t).Some? && Lower(Strip(raw)) != "all_red"
    ensures GroupDirections(group).Some? && Lower(Strip(raw)) == group + "_" + if green then "green" else "yellow"
  {
    hide Lower, Strip, GroupDirections, GreenDurationFor;
    var name := Lower(Strip(raw));
    var u := LastUnderscore(name, |name|);
    group, green := name[..u], name[u + 1..] == "green";
    assert name == name[..u] + [name[u]] + name[u + 1..];
  }

  lemma AllRedName(raw: string, t: Timing)
    requires Lower(Strip(raw)) == "all_red"
    ensures PhaseFor(raw, t) == Some(Phase("all_red", [], [], t.allRed, Red))
  {
  }
}
