/** The metered entry gate: who may enter on which light, and the yellow-commit latch. */
module EntryGate {
  import opened Options
  import opened Phases
  import opened MeteringCursor

  datatype Reason = RedLight | YellowLight | RingSpillbackHold

  /** A vehicle on an entry lane; `commits` is whether it commits through a yellow now. */
  datatype Vehicle = Vehicle(id: string, position: real, commits: bool)

  datatype EntryLane = EntryLane(id: string, vehicles: seq<Vehicle>)

  datatype Decision = Open | Closed(reason: Reason)

  /** The front vehicle: the first of those furthest along. */
  function Head(vehicles: seq<Vehicle>): (h: Option<Vehicle>)
    ensures h.None? <==> vehicles == []
    ensures h.Some? ==> h.value in vehicles && forall v :: v in vehicles ==> v.position <= h.value.position
  {
    if vehicles == [] then None
    else
      var front, last := Head(vehicles[..|vehicles| - 1]), vehicles[|vehicles| - 1];
      assert vehicles == vehicles[..|vehicles| - 1] + [last];
      if front.None? || last.position > front.value.position then Some(last) else front
  }

  /** Of several furthest along, the head is the first in the lane's list. */
  lemma {:induction false} HeadIsFirst(vehicles: seq<Vehicle>) returns (k: nat)
    requires vehicles != []
    ensures k < |vehicles| && Head(vehicles) == Some(vehicles[k])
    ensures forall j :: 0 <= j < k ==> vehicles[j].position < vehicles[k].position
  {
    hide Head;
    var n := |vehicles| - 1;
    HeadStep(vehicles);
    if n == 0 {
      return 0;
    }
    k := HeadIsFirst(vehicles[..n]);
    if vehicles[n].position > vehicles[k].position {
      AllBehind(vehicles[..n], vehicles[n].position);
      k := n;
    }
  }

  lemma HeadStep(vehicles: seq<Vehicle>)
    requires vehicles != []
    ensures var front, last := Head(vehicles[..|vehicles| - 1]), vehicles[|vehicles| - 1];
            Head(vehicles) == if front.None? || last.position > front.value.position then Some(last) else front
  {
  }

  lemma AllBehind(vehicles: seq<Vehicle>, x: real)
    requires vehicles != [] && x > Head(vehicles).value.position
    ensures forall j :: 0 <= j < |vehicles| ==> vehicles[j].position < x
  {
    hide Head;
    forall j | 0 <= j < |vehicles|
      ensures vehicles[j].position < x
    {
      assert vehicles[j] in vehicles;
    }
  }

  function Ids(vehicles: seq<Vehicle>): set<string> {
    set v | v in vehicles :: v.id
  }

  /** Latches of vehicles that have left this lane are dropped. */
  function Pruned(latched: map<string, string>, lane: EntryLane): map<string, string> {
    map v | v in latched && !(latched[v] == lane.id && v !in Ids(lane.vehicles)) :: latched[v]
  }

  /** Why an arm is closed, if it is. */
  function ArmReason(plan: MeteringPlan, holds: set<Direction>, c: Cursor, d: Direction): Option<Reason>
    requires c.idx < |plan.phases|
  {
    if d !in plan.metered then None
    else if d in holds then Some(RingSpillbackHold)
    else match ColorOf(plan, c, d)
      case Yellow => Some(YellowLight)
      case Red => Some(RedLight)
      case Green => None
  }

  /** What the gate last recorded about an arm; nothing yet reads as open. */
  function Recorded(last: map<Direction, Option<Reason>>, d: Direction): Option<Reason> {
    if d in last then last[d] else None
  }

  /** The metered arms that are closed for reason `r` now and were not recorded so before. */
  function NewlyClosed(plan: MeteringPlan, holds: set<Direction>, c: Cursor, last: map<Direction, Option<Reason>>,
                       r: Reason): (s: set<Direction>)
    requires c.idx < |plan.phases|
    ensures s - plan.metered == {}
  {
    set d | d in plan.metered && ArmReason(plan, holds, c, d) == Some(r) && Recorded(last, d) != Some(r)
  }

  /** Whether the head of a lane may enter, given the latches still standing. */
  function Verdict(plan: MeteringPlan, holds: set<Direction>, c: Cursor, d: Direction, head: Option<Vehicle>,
                   latched: map<string, string>): Decision
    requires c.idx < |plan.phases|
  {
    var reason := ArmReason(plan, holds, c, d);
    if reason.None? then Open
    else if reason.value == RingSpillbackHold then Closed(RingSpillbackHold)
    else if head.Some? && head.value.id in latched then Open
    else if reason.value == YellowLight && head.Some? && head.value.commits then Open
    else Closed(reason.value)
  }

  // ---------------------------------------------------------------------
  // Latches over a run of consultations
  // ---------------------------------------------------------------------

  /** The arm's closure reason and the lane, as the gate is consulted. */
  datatype Consultation = Consultation(reason: Option<Reason>, lane: EntryLane)

  /** The light is yellow or red and no hold is on: the gate looks at the lane. */
  predicate LooksAtLane(now: Consultation) {
    now.reason == Some(YellowLight) || now.reason == Some(RedLight)
  }

  /** The head vehicle commits through this yellow. */
  predicate Commits(latched: map<string, string>, now: Consultation) {
    var head := Head(now.lane.vehicles);
    now.reason == Some(YellowLight) && head.Some? && head.value.id !in Pruned(latched, now.lane) && head.value.commits
  }

  function CommitsOf(latched: map<string, string>, now: Consultation): set<(string, string)> {
    if Commits(latched, now) then {(Head(now.lane.vehicles).value.id, now.lane.id)} else {}
  }

  /** The latches a consultation leaves. */
  function LatchesAfter(latched: map<string, string>, now: Consultation): map<string, string> {
    if !LooksAtLane(now) then latched
    else if Commits(latched, now) then Pruned(latched, now.lane)[Head(now.lane.vehicles).value.id := now.lane.id]
    else Pruned(latched, now.lane)
  }

  /** The latches after a run of consultations from a reset. */
  function LatchRun(run: seq<Consultation>): map<string, string> {
    if run == [] then map[] else LatchesAfter(LatchRun(run[..|run| - 1]), run[|run| - 1])
  }

  /** Vehicle `v` has left lane `l` when this consultation looks at it. */
  predicate SeesLeft(now: Consultation, v: string, l: string) {
    LooksAtLane(now) && now.lane.id == l && v !in Ids(now.lane.vehicles)
  }

  /** Consultation `j` of the run latched vehicle `v` on a yellow, as the head of lane `l`. */
  predicate LatchedAt(run: seq<Consultation>, j: nat, v: string, l: string)
    requires j < |run|
  {
    && Commits(LatchRun(run[..j]), run[j]) && run[j].lane.id == l
    && Head(run[j].lane.vehicles).value.id == v
  }

  /** Vehicle `v` committed on a yellow at some consultation of lane `l`, and none since has
      seen it gone from that lane. */
  ghost predicate Traced(run: seq<Consultation>, v: string, l: string) {
    exists j :: 0 <= j < |run| && LatchedAt(run, j, v, l) && forall i :: j < i < |run| ==> !SeesLeft(run[i], v, l)
  }

  lemma TracedGoesOn(run: seq<Consultation>, now: Consultation, v: string, l: string)
    requires Traced(run, v, l) && !SeesLeft(now, v, l)
    ensures Traced(run + [now], v, l)
  {
    hide SeesLeft, LatchRun, Commits, Head;
    var longer := run + [now];
    var j :| 0 <= j < |run| && LatchedAt(run, j, v, l) && forall i :: j < i < |run| ==> !SeesLeft(run[i], v, l);
    assert longer[..j] == run[..j] && longer[j] == run[j];
    assert LatchedAt(longer, j, v, l);
    assert forall i :: 0 <= i < |run| ==> longer[i] == run[i];
    assert longer[|run|] == now;
  }

  /** Over a whole run: whatever stands latched committed on an earlier yellow and has not been
      seen to leave its lane since. */
  lemma {:induction false} LatchesAreTraced(run: seq<Consultation>, v: string)
    requires v in LatchRun(run)
    ensures Traced(run, v, LatchRun(run)[v])
  {
    var n := |run| - 1;
    var before, now, l := run[..n], run[n], LatchRun(run)[v];
    assert run == before + [now];
    if LooksAtLane(now) && Commits(LatchRun(before), now) && Head(now.lane.vehicles).value.id == v {
      assert LatchedAt(run, n, v, l);
    } else {
      LatchesAreTraced(before, v);
      TracedGoesOn(before, now, v, l);
    }
  }

  /** So an entry on red is for a head vehicle that committed on an earlier yellow. */
  lemma RedOpensForTraced(plan: MeteringPlan, holds: set<Direction>, c: Cursor, d: Direction,
                          run: seq<Consultation>, lane: EntryLane)
    requires c.idx < |plan.phases| && ArmReason(plan, holds, c, d) == Some(RedLight)
    requires Verdict(plan, holds, c, d, Head(lane.vehicles), Pruned(LatchRun(run), lane)).Open?
    ensures exists v, l :: Head(lane.vehicles) == Some(v) && Traced(run, v.id, l)
  {
    var v := Head(lane.vehicles).value;
    LatchesAreTraced(run, v.id);
  }

  // The other way round: what committed and stayed is latched, and so is let in.

  /** Vehicle `v` is the head of the lane looked at and commits through a yellow. */
  predicate CommitsOnYellow(now: Consultation, v: string) {
    var head := Head(now.lane.vehicles);
    now.reason == Some(YellowLight) && head.Some? && head.value.id == v && head.value.commits
  }

  /** Wherever vehicle `v` commits in the run, it does so in lane `l`. */
  predicate OneLane(run: seq<Consultation>, v: string, l: string) {
    forall i :: 0 <= i < |run| && CommitsOnYellow(run[i], v) ==> run[i].lane.id == l
  }

  /** Vehicle `v` committed on a yellow and no look at lane `l` since has missed it. */
  predicate CommittedAndStayed(run: seq<Consultation>, v: string, l: string) {
    exists j :: 0 <= j < |run| && CommitsOnYellow(run[j], v) && forall i :: j < i < |run| ==> !SeesLeft(run[i], v, l)
  }

  lemma LatchRunStep(run: seq<Consultation>, now: Consultation)
    ensures LatchRun(run + [now]) == LatchesAfter(LatchRun(run), now)
  {
    hide LatchesAfter;
    assert (run + [now])[..|run|] == run;
  }

  lemma OneMoreLook(run: seq<Consultation>, now: Consultation, v: string, l: string)
    ensures CommittedAndStayed(run + [now], v, l)
            <==> CommitsOnYellow(now, v) || (CommittedAndStayed(run, v, l) && !SeesLeft(now, v, l))
  {
    hide CommitsOnYellow, SeesLeft;
    var longer := run + [now];
    if j :| 0 <= j < |run| && CommitsOnYellow(run[j], v) && forall i :: j < i < |run| ==> !SeesLeft(run[i], v, l) {
      assert longer[j] == run[j];
    }
    if CommitsOnYellow(now, v) {
      assert longer[|run|] == now;
    }
    if j :| 0 <= j < |longer| && CommitsOnYellow(longer[j], v)
            && forall i :: j < i < |longer| ==> !SeesLeft(longer[i], v, l) {
      if j < |run| {
        assert longer[j] == run[j] && longer[|run|] == now;
        assert forall i :: 0 <= i < |run| ==> longer[i] == run[i];
      }
    }
  }

  /** What one look does to the latch of a vehicle that is latched for lane `l` or not at all. */
  lemma OneMoreLatch(latched: map<string, string>, now: Consultation, v: string, l: string)
    requires v in latched ==> latched[v] == l
    requires CommitsOnYellow(now, v) ==> now.lane.id == l
    ensures v in LatchesAfter(latched, now)
            <==> CommitsOnYellow(now, v) || (v in latched && !SeesLeft(now, v, l))
    ensures v in LatchesAfter(latched, now) ==> LatchesAfter(latched, now)[v] == l
    ensures Commits(latched, now) && CommitsOnYellow(now, v) <==> CommitsOnYellow(now, v) && v !in latched
  {
    var head := Head(now.lane.vehicles);
    assert head.Some? ==> head.value.id in Ids(now.lane.vehicles);
    hide Head;
  }

  /** Over a whole run: a vehicle that commits in one lane only stands latched exactly if it has
      committed on a yellow and no look at that lane since has missed it. */
  lemma {:induction false} LatchedIff(run: seq<Consultation>, v: string, l: string)
    requires OneLane(run, v, l)
    ensures v in LatchRun(run) <==> CommittedAndStayed(run, v, l)
    ensures v in LatchRun(run) ==> LatchRun(run)[v] == l
  {
    hide CommitsOnYellow, SeesLeft, LatchesAfter, CommittedAndStayed;
    if run == [] {
      NoneCommitted(v, l);
    } else {
      var n := |run| - 1;
      assert run == run[..n] + [run[n]];
      LatchedIff(run[..n], v, l);
      OneMoreLook(run[..n], run[n], v, l);
      OneMoreLatch(LatchRun(run[..n]), run[n], v, l);
    }
  }

  lemma NoneCommitted(v: string, l: string)
    ensures !CommittedAndStayed([], v, l)
  {
  }

  /** The decision at a yellow or red light, on the run so far and the lane looked at: the head
      vehicle `v` is let in exactly if it has committed on a yellow, now or before, and has been
      in its lane at every look since; and it is counted as a commit only the first time. */
  lemma OpensIff(plan: MeteringPlan, holds: set<Direction>, c: Cursor, d: Direction, run: seq<Consultation>,
                 lane: EntryLane, v: Vehicle, l: string)
    requires c.idx < |plan.phases|
    requires var now := Consultation(ArmReason(plan, holds, c, d), lane);
             LooksAtLane(now) && Head(lane.vehicles) == Some(v) && OneLane(run + [now], v.id, l)
    ensures var now := Consultation(ArmReason(plan, holds, c, d), lane);
            && (Verdict(plan, holds, c, d, Some(v), Pruned(LatchRun(run), lane)).Open?
                <==> CommittedAndStayed(run + [now], v.id, l))
            && (Commits(LatchRun(run), now)
                <==> CommitsOnYellow(now, v.id) && !CommittedAndStayed(run, v.id, l))
  {
    var now := Consultation(ArmReason(plan, holds, c, d), lane);
    hide Head, Pruned, ArmReason, CommittedAndStayed, LatchRun;
    OneLaneBefore(run, now, v.id, l);
    LatchedIff(run, v.id, l);
    OneMoreLook(run, now, v.id, l);
    OneMoreLatch(LatchRun(run), now, v.id, l);
    StaysIfSeen(LatchRun(run), lane, v);
  }

  /** The rule of the last consultation of a run, on lights, lanes and commits alone. */
  ghost predicate DecidedBy(run: seq<Consultation>, r: Decision, before: map<Event, nat>, after: map<Event, nat>)
    requires run != []
  {
    var earlier, now := run[..|run| - 1], run[|run| - 1];
    match now.reason
    case None => r == Open
    case Some(RingSpillbackHold) => r == Closed(RingSpillbackHold)
    case Some(light) =>
      match Head(now.lane.vehicles)
      case None => r == Closed(light)
      case Some(v) =>
        forall l | OneLane(run, v.id, l) ::
          && r == (if CommittedAndStayed(run, v.id, l) then Open else Closed(light))
          && Count(after, YellowCommit)
             == Count(before, YellowCommit)
                + if CommitsOnYellow(now, v.id) && !CommittedAndStayed(earlier, v.id, l) then 1 else 0
  }

  lemma DecisionRule(plan: MeteringPlan, holds: set<Direction>, c: Cursor, d: Direction, run: seq<Consultation>,
                     lane: EntryLane, r: Decision, before: map<Event, nat>, after: map<Event, nat>)
    requires c.idx < |plan.phases|
    requires r == Verdict(plan, holds, c, d, Head(lane.vehicles), Pruned(LatchRun(run), lane))
    requires after == if r.Closed? then Bump(before, EntryDenial)
                      else if Commits(LatchRun(run), Consultation(ArmReason(plan, holds, c, d), lane))
                      then Bump(before, YellowCommit) else before
    ensures DecidedBy(run + [Consultation(ArmReason(plan, holds, c, d), lane)], r, before, after)
  {
    hide Pruned, Bump, LatchRun, OneLane, CommittedAndStayed, CommitsOnYellow, ArmReason, Count;
    var now := Consultation(ArmReason(plan, holds, c, d), lane);
    assert (run + [now])[..|run|] == run;
    if LooksAtLane(now) && Head(lane.vehicles).Some? {
      var v := Head(lane.vehicles).value;
      forall l | OneLane(run + [now], v.id, l)
        ensures r == (if CommittedAndStayed(run + [now], v.id, l) then Open else Closed(now.reason.value))
        ensures Count(after, YellowCommit)
                == Count(before, YellowCommit)
                   + if CommitsOnYellow(now, v.id) && !CommittedAndStayed(run, v.id, l) then 1 else 0
      {
        OpensIff(plan, holds, c, d, run, lane, v, l);
        LightDecides(plan, holds, c, d, lane, LatchRun(run), now);
      }
    }
  }

  lemma LightDecides(plan: MeteringPlan, holds: set<Direction>, c: Cursor, d: Direction, lane: EntryLane,
                     latched: map<string, string>, now: Consultation)
    requires c.idx < |plan.phases| && now == Consultation(ArmReason(plan, holds, c, d), lane) && LooksAtLane(now)
    ensures var r := Verdict(plan, holds, c, d, Head(lane.vehicles), Pruned(latched, lane));
            (r == Open || r == Closed(now.reason.value)) && (Commits(latched, now) ==> r == Open)
  {
    hide Pruned, Head, ArmReason;
  }

  lemma OneLaneBefore(run: seq<Consultation>, now: Consultation, v: string, l: string)
    requires OneLane(run + [now], v, l)
    ensures OneLane(run, v, l) && (CommitsOnYellow(now, v) ==> now.lane.id == l)
  {
    hide CommitsOnYellow;
    assert (run + [now])[|run|] == now;
    assert forall i :: 0 <= i < |run| ==> (run + [now])[i] == run[i];
  }

  lemma StaysIfSeen(latched: map<string, string>, lane: EntryLane, v: Vehicle)
    requires v in lane.vehicles
    ensures v.id in Pruned(latched, lane) <==> v.id in latched
    ensures v.id in Ids(lane.vehicles)
  {
  }

  /** What the gate counts: arms found newly closed, by reason, and four other events. */
  datatype Event = Closing(reason: Reason) | QueueCapEvent | YellowCommit | SpillbackExhausted | EntryDenial

  /** How often a key was counted; a missing key reads as zero. */
  function Count<K(==)>(counts: map<K, nat>, k: K): nat {
    if k in counts then counts[k] else 0
  }

  function Bump<K(==, !new)>(counts: map<K, nat>, k: K): (r: map<K, nat>)
    ensures forall j :: Count(r, j) == Count(counts, j) + if j == k then 1 else 0
  {
    counts[k := Count(counts, k) + 1]
  }

  /** All refusals, whatever the reason. */
  function Refusals(denials: map<Reason, nat>): nat {
    Count(denials, RedLight) + Count(denials, YellowLight) + Count(denials, RingSpillbackHold)
  }

  /** `after` counts one more closing than `before` if an arm went to a new closure reason. */
  ghost predicate CountedOne(before: map<Event, nat>, after: map<Event, nat>, reason: Option<Reason>,
                             prev: Option<Reason>) {
    forall e: Event :: Count(after, e)
      == Count(before, e) + if e.Closing? && reason == Some(e.reason) != prev then 1 else 0
  }

  /** `after` counts, over `before`, every newly closed arm outside `rest` once. */
  ghost predicate Counted(before: map<Event, nat>, after: map<Event, nat>, plan: MeteringPlan, holds: set<Direction>,
                          c: Cursor, last: map<Direction, Option<Reason>>, rest: set<Direction>)
    requires c.idx < |plan.phases|
  {
    forall e: Event :: Count(after, e)
      == Count(before, e) + if e.Closing? then |NewlyClosed(plan, holds, c, last, e.reason) - rest| else 0
  }

  class MeteredEntryGate {
    const plan: MeteringPlan
    const cursor: MeteringPhaseCursor
    var yellowLatched: map<string, string>
    var spillbackHolds: set<Direction>
    var lastState: map<Direction, Option<Reason>>
    var decisionCounts: map<Event, nat>
    var denialCounts: map<Reason, nat>
    /** Every (vehicle, lane) that committed through a yellow since the last reset, and every
        consultation. */
    ghost var committed: set<(string, string)>
    ghost var history: seq<Consultation>

    /** The latches are what the consultations left. */
    ghost predicate Valid()
      reads this
    {
      Books() && yellowLatched == LatchRun(history)
    }

    /** Denials add up, and a latch is only ever the trace of a yellow commit. */
    ghost predicate Books()
      reads this
    {
      && cursor.plan == plan
      && Count(decisionCounts, EntryDenial) == Refusals(denialCounts)
      && forall v :: v in yellowLatched ==> (v, yellowLatched[v]) in committed
    }

    constructor (cursor: MeteringPhaseCursor)
      ensures Valid() && this.cursor == cursor && plan == cursor.plan && spillbackHolds == {} && lastState == map[]
      ensures yellowLatched == map[] && committed == {} && denialCounts == map[] && decisionCounts == map[]
      ensures history == []
    {
      this.plan, this.cursor := cursor.plan, cursor;
      yellowLatched, spillbackHolds, lastState := map[], {}, map[];
      decisionCounts, denialCounts, committed, history := map[], map[], {}, [];
    }

    method Reset()
      requires Valid()
      modifies this
      ensures Valid() && spillbackHolds == {} && lastState == map[]
      ensures yellowLatched == map[] && committed == {} && denialCounts == map[] && decisionCounts == map[]
      ensures history == []
    {
      yellowLatched, spillbackHolds, lastState := map[], {}, map[];
      decisionCounts, denialCounts, committed, history := map[], map[], {}, [];
    }

    method RecordEntryDenial(reason: Reason)
      requires Books()
      modifies this`denialCounts, this`decisionCounts
      ensures Books() && (old(Valid()) ==> Valid())
      ensures denialCounts == Bump(old(denialCounts), reason)
      ensures decisionCounts == Bump(old(decisionCounts), EntryDenial)
    {
      denialCounts := Bump(denialCounts, reason);
      decisionCounts := Bump(decisionCounts, EntryDenial);
    }

    /** One consultation. A light other than green opens only for a head vehicle that commits
        now, on yellow, or that committed on an earlier yellow and has not left its lane since. */
    method Allows(d: Direction, lane: EntryLane) returns (r: Decision)
      requires Valid() && cursor.currentPhaseIdx < |plan.phases|
      modifies this`yellowLatched, this`committed, this`decisionCounts, this`denialCounts, this`history
      ensures Valid()
      ensures r == Verdict(plan, spillbackHolds, cursor.State(), d, Head(lane.vehicles),
                           Pruned(old(yellowLatched), lane))
      ensures var now := Consultation(ArmReason(plan, spillbackHolds, cursor.State(), d), lane);
              && yellowLatched == LatchesAfter(old(yellowLatched), now)
              && committed == old(committed) + CommitsOf(old(yellowLatched), now)
              && decisionCounts == (if r.Closed? then Bump(old(decisionCounts), EntryDenial)
                                    else if Commits(old(yellowLatched), now)
                                    then Bump(old(decisionCounts), YellowCommit) else old(decisionCounts))
      ensures denialCounts == if r.Closed? then Bump(old(denialCounts), r.reason) else old(denialCounts)
      ensures history == old(history) + [Consultation(ArmReason(plan, spillbackHolds, cursor.State(), d), lane)]
      ensures DecidedBy(history, r, old(decisionCounts), decisionCounts)
    {
      hide Verdict, LatchesAfter, CommitsOf, Commits, Bump, LatchRun, DecidedBy, ArmReason, Pruned, Head;
      ghost var now := Consultation(ArmReason(plan, spillbackHolds, cursor.State(), d), lane);
      ghost var run, counts := history, decisionCounts;
      r := Decide(d, lane);
      history := run + [now];
      LatchRunStep(run, now);
      DecisionRule(plan, spillbackHolds, cursor.State(), d, run, lane, r, counts, decisionCounts);
    }

    /** The decision, and what it leaves. */
    method Decide(d: Direction, lane: EntryLane) returns (r: Decision)
      requires Books() && cursor.currentPhaseIdx < |plan.phases|
      modifies this`yellowLatched, this`committed, this`decisionCounts, this`denialCounts
      ensures Books()
      ensures r == Verdict(plan, spillbackHolds, cursor.State(), d, Head(lane.vehicles),
                           Pruned(old(yellowLatched), lane))
      ensures var now := Consultation(ArmReason(plan, spillbackHolds, cursor.State(), d), lane);
              && yellowLatched == LatchesAfter(old(yellowLatched), now)
              && committed == old(committed) + CommitsOf(old(yellowLatched), now)
              && decisionCounts == (if r.Closed? then Bump(old(decisionCounts), EntryDenial)
                                    else if Commits(old(yellowLatched), now)
                                    then Bump(old(decisionCounts), YellowCommit) else old(decisionCounts))
      ensures denialCounts == if r.Closed? then Bump(old(denialCounts), r.reason) else old(denialCounts)
    {
      hide Pruned, Head, Bump;
      var c := Cursor(cursor.currentPhaseIdx, cursor.timeInCurrentState, cursor.cycleNumber);
      if d !in plan.metered {
        return Open;
      }
      if d in spillbackHolds {
        RecordEntryDenial(RingSpillbackHold);
        return Closed(RingSpillbackHold);
      }
      var color := ColorOf(plan, c, d);
      if color == Green {
        return Open;
      }
      PruneLatches(lane);
      r := AllowsHead(color, lane, Head(lane.vehicles));
    }

    /** The decision for a head vehicle on a yellow or red light; only a yellow commit latches. */
    method AllowsHead(color: Color, lane: EntryLane, head: Option<Vehicle>) returns (r: Decision)
      requires Books() && color != Green
      modifies this`yellowLatched, this`committed, this`decisionCounts, this`denialCounts
      ensures Books()
      ensures r == if head.Some? && (head.value.id in old(yellowLatched) || (color == Yellow && head.value.commits))
                   then Open
                   else Closed(if color == Yellow then YellowLight else RedLight)
      ensures var latches := color == Yellow && head.Some? && head.value.id !in old(yellowLatched)
                             && head.value.commits;
              && yellowLatched == (if latches then old(yellowLatched)[head.value.id := lane.id] else old(yellowLatched))
              && committed == old(committed) + (if latches then {(head.value.id, lane.id)} else {})
              && decisionCounts == (if r.Closed? then Bump(old(decisionCounts), EntryDenial)
                                    else if latches then Bump(old(decisionCounts), YellowCommit)
                                    else old(decisionCounts))
      ensures denialCounts == if r.Closed? then Bump(old(denialCounts), r.reason) else old(denialCounts)
    {
      if head.Some? && head.value.id in yellowLatched {
        return Open;
      }
      if color == Yellow {
        if head.Some? && head.value.commits {
          yellowLatched := yellowLatched[head.value.id := lane.id];
          decisionCounts := Bump(decisionCounts, YellowCommit);
          committed := committed + {(head.value.id, lane.id)};
          return Open;
        }
        RecordEntryDenial(YellowLight);
        return Closed(YellowLight);
      }
      RecordEntryDenial(RedLight);
      return Closed(RedLight);
    }

    method PruneLatches(lane: EntryLane)
      requires Books()
      modifies this`yellowLatched
      ensures Books() && yellowLatched == Pruned(old(yellowLatched), lane)
      ensures forall v :: v in yellowLatched <==>
                v in old(yellowLatched)
                && (old(yellowLatched)[v] != lane.id || exists x :: x in lane.vehicles && x.id == v)
      ensures forall v :: v in yellowLatched ==> yellowLatched[v] == old(yellowLatched)[v]
    {
      var rest := yellowLatched.Keys;
      while rest != {}
        invariant rest <= old(yellowLatched).Keys
        invariant forall v :: v in yellowLatched <==>
                    v in old(yellowLatched) && (v in rest || v in Pruned(old(yellowLatched), lane))
        invariant forall v :: v in yellowLatched ==> yellowLatched[v] == old(yellowLatched)[v]
        decreases rest
      {
        var v :| v in rest;
        rest := rest - {v};
        if yellowLatched[v] == lane.id && v !in Ids(lane.vehicles) {
          yellowLatched := yellowLatched - {v};
        }
      }
    }

    /** Records every metered arm's state, counting each closing once, by its reason. */
    method Update()
      requires Valid() && cursor.currentPhaseIdx < |plan.phases|
      modifies this`lastState, this`decisionCounts
      ensures Valid()
      ensures forall d :: Recorded(lastState, d)
                == if d in plan.metered then ArmReason(plan, spillbackHolds, cursor.State(), d)
                    else Recorded(old(lastState), d)
      ensures Counted(old(decisionCounts), decisionCounts, plan, spillbackHolds, cursor.State(), old(lastState), {})
      ensures forall r: Reason :: Count(decisionCounts, Closing(r)) == Count(old(decisionCounts), Closing(r))
                + |set d | d in plan.metered && ArmReason(plan, spillbackHolds, cursor.State(), d) == Some(r)
                           && (d !in old(lastState) || old(lastState)[d] != Some(r))|
    {
      ClosingsCounted(old(decisionCounts), plan, spillbackHolds, cursor.State(), lastState);
      hide ArmReason, Recorded, Count, Counted;
      var c := Cursor(cursor.currentPhaseIdx, cursor.timeInCurrentState, cursor.cycleNumber);
      var rest := plan.metered;
      NoneCounted(decisionCounts, plan, spillbackHolds, c, lastState);
      while rest != {}
        invariant rest <= plan.metered && Valid()
        invariant forall d :: Recorded(lastState, d)
                    == if d in plan.metered - rest then ArmReason(plan, spillbackHolds, c, d)
                        else Recorded(old(lastState), d)
        invariant Counted(old(decisionCounts), decisionCounts, plan, spillbackHolds, c, old(lastState), rest)
        decreases rest
      {
        var d :| d in rest;
        ghost var counts, last := decisionCounts, lastState;
        RecordArm(c, d);
        OneMoreCounted(old(decisionCounts), counts, decisionCounts, plan, spillbackHolds, c, old(lastState), last,
                       rest, d);
        rest := rest - {d};
      }
    }

    method RecordArm(c: Cursor, d: Direction)
      requires Valid() && c.idx < |plan.phases|
      modifies this`lastState, this`decisionCounts
      ensures Valid()
      ensures forall e :: Recorded(lastState, e)
                == if e == d then ArmReason(plan, spillbackHolds, c, d) else Recorded(old(lastState), e)
      ensures CountedOne(old(decisionCounts), decisionCounts, ArmReason(plan, spillbackHolds, c, d),
                         Recorded(old(lastState), d))
    {
      var reason := ArmReason(plan, spillbackHolds, c, d);
      var prev := Recorded(lastState, d);
      if reason != prev {
        lastState := lastState[d := reason];
        if reason.Some? {
          decisionCounts := Bump(decisionCounts, Closing(reason.value));
        }
      }
    }

    method SetSpillbackHolds(held: set<Direction>)
      requires Valid()
      modifies this`spillbackHolds
      ensures Valid() && spillbackHolds == held
    {
      spillbackHolds := held;
    }

    /** Counts one queue cap or spillback exhaustion. */
    method RecordEvent(event: Event)
      requires Valid() && (event.QueueCapEvent? || event.SpillbackExhausted?)
      modifies this`decisionCounts
      ensures Valid() && decisionCounts == Bump(old(decisionCounts), event)
    {
      decisionCounts := Bump(decisionCounts, event);
    }
  }

  /** What the counts of closings come to when every newly closed arm is counted. */
  lemma ClosingsCounted(before: map<Event, nat>, plan: MeteringPlan, holds: set<Direction>, c: Cursor,
                        last: map<Direction, Option<Reason>>)
    requires c.idx < |plan.phases|
    ensures forall after, r: Reason :: Counted(before, after, plan, holds, c, last, {}) ==>
              Count(after, Closing(r)) == Count(before, Closing(r))
                + |set d | d in plan.metered && ArmReason(plan, holds, c, d) == Some(r)
                           && (d !in last || last[d] != Some(r))|
  {
    hide ArmReason, Count;
    forall after, r: Reason | Counted(before, after, plan, holds, c, last, {})
      ensures Count(after, Closing(r)) == Count(before, Closing(r))
                + |set d | d in plan.metered && ArmReason(plan, holds, c, d) == Some(r)
                           && (d !in last || last[d] != Some(r))|
    {
      assert NewlyClosed(plan, holds, c, last, r) - {}
          == set d | d in plan.metered && ArmReason(plan, holds, c, d) == Some(r)
                     && (d !in last || last[d] != Some(r));
      assert Closing(r).Closing?;
    }
  }

  /** One more arm visited adds one closing exactly when that arm is newly closed. */
  lemma Grow(plan: MeteringPlan, holds: set<Direction>, c: Cursor, last: map<Direction, Option<Reason>>, r: Reason,
             rest: set<Direction>, d: Direction)
    requires c.idx < |plan.phases| && d in rest && rest <= plan.metered
    ensures |NewlyClosed(plan, holds, c, last, r) - (rest - {d})|
            == |NewlyClosed(plan, holds, c, last, r) - rest|
               + if ArmReason(plan, holds, c, d) == Some(r) != Recorded(last, d) then 1 else 0
  {
    var s := NewlyClosed(plan, holds, c, last, r);
    if d in s {
      assert s - (rest - {d}) == (s - rest) + {d};
    } else {
      assert s - (rest - {d}) == s - rest;
    }
  }

  lemma NoneCounted(counts: map<Event, nat>, plan: MeteringPlan, holds: set<Direction>, c: Cursor,
                    last: map<Direction, Option<Reason>>)
    requires c.idx < |plan.phases|
    ensures Counted(counts, counts, plan, holds, c, last, plan.metered)
  {
  }

  lemma OneMoreCounted(before: map<Event, nat>, mid: map<Event, nat>, after: map<Event, nat>,
                       plan: MeteringPlan, holds: set<Direction>, c: Cursor, last: map<Direction, Option<Reason>>,
                       now: map<Direction, Option<Reason>>, rest: set<Direction>, d: Direction)
    requires c.idx < |plan.phases| && d in rest && rest <= plan.metered
    requires Counted(before, mid, plan, holds, c, last, rest)
    requires Recorded(now, d) == Recorded(last, d)
    requires CountedOne(mid, after, ArmReason(plan, holds, c, d), Recorded(now, d))
    ensures Counted(before, after, plan, holds, c, last, rest - {d})
  {
    hide ArmReason, Recorded, Count, NewlyClosed;
    forall r {
      Grow(plan, holds, c, last, r, rest, d);
    }
  }

  /** With every arm visited, each reason has counted all its newly closed arms. */
  lemma AllClosingsCounted(before: map<Event, nat>, after: map<Event, nat>, plan: MeteringPlan, holds: set<Direction>,
                           c: Cursor, last: map<Direction, Option<Reason>>)
    requires c.idx < |plan.phases| && Counted(before, after, plan, holds, c, last, {})
    ensures forall e: Event :: Count(after, e)
              == Count(before, e) + if e.Closing? then |NewlyClosed(plan, holds, c, last, e.reason)| else 0
  {
    hide Count, NewlyClosed;
    forall r {
      NoneLeft(NewlyClosed(plan, holds, c, last, r));
    }
  }

  lemma NoneLeft(s: set<Direction>)
    ensures s - {} == s
  {
  }
}
