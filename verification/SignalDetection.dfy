/** Stop-line detection: which lanes a phase releases, and how vehicles on them are counted. */
module SignalDetection {
  import opened Phases
  import SignalPlans

  type LaneId = nat

  /** A vehicle and the lane it is on; during a lane change, the lane it moves into. */
  datatype Vehicle = Vehicle(id: nat, lane: LaneId, position: real, speed: real)

  /** The incoming lanes of each approach, their lengths, the vehicles registered on each, and
      the turns configured for a lane head, if any. */
  datatype Network = Network(
    approaches: map<Direction, seq<LaneId>>, length: map<LaneId, real>, registered: map<LaneId, seq<Vehicle>>,
    configured: map<(Direction, nat), set<Turn>>)

  datatype Obstacle = Clear | YellowLine | StopLine

  const MOVING_SPEED := 1.0

  function Members(lanes: seq<LaneId>): set<LaneId> {
    set l | l in lanes
  }

  predicate Distinct<T(==)>(s: seq<T>) {
    forall i, j :: 0 <= i < j < |s| ==> s[i] != s[j]
  }

  function VehiclesOn(net: Network, l: LaneId): seq<Vehicle> {
    if l in net.registered then net.registered[l] else []
  }

  function StopLineOf(net: Network, l: LaneId): real {
    if l in net.length then net.length[l] else 0.0
  }

  /** A lane has one place on one approach, and a vehicle is registered on it at most once. */
  ghost predicate NetworkOk(net: Network) {
    && (forall d :: d in net.approaches ==> Distinct(net.approaches[d]))
    && (forall l :: Distinct(VehiclesOn(net, l)))
    && (forall d, e, l ::
          d in net.approaches && e in net.approaches && l in net.approaches[d] && l in net.approaches[e] ==> d == e)
  }

  // ---------------------------------------------------------------------
  // Which lanes a phase releases
  // ---------------------------------------------------------------------

  /** The movements a lane serves by its index: with several lanes, the first turns left. */
  function LaneTurnIntent(index: nat, total: nat): set<Turn> {
    if total <= 1 then {Left, Straight, Right}
    else if index == 0 then {Left}
    else if total == 2 then {Straight, Right}
    else if index == total - 1 then {Right}
    else {Straight}
  }

  /** A lane's own arrows when it has any, else the index policy. */
  function LaneTurns(net: Network, d: Direction, index: nat, total: nat): set<Turn> {
    if (d, index) in net.configured && net.configured[(d, index)] != {} then net.configured[(d, index)]
    else LaneTurnIntent(index, total)
  }

  /** The policy, movement by movement: left turns from the first lane, right turns from the last,
      and the way straight on every lane that is neither, on the last of two, and on a single lane;
      so every movement has its lane. */
  lemma WhoServes(index: nat, total: nat)
    requires index < total
    ensures Left in LaneTurnIntent(index, total) <==> index == 0
    ensures Right in LaneTurnIntent(index, total) <==> index == total - 1
    ensures Straight in LaneTurnIntent(index, total)
            <==> total == 1 || (index > 0 && (total == 2 || index < total - 1))
    ensures UTurn !in LaneTurnIntent(index, total)
  {
  }

  /** Whether a lane's head shows the colour of a phase: through its own arrows when it has any,
      else through the movements the policy gives it. */
  lemma ShowsRule(net: Network, phase: Phase, d: Direction, k: nat)
    requires d in net.approaches && k < |net.approaches[d]|
    ensures var n := |net.approaches[d]|;
            Shows(net, phase, d, k) <==>
              && d in phase.directions
              && if (d, k) in net.configured && net.configured[(d, k)] != {}
                 then exists t :: t in net.configured[(d, k)] && t in phase.turns
                 else || (k == 0 && Left in phase.turns) || (k == n - 1 && Right in phase.turns)
                      || ((n == 1 || (k > 0 && (n == 2 || k < n - 1))) && Straight in phase.turns)
  {
    WhoServes(k, |net.approaches[d]|);
    hide LaneTurnIntent;
    if t :| t in LaneTurns(net, d, k, |net.approaches[d]|) && t in phase.turns {
      assert t == Left || t == Straight || t == Right || t == UTurn;
    }
  }

  /** The phase shows its colour to lane `k` of approach `d`. */
  predicate Shows(net: Network, phase: Phase, d: Direction, k: nat)
    requires d in net.approaches && k < |net.approaches[d]|
  {
    d in phase.directions && exists t :: t in LaneTurns(net, d, k, |net.approaches[d]|) && t in phase.turns
  }

  /** Lane `l` of approach `d` is one the phase shows its colour to. */
  predicate ShownOn(net: Network, phase: Phase, d: Direction, l: LaneId) {
    && d in net.approaches
    && exists k :: 0 <= k < |net.approaches[d]| && net.approaches[d][k] == l && Shows(net, phase, d, k)
  }

  ghost predicate Shown(net: Network, phase: Phase, l: LaneId) {
    exists d :: ShownOn(net, phase, d, l)
  }

  /** The obstacle at the end of a lane of approach `d`. */
  function Head(net: Network, phase: Phase, d: Direction, l: LaneId): Obstacle {
    if !ShownOn(net, phase, d, l) then StopLine
    else match phase.color case Green => Clear case Yellow => YellowLine case Red => StopLine
  }

  /** The obstacles at the stop lines for the phase now shown. */
  method ApplySignals(net: Network, phase: Phase) returns (obstacles: map<LaneId, Obstacle>)
    requires NetworkOk(net)
    ensures forall d, l :: d in net.approaches && l in net.approaches[d] ==>
              l in obstacles && obstacles[l] == Head(net, phase, d, l)
    ensures forall d, k :: d in net.approaches && 0 <= k < |net.approaches[d]| ==>
              var l := net.approaches[d][k];
              && l in obstacles
              && (obstacles[l] == Clear <==> phase.color == Green && Shows(net, phase, d, k))
              && (obstacles[l] == YellowLine <==> phase.color == Yellow && Shows(net, phase, d, k))
  {
    forall d, k | d in net.approaches && 0 <= k < |net.approaches[d]| {
      OnlyIndex(net, phase, d, k);
    }
    obstacles := map[];
    var rest := net.approaches.Keys;
    while rest != {}
      invariant rest <= net.approaches.Keys
      invariant forall d, l :: d in net.approaches && d !in rest && l in net.approaches[d] ==>
                  l in obstacles && obstacles[l] == Head(net, phase, d, l)
      decreases rest
    {
      var d :| d in rest;
      rest := rest - {d};
      obstacles := ApplyApproach(net, phase, d, obstacles);
    }
  }

  method ApplyApproach(net: Network, phase: Phase, d: Direction, before: map<LaneId, Obstacle>)
      returns (obstacles: map<LaneId, Obstacle>)
    requires NetworkOk(net) && d in net.approaches
    ensures forall l :: l in net.approaches[d] ==> l in obstacles && obstacles[l] == Head(net, phase, d, l)
    ensures forall l :: l in before && l !in net.approaches[d] ==> l in obstacles && obstacles[l] == before[l]
  {
    obstacles := before;
    var lanes := net.approaches[d];
    for k := 0 to |lanes|
      invariant forall j :: 0 <= j < k ==> lanes[j] in obstacles && obstacles[lanes[j]] == Head(net, phase, d, lanes[j])
      invariant forall l :: l in before && l !in lanes ==> l in obstacles && obstacles[l] == before[l]
    {
      var green, yellow := false, false;
      if Shows(net, phase, d, k) {
        if phase.color == Green {
          green := true;
        } else if phase.color == Yellow {
          yellow := true;
        }
      }
      OnlyIndex(net, phase, d, k);
      obstacles := obstacles[lanes[k] := if green then Clear else if yellow then YellowLine else StopLine];
    }
  }

  /** A lane is shown a colour through its one place on its approach. */
  lemma OnlyIndex(net: Network, phase: Phase, d: Direction, k: nat)
    requires NetworkOk(net) && d in net.approaches && k < |net.approaches[d]|
    ensures ShownOn(net, phase, d, net.approaches[d][k]) <==> Shows(net, phase, d, k)
  {
  }

  /** The lanes each green phase releases. */
  method ReleasedLanes(net: Network, phases: Plan) returns (released: map<nat, seq<LaneId>>)
    requires NetworkOk(net)
    ensures forall i :: i in released <==> 0 <= i < |phases| && phases[i].IsGreen()
    ensures forall i, l :: i in released ==> (l in released[i] <==> Shown(net, phases[i], l))
    ensures forall i :: i in released && Distinct(phases[i].directions) ==> Distinct(released[i])
  {
    released := map[];
    for i := 0 to |phases|
      invariant forall j :: j in released <==> 0 <= j < i && phases[j].IsGreen()
      invariant forall j, l :: j in released ==> (l in released[j] <==> Shown(net, phases[j], l))
      invariant forall j :: j in released && Distinct(phases[j].directions) ==> Distinct(released[j])
    {
      if phases[i].color == Green {
        var lanes := LanesOf(net, phases[i]);
        released := released[i := lanes];
      }
    }
  }

  /** Every phase a plan is built of names an approach at most once, so releases no lane twice. */
  lemma BuiltPhasesReleaseOnce(raw: string, d: Direction, t: SignalPlans.Timing)
    ensures SignalPlans.PhaseFor(raw, t).Some? ==> Distinct(SignalPlans.PhaseFor(raw, t).value.directions)
    ensures forall j :: 0 <= j < 4 ==> Distinct(SignalPlans.DirectionBlock(d, t)[j].directions)
  {
    hide SignalPlans.Strip, SignalPlans.Lower, SignalPlans.LastUnderscore;
  }

  lemma OneApproach(net: Network, phase: Phase, d: Direction, e: Direction, l: LaneId)
    requires NetworkOk(net) && ShownOn(net, phase, d, l) && ShownOn(net, phase, e, l)
    ensures d == e
  {
    assert l in net.approaches[d] && l in net.approaches[e];
  }

  method LanesOf(net: Network, phase: Phase) returns (lanes: seq<LaneId>)
    requires NetworkOk(net)
    ensures forall l :: l in lanes <==> Shown(net, phase, l)
    ensures Distinct(phase.directions) ==> Distinct(lanes)
  {
    lanes := [];
    for j := 0 to |phase.directions|
      invariant forall l :: l in lanes <==> exists d :: d in phase.directions[..j] && ShownOn(net, phase, d, l)
      invariant Distinct(phase.directions) ==> Distinct(lanes)
    {
      var d := phase.directions[j];
      assert phase.directions[..j + 1] == phase.directions[..j] + [d];
      if d in net.approaches {
        var more := LanesOn(net, phase, d);
        if Distinct(phase.directions) {
          assert d !in phase.directions[..j];
          forall l | l in more
            ensures l !in lanes
          {
            if l in lanes {
              var e :| e in phase.directions[..j] && ShownOn(net, phase, e, l);
              OneApproach(net, phase, d, e, l);
            }
          }
        }
        JoinLanes(lanes, more);
        lanes := lanes + more;
      }
    }
    assert phase.directions[..|phase.directions|] == phase.directions;
  }

  method LanesOn(net: Network, phase: Phase, d: Direction) returns (lanes: seq<LaneId>)
    requires NetworkOk(net) && d in net.approaches && d in phase.directions
    ensures forall l :: l in lanes <==> ShownOn(net, phase, d, l)
    ensures Distinct(lanes)
  {
    lanes := [];
    var all := net.approaches[d];
    for k := 0 to |all|
      invariant forall l :: l in lanes <==> exists j :: 0 <= j < k && all[j] == l && Shows(net, phase, d, j)
      invariant Distinct(lanes)
    {
      if exists t :: t in LaneTurns(net, d, k, |all|) && t in phase.turns {
        assert all[k] !in Members(lanes);
        Appended(lanes, all[k]);
        lanes := lanes + [all[k]];
      }
    }
  }

  // ---------------------------------------------------------------------
  // Counting
  // ---------------------------------------------------------------------

  /** Detected on a lane: on it and within the detector's distance of its stop line; or only
      those of them that move. */
  predicate InZone(net: Network, distance: real, l: LaneId, v: Vehicle, moving: bool) {
    v.lane == l && v.position >= StopLineOf(net, l) - distance && (moving ==> v.speed >= MOVING_SPEED)
  }

  ghost function Detected(net: Network, distance: real, l: LaneId, moving: bool): set<Vehicle> {
    set v | v in VehiclesOn(net, l) && InZone(net, distance, l, v, moving)
  }

  /** The vehicles detected on any of these lanes. */
  ghost function DetectedOn(net: Network, distance: real, lanes: set<LaneId>, moving: bool): set<Vehicle> {
    set l, v | l in lanes && v in Detected(net, distance, l, moving) :: v
  }

  /** A vehicle is detected on one lane only, even while two lanes have it registered. */
  lemma OneMoreLane(net: Network, distance: real, lanes: set<LaneId>, l: LaneId, moving: bool)
    requires l !in lanes
    ensures |DetectedOn(net, distance, lanes + {l}, moving)|
            == |DetectedOn(net, distance, lanes, moving)| + |Detected(net, distance, l, moving)|
  {
    var before, here := DetectedOn(net, distance, lanes, moving), Detected(net, distance, l, moving);
    assert DetectedOn(net, distance, lanes + {l}, moving) == before + here;
    assert before !! here;
  }

  /** How many vehicles are in the zone, and how many of them move. */
  method ZoneCount(net: Network, distance: real, l: LaneId) returns (present: nat, moving: nat)
    requires Distinct(VehiclesOn(net, l))
    ensures present == |Detected(net, distance, l, false)| && moving == |Detected(net, distance, l, true)|
    ensures var lane := if l in net.registered then net.registered[l] else [];
            var line := if l in net.length then net.length[l] else 0.0;
            && present == |set v | v in lane && v.lane == l && v.position >= line - distance|
            && moving == |set v | v in lane && v.lane == l && v.position >= line - distance && v.speed >= 1.0|
  {
    ZoneRule(net, distance, l);
    present, moving := 0, 0;
    var vehicles := VehiclesOn(net, l);
    NoneSeen(net, distance, l, false);
    NoneSeen(net, distance, l, true);
    for k := 0 to |vehicles|
      invariant present == |Seen(net, distance, l, k, false)| && moving == |Seen(net, distance, l, k, true)|
    {
      OneMoreSeen(net, distance, l, k, false);
      OneMoreSeen(net, distance, l, k, true);
      if InZone(net, distance, l, vehicles[k], false) {
        present := present + 1;
        if vehicles[k].speed >= MOVING_SPEED {
          moving := moving + 1;
        }
      }
    }
    assert vehicles[..|vehicles|] == vehicles;
  }

  /** Who is detected, in terms of the lane and the stop line. */
  lemma ZoneRule(net: Network, distance: real, l: LaneId)
    ensures var lane := if l in net.registered then net.registered[l] else [];
            var line := if l in net.length then net.length[l] else 0.0;
            && Detected(net, distance, l, false) == (set v | v in lane && v.lane == l && v.position >= line - distance)
            && Detected(net, distance, l, true)
               == set v | v in lane && v.lane == l && v.position >= line - distance && v.speed >= 1.0
  {
  }

  /** Those detected among the first `k` vehicles of a lane's list. */
  ghost function Seen(net: Network, distance: real, l: LaneId, k: nat, moving: bool): set<Vehicle>
    requires k <= |VehiclesOn(net, l)|
  {
    set v | v in VehiclesOn(net, l)[..k] && InZone(net, distance, l, v, moving)
  }

  lemma NoneSeen(net: Network, distance: real, l: LaneId, moving: bool)
    ensures Seen(net, distance, l, 0, moving) == {}
  {
  }

  lemma OneMoreSeen(net: Network, distance: real, l: LaneId, k: nat, moving: bool)
    requires k < |VehiclesOn(net, l)| && Distinct(VehiclesOn(net, l))
    ensures |Seen(net, distance, l, k + 1, moving)|
            == |Seen(net, distance, l, k, moving)|
               + if InZone(net, distance, l, VehiclesOn(net, l)[k], moving) then 1 else 0
  {
    var all := VehiclesOn(net, l);
    hide InZone;
    assert all[..k + 1] == all[..k] + [all[k]];
    if InZone(net, distance, l, all[k], moving) {
      assert Seen(net, distance, l, k + 1, moving) == Seen(net, distance, l, k, moving) + {all[k]};
    } else {
      assert Seen(net, distance, l, k + 1, moving) == Seen(net, distance, l, k, moving);
    }
  }

  function SumOn(counts: map<LaneId, nat>, lanes: seq<LaneId>): nat
    requires forall l :: l in lanes ==> l in counts
  {
    if lanes == [] then 0 else SumOn(counts, lanes[..|lanes| - 1]) + counts[lanes[|lanes| - 1]]
  }

  /** The lanes outside `skip`, in order. */
  function Without(lanes: seq<LaneId>, skip: set<LaneId>): (r: seq<LaneId>)
    ensures Members(r) == Members(lanes) - skip
    ensures Distinct(lanes) ==> Distinct(r)
  {
    if lanes == [] then []
    else
      var init, last := lanes[..|lanes| - 1], lanes[|lanes| - 1];
      assert lanes == init + [last];
      if last in skip then Without(init, skip)
      else
        assert last !in Members(init) || !Distinct(lanes);
        Appended(Without(init, skip), last);
        Without(init, skip) + [last]
  }

  lemma Appended(lanes: seq<LaneId>, l: LaneId)
    ensures Members(lanes + [l]) == Members(lanes) + {l}
    ensures Distinct(lanes) && l !in Members(lanes) ==> Distinct(lanes + [l])
  {
  }

  /** What a phase index sees: vehicles on its lanes, the moving ones, and every other green's
      vehicles on lanes the current phase does not release. */
  datatype Observation = Observation(served: nat, passing: nat, calls: map<nat, nat>)

  /** Every memorised count is the lane's. */
  ghost predicate Counted(net: Network, distance: real, counts: map<LaneId, nat>, moving: map<LaneId, nat>) {
    && counts.Keys == moving.Keys
    && forall l :: l in counts ==>
         counts[l] == |Detected(net, distance, l, false)| && moving[l] == |Detected(net, distance, l, true)|
  }

  /** The counts of all released lanes, each lane counted once. */
  method CountLanes(net: Network, distance: real, phases: nat, released: map<nat, seq<LaneId>>)
    returns (counts: map<LaneId, nat>, moving: map<LaneId, nat>)
    requires NetworkOk(net) && forall i :: i in released ==> i < phases
    ensures Counted(net, distance, counts, moving)
    ensures forall i, l :: i in released && l in released[i] ==> l in counts
  {
    hide Detected, Distinct;
    counts, moving := map[], map[];
    for i := 0 to phases
      invariant Counted(net, distance, counts, moving)
      invariant forall j, l :: j in released && j < i && l in released[j] ==> l in counts
    {
      if i in released {
        var lanes := released[i];
        for k := 0 to |lanes|
          invariant Counted(net, distance, counts, moving)
          invariant forall j, l :: j in released && j < i && l in released[j] ==> l in counts
          invariant forall m :: 0 <= m < k ==> lanes[m] in counts
        {
          if lanes[k] !in counts {
            var present, going := ZoneCount(net, distance, lanes[k]);
            counts, moving := counts[lanes[k] := present], moving[lanes[k] := going];
          }
        }
      }
    }
  }

  /** The lanes phase `i` releases; none for a phase that is not green. */
  function LanesFor(released: map<nat, seq<LaneId>>, i: nat): seq<LaneId> {
    if i in released then released[i] else []
  }

  /** One observation. Lanes shared with the current phase never raise a call: with the vehicles
      served, a call makes up the vehicles on the lanes of either phase. */
  method Observe(net: Network, distance: real, phases: nat, released: map<nat, seq<LaneId>>, current: nat)
    returns (o: Observation)
    requires NetworkOk(net) && forall i :: i in released ==> i < phases && Distinct(released[i])
    ensures o.served == |DetectedOn(net, distance, Members(LanesFor(released, current)), false)|
    ensures o.passing == |DetectedOn(net, distance, Members(LanesFor(released, current)), true)| <= o.served
    ensures o.calls.Keys == released.Keys - {current}
    ensures forall i :: i in o.calls ==>
              o.served + o.calls[i]
              == |DetectedOn(net, distance, Members(LanesFor(released, current)) + Members(released[i]), false)|
  {
    hide DetectedOn, Detected, Members, Distinct, SumOn;
    var counts, moving := CountLanes(net, distance, phases, released);
    var lanes := LanesFor(released, current);
    NoDuplicates(released, current);
    WithoutIn(counts, released, Members(lanes));
    var calls := map i | i in released && i != current :: SumOn(counts, Without(released[i], Members(lanes)));
    SumIsDetected(net, distance, counts, lanes, false);
    SumIsDetected(net, distance, moving, lanes, true);
    MovingAreDetected(net, distance, Members(lanes));
    forall i | i in calls
      ensures SumOn(counts, lanes) + calls[i]
                == |DetectedOn(net, distance, Members(lanes) + Members(released[i]), false)|
    {
      CallsAddUp(net, distance, counts, lanes, released[i]);
    }
    o := Observation(SumOn(counts, lanes), SumOn(moving, lanes), calls);
  }

  lemma NoDuplicates(released: map<nat, seq<LaneId>>, current: nat)
    requires forall i :: i in released ==> Distinct(released[i])
    ensures Distinct(LanesFor(released, current))
  {
  }

  lemma WithoutIn(counts: map<LaneId, nat>, released: map<nat, seq<LaneId>>, skip: set<LaneId>)
    requires forall i, l :: i in released && l in released[i] ==> l in counts
    ensures forall i, l :: i in released && l in Without(released[i], skip) ==> l in counts
  {
    forall i, l | i in released && l in Without(released[i], skip)
      ensures l in counts
    {
      assert l in Members(Without(released[i], skip));
    }
  }

  lemma MovingAreDetected(net: Network, distance: real, lanes: set<LaneId>)
    ensures |DetectedOn(net, distance, lanes, true)| <= |DetectedOn(net, distance, lanes, false)|
  {
    var some, all := DetectedOn(net, distance, lanes, true), DetectedOn(net, distance, lanes, false);
    forall v | v in some
      ensures v in all
    {
      var l :| l in lanes && v in Detected(net, distance, l, true);
      assert v in Detected(net, distance, l, false);
    }
    assert all == some + (all - some);
  }

  /** Summing over distinct lanes counts each detected vehicle once. */
  lemma {:induction false} SumIsDetected(net: Network, distance: real, counts: map<LaneId, nat>, lanes: seq<LaneId>,
                                         moving: bool)
    requires Distinct(lanes)
    requires forall l :: l in lanes ==> l in counts && counts[l] == |Detected(net, distance, l, moving)|
    ensures SumOn(counts, lanes) == |DetectedOn(net, distance, Members(lanes), moving)|
  {
    if lanes == [] {
      assert DetectedOn(net, distance, Members(lanes), moving) == {};
    } else {
      var init, last := lanes[..|lanes| - 1], lanes[|lanes| - 1];
      assert lanes == init + [last];
      Appended(init, last);
      hide Detected, DetectedOn;
      SumIsDetected(net, distance, counts, init, moving);
      OneMoreLane(net, distance, Members(init), last, moving);
    }
  }

  lemma CallsAddUp(net: Network, distance: real, counts: map<LaneId, nat>, mine: seq<LaneId>, theirs: seq<LaneId>)
    requires Distinct(mine) && Distinct(theirs)
    requires forall l :: l in mine || l in theirs ==> l in counts && counts[l] == |Detected(net, distance, l, false)|
    ensures forall l :: l in Without(theirs, Members(mine)) ==> l in counts
    ensures SumOn(counts, mine) + SumOn(counts, Without(theirs, Members(mine)))
            == |DetectedOn(net, distance, Members(mine) + Members(theirs), false)|
  {
    hide Detected, DetectedOn, SumOn, Without;
    var others := Without(theirs, Members(mine));
    JoinLanes(mine, others);
    assert Members(mine) + Members(theirs) == Members(mine + others);
    forall l | l in others
      ensures l in theirs
    {
      assert l in Members(others);
    }
    SumSplits(counts, mine, others);
    SumIsDetected(net, distance, counts, mine + others, false);
  }

  lemma JoinLanes(a: seq<LaneId>, b: seq<LaneId>)
    ensures Members(a + b) == Members(a) + Members(b)
    ensures Distinct(a) && Distinct(b) && Members(a) !! Members(b) ==> Distinct(a + b)
  {
    if Members(a) !! Members(b) {
      forall i, j | 0 <= i < |a| && 0 <= j < |b|
        ensures a[i] != b[j]
      {
        assert a[i] in Members(a) && b[j] in Members(b);
      }
    }
  }

  lemma {:induction false} SumSplits(counts: map<LaneId, nat>, a: seq<LaneId>, b: seq<LaneId>)
    requires (forall l :: l in a ==> l in counts) && forall l :: l in b ==> l in counts
    ensures SumOn(counts, a + b) == SumOn(counts, a) + SumOn(counts, b)
  {
    if b == [] {
      assert a + b == a;
    } else {
      var n := |b| - 1;
      assert (a + b)[..|a + b| - 1] == a + b[..n];
      SumSplits(counts, a, b[..n]);
    }
  }

  /** The detectors and the stop lines agree: a green phase counts exactly the lanes it opens. */
  method ReleasedAreOpen(net: Network, phases: Plan, i: nat)
      returns (released: map<nat, seq<LaneId>>, obstacles: map<LaneId, Obstacle>)
    requires NetworkOk(net) && i < |phases|
    ensures forall d, l :: d in net.approaches && l in net.approaches[d] ==>
              l in obstacles && (obstacles[l] == Clear <==> i in released && l in released[i])
  {
    released := ReleasedLanes(net, phases);
    obstacles := ApplySignals(net, phases[i]);
    forall d, l | d in net.approaches && l in net.approaches[d]
      ensures Shown(net, phases[i], l) <==> ShownOn(net, phases[i], d, l)
    {
    }
  }
}
