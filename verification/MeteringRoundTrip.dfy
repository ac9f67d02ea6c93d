/** Metering plans written out as sections: the validator's bounds, told on plans, and the way back. */
module MeteringRoundTrip {
  import opened Options
  import opened RealMath
  import opened Phases
  import opened MeteringCursor
  import opened MeteringPlans
  import opened MeteringPlanLaws
  import SignalPlans

  // ---------------------------------------------------------------------
  // Writing a plan out
  // ---------------------------------------------------------------------

  function EntryTexts(entries: seq<Direction>): seq<Json> {
    seq(|entries|, i requires 0 <= i < |entries| => Text(SignalPlans.DirectionName(entries[i])))
  }

  function WrittenPhase(spec: PhaseSpec): Json {
    Object(map[EntriesKey := List(EntryTexts(spec.entries)), GreenKey := Number(spec.green),
               MinGreenKey := Number(spec.minGreen), MaxGreenKey := Number(spec.maxGreen)])
  }

  function WrittenPhases(specs: seq<PhaseSpec>): seq<Json> {
    seq(|specs|, i requires 0 <= i < |specs| => WrittenPhase(specs[i]))
  }

  function WrittenGuard(guard: GuardConfig): Json {
    Object(map[EnabledKey := Bool(guard.enabled), StoppedThresholdKey := Number(guard.stoppedThreshold as real),
               MaxHoldKey := Number(guard.maxHold)])
  }

  function WrittenCap(cap: CapConfig): Json {
    Object(map[EnabledKey := Bool(cap.enabled), VehiclesKey := Number(cap.vehicles as real)])
  }

  /** The section that names every part of a plan. */
  function Written(plan: MeteringPlan): Fields {
    map[PhasesKey := List(WrittenPhases(plan.specs)), YellowKey := Number(plan.yellow),
        AllRedKey := Number(plan.allRed), OffsetKey := Number(plan.offset),
        GuardKey := WrittenGuard(plan.guard), CapKey := WrittenCap(plan.cap)]
  }

  // ---------------------------------------------------------------------
  // The bounds, on plans
  // ---------------------------------------------------------------------

  /** A green's entries are at the junction, none of them twice, and its lengths in bounds and order. */
  predicate SpecInBounds(spec: PhaseSpec, arms: Option<set<Direction>>) {
    && spec.entries != []
    && (forall i :: 0 <= i < |spec.entries| ==> arms.Some? ==> spec.entries[i] in arms.value)
    && (forall i, j :: 0 <= i < j < |spec.entries| ==> spec.entries[i] != spec.entries[j])
    && 5.0 < spec.green <= 120.0 && 5.0 <= spec.minGreen <= 60.0 && 10.0 <= spec.maxGreen <= 180.0
    && spec.minGreen <= spec.green <= spec.maxGreen
  }

  /** Everything the validator asks of a plan. */
  predicate InBounds(plan: MeteringPlan, arms: Option<set<Direction>>) {
    && 1 <= |plan.specs| <= 4
    && (forall i :: 0 <= i < |plan.specs| ==> SpecInBounds(plan.specs[i], arms))
    && 2.0 < plan.yellow <= 8.0 && 0.0 <= plan.allRed <= 5.0
    && 0.0 <= plan.offset < SumOfBlocks(plan.specs, plan.yellow + plan.allRed)
    && 1 <= plan.guard.stoppedThreshold <= 20 && 0.0 <= plan.guard.maxHold <= 60.0
    && 1 <= plan.cap.vehicles <= 50
  }

  // ---------------------------------------------------------------------
  // Entries
  // ---------------------------------------------------------------------

  /** An entry is a direction exactly if, lowered and without white space around it, it is its name. */
  lemma EntryRule(s: string, d: Direction)
    ensures EntryDirection(Text(s)) == Some(d)
            <==> SignalPlans.Lower(SignalPlans.Strip(s)) == SignalPlans.DirectionName(d)
  {
    var name := SignalPlans.Lower(SignalPlans.Strip(s));
    NamesDiffer();
    hide SignalPlans.Lower, SignalPlans.Strip;
  }

  lemma NamesDiffer()
    ensures "north" != "south" && "north" != "east" && "north" != "west"
    ensures "south" != "east" && "south" != "west" && "east" != "west"
  {
    assert "north"[0] == 'n' && "south"[0] == 's' && "east"[0] == 'e' && "west"[0] == 'w';
  }

  lemma NameStands(name: string)
    requires name != [] && forall i :: 0 <= i < |name| ==> 'a' <= name[i] <= 'z'
    ensures SignalPlans.Lower(SignalPlans.Strip(name)) == name
  {
    assert !SignalPlans.IsSpace(name[0]) && !SignalPlans.IsSpace(name[|name| - 1]);
    assert SignalPlans.Strip(name) == name;
  }

  lemma NameIsEntry(d: Direction)
    ensures EntryDirection(Text(SignalPlans.DirectionName(d))) == Some(d)
  {
    hide SignalPlans.Lower, SignalPlans.Strip;
    NameStands(SignalPlans.DirectionName(d));
    EntryRule(SignalPlans.DirectionName(d), d);
  }

  lemma EntryTextValid(entries: seq<Direction>, k: nat, arms: Option<set<Direction>>)
    requires k < |entries|
    ensures EntryValid(EntryTexts(entries), k, arms)
            <==> (arms.Some? ==> entries[k] in arms.value) && forall n :: 0 <= n < k ==> entries[n] != entries[k]
  {
    hide EntryDirection, SignalPlans.DirectionName;
    forall n | 0 <= n <= k
      ensures EntryDirection(EntryTexts(entries)[n]) == Some(entries[n])
    {
      NameIsEntry(entries[n]);
    }
  }

  lemma EntriesWritten(entries: seq<Direction>, arms: Option<set<Direction>>)
    ensures EntriesValid(List(EntryTexts(entries)), arms) <==>
              && entries != []
              && (forall i :: 0 <= i < |entries| ==> arms.Some? ==> entries[i] in arms.value)
              && (forall i, j :: 0 <= i < j < |entries| ==> entries[i] != entries[j])
  {
    hide EntryValid;
    forall k | 0 <= k < |entries|
      ensures EntryValid(EntryTexts(entries), k, arms)
              <==> (arms.Some? ==> entries[k] in arms.value) && forall n :: 0 <= n < k ==> entries[n] != entries[k]
    {
      EntryTextValid(entries, k, arms);
    }
  }

  // ---------------------------------------------------------------------
  // Phases
  // ---------------------------------------------------------------------

  lemma PhaseWritten(spec: PhaseSpec, arms: Option<set<Direction>>)
    ensures PhaseValid(WrittenPhase(spec), arms) <==> SpecInBounds(spec, arms)
  {
    hide EntriesValid, EntryTexts;
    EntriesWritten(spec.entries, arms);
  }

  lemma PhasesWritten(specs: seq<PhaseSpec>, arms: Option<set<Direction>>)
    ensures PhasesValid(List(WrittenPhases(specs)), arms)
            <==> 1 <= |specs| <= 4 && forall i :: 0 <= i < |specs| ==> SpecInBounds(specs[i], arms)
  {
    hide PhaseValid, SpecInBounds, WrittenPhase;
    forall i | 0 <= i < |specs|
      ensures PhaseValid(WrittenPhases(specs)[i], arms) <==> SpecInBounds(specs[i], arms)
    {
      PhaseWritten(specs[i], arms);
    }
  }

  lemma {:induction false} CycleWritten(specs: seq<PhaseSpec>, clearance: real)
    requires forall i :: 0 <= i < |specs| ==> specs[i].green > 0.0
    ensures GreensUsable(List(WrittenPhases(specs)))
    ensures CycleOf(WrittenPhases(specs), clearance) == SumOfBlocks(specs, clearance)
    decreases |specs|
  {
    hide EntryTexts;
    if specs != [] {
      var n := |specs| - 1;
      CycleWritten(specs[..n], clearance);
      assert WrittenPhases(specs)[..n] == WrittenPhases(specs[..n]);
    }
  }

  lemma OffsetWritten(plan: MeteringPlan)
    requires plan.specs != [] && plan.yellow >= 0.0 && plan.allRed >= 0.0
    requires forall i :: 0 <= i < |plan.specs| ==> plan.specs[i].green > 0.0
    ensures OffsetValid(Written(plan)) <==> 0.0 <= plan.offset < SumOfBlocks(plan.specs, plan.yellow + plan.allRed)
  {
    hide WrittenPhases, CycleOf, SumOfBlocks, GreensUsable, WrittenGuard, WrittenCap;
    CycleWritten(plan.specs, plan.yellow + plan.allRed);
    SumPositive(plan.specs, plan.yellow + plan.allRed);
  }

  lemma WholeFloor(n: int)
    ensures (n as real).Floor == n && IsWhole(n as real)
  {
  }

  lemma GuardWritten(guard: GuardConfig)
    ensures GuardValid(WrittenGuard(guard))
            <==> 1 <= guard.stoppedThreshold <= 20 && 0.0 <= guard.maxHold <= 60.0
    ensures GuardValid(WrittenGuard(guard)) ==>
              GuardBuilds(WrittenGuard(guard)) && GuardFrom(WrittenGuard(guard)) == guard
  {
    WholeFloor(guard.stoppedThreshold);
  }

  lemma CapWritten(cap: CapConfig)
    ensures CapValid(WrittenCap(cap)) <==> 1 <= cap.vehicles <= 50
    ensures CapValid(WrittenCap(cap)) ==> CapBuilds(WrittenCap(cap)) && CapFrom(WrittenCap(cap)) == cap
  {
    WholeFloor(cap.vehicles);
  }

  /** The validator passes a written plan exactly if it is within the bounds. */
  lemma WrittenValidIff(plan: MeteringPlan, arms: Option<set<Direction>>)
    ensures SectionValid(Written(plan), arms) <==> InBounds(plan, arms)
  {
    hide PhasesValid, OffsetValid, GuardValid, CapValid, WrittenPhases, WrittenGuard, WrittenCap, SumOfBlocks;
    PhasesWritten(plan.specs, arms);
    GuardWritten(plan.guard);
    CapWritten(plan.cap);
    if && 1 <= |plan.specs| && (forall i :: 0 <= i < |plan.specs| ==> SpecInBounds(plan.specs[i], arms))
       && 2.0 < plan.yellow <= 8.0 && 0.0 <= plan.allRed <= 5.0 {
      OffsetWritten(plan);
    }
  }

  // ---------------------------------------------------------------------
  // What is reported of a plan out of bounds
  // ---------------------------------------------------------------------

  /** Which codes a written green is reported for. */
  predicate SpecReported(spec: PhaseSpec, arms: Option<set<Direction>>, code: Code) {
    match code
    case EmptyPhase => spec.entries == []
    case MissingArm => arms.Some? && exists i :: 0 <= i < |spec.entries| && spec.entries[i] !in arms.value
    case DuplicateInPhase => exists i, j :: 0 <= i < j < |spec.entries| && spec.entries[i] == spec.entries[j]
    case ZeroGreen => spec.green <= 0.0
    case GreenBelowMin => 0.0 < spec.green < spec.minGreen
    case GreenAboveMax => spec.green > 0.0 && spec.green > spec.maxGreen
    case MinAboveMax => spec.minGreen > spec.maxGreen
    case OutOfBounds =>
      || 0.0 < spec.green <= 5.0 || spec.green > 120.0
      || spec.minGreen < 5.0 || spec.minGreen > 60.0 || spec.maxGreen < 10.0 || spec.maxGreen > 180.0
    case _ => false
  }

  lemma EntryTextIssue(entries: seq<Direction>, k: nat, arms: Option<set<Direction>>, code: Code)
    requires k < |entries|
    ensures EntryIssue(EntryTexts(entries), k, arms, code) <==>
              || (code == MissingArm && arms.Some? && entries[k] !in arms.value)
              || (code == DuplicateInPhase && exists n :: 0 <= n < k && entries[n] == entries[k])
  {
    hide EntryDirection, SignalPlans.DirectionName;
    forall n | 0 <= n <= k
      ensures EntryDirection(EntryTexts(entries)[n]) == Some(entries[n])
    {
      NameIsEntry(entries[n]);
    }
  }

  lemma EntriesReported(entries: seq<Direction>, arms: Option<set<Direction>>, code: Code)
    ensures EntriesIssue(List(EntryTexts(entries)), arms, code) <==>
              || (code == EmptyPhase && entries == [])
              || (code == MissingArm && arms.Some? && exists i :: 0 <= i < |entries| && entries[i] !in arms.value)
              || (code == DuplicateInPhase && exists i, j :: 0 <= i < j < |entries| && entries[i] == entries[j])
  {
    hide EntryIssue;
    forall k | 0 <= k < |entries|
      ensures EntryIssue(EntryTexts(entries), k, arms, code) <==>
                || (code == MissingArm && arms.Some? && entries[k] !in arms.value)
                || (code == DuplicateInPhase && exists n :: 0 <= n < k && entries[n] == entries[k])
    {
      EntryTextIssue(entries, k, arms, code);
    }
  }

  /** The codes reported of a written green are exactly these. */
  lemma SpecReportedIff(spec: PhaseSpec, arms: Option<set<Direction>>, code: Code)
    ensures PhaseIssue(WrittenPhase(spec), arms, code) <==> SpecReported(spec, arms, code)
  {
    hide EntriesIssue, EntryTexts;
    EntriesReported(spec.entries, arms, code);
  }

  /** And of the whole plan: those of its greens, and those of its clearances, offset and features. */
  lemma PlanReportedIff(plan: MeteringPlan, arms: Option<set<Direction>>, code: Code)
    ensures SectionIssue(Written(plan), arms, code) <==>
              || (code == NoPhases && plan.specs == [])
              || (exists i :: 0 <= i < |plan.specs| && SpecReported(plan.specs[i], arms, code))
              || (code == OutOfBounds
                  && (|plan.specs| > 4 || plan.yellow <= 2.0 || plan.yellow > 8.0 || plan.allRed < 0.0
                      || plan.allRed > 5.0 || plan.offset < 0.0
                      || plan.guard.stoppedThreshold < 1 || plan.guard.stoppedThreshold > 20
                      || plan.guard.maxHold < 0.0 || plan.guard.maxHold > 60.0
                      || plan.cap.vehicles < 1 || plan.cap.vehicles > 50))
              || (code == OffsetBeyondCycle && plan.offset >= 0.0
                  && (forall i :: 0 <= i < |plan.specs| ==> plan.specs[i].green > 0.0)
                  && 0.0 < SumOfBlocks(plan.specs, plan.yellow + plan.allRed) <= plan.offset)
  {
    hide PhasesIssue, GuardIssue, CapIssue, OffsetIssue, SpecReported, SumOfBlocks, WrittenPhases, WrittenGuard,
         WrittenCap;
    PhasesReported(plan.specs, arms, code);
    OffsetReported(plan, code);
    GuardReported(plan.guard, code);
    CapReported(plan.cap, code);
  }

  lemma PhasesReported(specs: seq<PhaseSpec>, arms: Option<set<Direction>>, code: Code)
    ensures PhasesIssue(List(WrittenPhases(specs)), arms, code) <==>
              || (code == NoPhases && specs == []) || (code == OutOfBounds && |specs| > 4)
              || exists i :: 0 <= i < |specs| && SpecReported(specs[i], arms, code)
  {
    hide PhaseIssue, SpecReported, WrittenPhase;
    forall i | 0 <= i < |specs|
      ensures PhaseIssue(WrittenPhases(specs)[i], arms, code) <==> SpecReported(specs[i], arms, code)
    {
      SpecReportedIff(specs[i], arms, code);
    }
  }

  lemma OffsetReported(plan: MeteringPlan, code: Code)
    ensures OffsetIssue(Written(plan), code) <==>
              || (code == OutOfBounds && plan.offset < 0.0)
              || (code == OffsetBeyondCycle && plan.offset >= 0.0
                  && (forall i :: 0 <= i < |plan.specs| ==> plan.specs[i].green > 0.0)
                  && 0.0 < SumOfBlocks(plan.specs, plan.yellow + plan.allRed) <= plan.offset)
  {
    hide WrittenPhases, CycleOf, SumOfBlocks, GreensUsable, WrittenGuard, WrittenCap;
    UsableIff(plan.specs);
    if forall i :: 0 <= i < |plan.specs| ==> plan.specs[i].green > 0.0 {
      CycleWritten(plan.specs, plan.yellow + plan.allRed);
    }
  }

  lemma UsableIff(specs: seq<PhaseSpec>)
    ensures GreensUsable(List(WrittenPhases(specs)))
            <==> forall i :: 0 <= i < |specs| ==> specs[i].green > 0.0
  {
    hide EntryTexts;
    forall i | 0 <= i < |specs|
      ensures WrittenPhases(specs)[i] == WrittenPhase(specs[i])
    {
    }
  }

  lemma GuardReported(guard: GuardConfig, code: Code)
    ensures GuardIssue(WrittenGuard(guard), code) <==>
              code == OutOfBounds && (guard.stoppedThreshold < 1 || guard.stoppedThreshold > 20
                                      || guard.maxHold < 0.0 || guard.maxHold > 60.0)
  {
    WholeFloor(guard.stoppedThreshold);
  }

  lemma CapReported(cap: CapConfig, code: Code)
    ensures CapIssue(WrittenCap(cap), code) <==> code == OutOfBounds && (cap.vehicles < 1 || cap.vehicles > 50)
  {
    WholeFloor(cap.vehicles);
  }

  // ---------------------------------------------------------------------
  // And back
  // ---------------------------------------------------------------------

  lemma SpecRead(spec: PhaseSpec)
    requires SpecInBounds(spec, None)
    ensures PhaseBuilds(WrittenPhase(spec)) && DraftSpec(WrittenPhase(spec).fields) == spec
  {
    PhaseWritten(spec, None);
    ValidPhaseBuilds(WrittenPhase(spec), None);
    EntriesRead(spec.entries);
    hide EntriesOf, EntryTexts, EntriesValid;
  }

  lemma EntriesRead(entries: seq<Direction>)
    requires EntriesBuild(List(EntryTexts(entries)))
    ensures EntriesOf(List(EntryTexts(entries))) == entries
  {
    hide EntryDirection, EntriesValid;
    forall k | 0 <= k < |entries|
      ensures EntryDirection(EntryTexts(entries)[k]) == Some(entries[k])
    {
      NameIsEntry(entries[k]);
    }
  }

  lemma AnyArms(spec: PhaseSpec, arms: Option<set<Direction>>)
    requires SpecInBounds(spec, arms)
    ensures SpecInBounds(spec, None)
  {
  }

  /** The round trip: a plan within the bounds, written out, builds, and builds exactly that plan
      in every part it was written from. */
  lemma WrittenBuildsBack(plan: MeteringPlan, arms: Option<set<Direction>>)
    requires InBounds(plan, arms)
    ensures Buildable(Written(plan)) && SectionValid(Written(plan), arms)
    ensures forall built :: IsPlanOf(Written(plan), built) && AreSpecs(Get(Written(plan), PhasesKey).items, built.specs)
              ==>
              && built.specs == plan.specs && built.yellow == plan.yellow && built.allRed == plan.allRed
              && built.offset == plan.offset && built.guard == plan.guard && built.cap == plan.cap
  {
    hide PhaseBuilds, DraftSpec, GuardBuilds, CapBuilds, GuardFrom, CapFrom, WrittenPhase, WrittenGuard, WrittenCap,
         SumOfBlocks, Expansion, SpecIndices, EntriesIn, SectionValid, SpecInBounds, GuardValid, CapValid;
    WrittenValidIff(plan, arms);
    GuardWritten(plan.guard);
    CapWritten(plan.cap);
    PhasesRead(plan.specs, arms);
    forall built | IsPlanOf(Written(plan), built) && AreSpecs(Get(Written(plan), PhasesKey).items, built.specs)
      ensures built.specs == plan.specs
    {
      SpecsUnique(WrittenPhases(plan.specs), plan.specs, built.specs);
    }
  }

  lemma PhasesRead(specs: seq<PhaseSpec>, arms: Option<set<Direction>>)
    requires forall i :: 0 <= i < |specs| ==> SpecInBounds(specs[i], arms)
    ensures AreSpecs(WrittenPhases(specs), specs)
    ensures forall i :: 0 <= i < |specs| ==> PhaseBuilds(WrittenPhases(specs)[i])
  {
    hide SpecInBounds, WrittenPhase, PhaseBuilds, DraftSpec;
    forall i | 0 <= i < |specs|
      ensures PhaseBuilds(WrittenPhases(specs)[i]) && AreSpecs([WrittenPhases(specs)[i]], [specs[i]])
    {
      AnyArms(specs[i], arms);
      SpecRead(specs[i]);
    }
    forall i | 0 <= i < |specs| {
      OneSpec(WrittenPhases(specs)[i], specs[i]);
    }
  }

  lemma OneSpec(item: Json, spec: PhaseSpec)
    requires AreSpecs([item], [spec])
    ensures PhaseBuilds(item) && spec == DraftSpec(item.fields)
  {
    hide DraftSpec;
    assert [item][0] == item && [spec][0] == spec;
  }

  lemma SpecsUnique(items: seq<Json>, a: seq<PhaseSpec>, b: seq<PhaseSpec>)
    requires AreSpecs(items, a) && AreSpecs(items, b)
    ensures a == b
  {
    hide PhaseBuilds, DraftSpec;
  }

  /** The other way round: whatever a valid section without null scalars builds is within the
      bounds, defaults included, so writing it out again gives a valid section of the same plan. */
  lemma BuiltIsInBounds(f: Fields, arms: Option<set<Direction>>, plan: MeteringPlan)
    requires SectionValid(f, arms) && IsPlanOf(f, plan) && AreSpecs(Get(f, PhasesKey).items, plan.specs)
    requires !NullAt(f, YellowKey) && !NullAt(f, OffsetKey) && !NullAt(f, AllRedKey) && !NullAt(f, AllRedSnake)
    ensures InBounds(plan, arms) && SectionValid(Written(plan), arms)
    ensures f.Keys <= {PhasesKey, YellowKey, AllRedKey, AllRedSnake, OffsetKey, GuardKey, CapKey}
  {
    hide PhaseBuilds, DraftSpec, GuardBuilds, CapBuilds, GuardFrom, CapFrom, PhaseValid, OffsetValid, GuardValid,
         CapValid, SumOfBlocks, Expansion, SpecIndices, EntriesIn, SpecInBounds, Written, PlanOk;
    BuiltPlanIsSound(f, plan);
    ValidBuildsIff(f, arms);
    BuiltAllRedIff(f, arms);
    OffsetInsideCycle(f, arms, plan);
    GuardIsInBounds(Get(f, GuardKey));
    CapIsInBounds(Get(f, CapKey));
    forall i | 0 <= i < |plan.specs|
      ensures SpecInBounds(plan.specs[i], arms)
    {
      SpecIsInBounds(Get(f, PhasesKey).items[i], arms);
    }
    WrittenValidIff(plan, arms);
  }

  lemma SpecIsInBounds(j: Json, arms: Option<set<Direction>>)
    requires PhaseValid(j, arms) && PhaseBuilds(j)
    ensures SpecInBounds(DraftSpec(j.fields), arms)
  {
    EntriesInBounds(Get(j.fields, EntriesKey), arms);
    hide EntriesValid, EntriesOf;
  }

  lemma EntriesInBounds(j: Json, arms: Option<set<Direction>>)
    requires EntriesValid(j, arms) && EntriesBuild(j)
    ensures var entries := EntriesOf(j);
            && entries != []
            && (forall i :: 0 <= i < |entries| ==> arms.Some? ==> entries[i] in arms.value)
            && (forall i, k :: 0 <= i < k < |entries| ==> entries[i] != entries[k])
  {
    hide EntryDirection;
    forall k | 0 <= k < |j.items|
      ensures EntryDirection(j.items[k]) == Some(EntriesOf(j)[k]) && EntryValid(j.items, k, arms)
    {
      assert EntryValid(j.items, k, None);
    }
  }

  lemma GuardIsInBounds(j: Json)
    requires GuardValid(j) && GuardBuilds(j)
    ensures var guard := GuardFrom(j); 1 <= guard.stoppedThreshold <= 20 && 0.0 <= guard.maxHold <= 60.0
  {
  }

  lemma CapIsInBounds(j: Json)
    requires CapValid(j) && CapBuilds(j)
    ensures 1 <= CapFrom(j).vehicles <= 50
  {
  }

  // ---------------------------------------------------------------------
  // What is left out of a section
  // ---------------------------------------------------------------------

  /** A field under the first of two names, null or absent for a default. */
  function Given(p: Fields, first: Key, second: Key, default: real): real {
    if first in p then if p[first].Number? then p[first].value else default
    else if second in p && p[second].Number? then p[second].value
    else default
  }

  /** What the builder fills in for the fields a section leaves out. */
  lemma DefaultsFilledIn(f: Fields, plan: MeteringPlan)
    requires IsPlanOf(f, plan) && AreSpecs(Get(f, PhasesKey).items, plan.specs)
    ensures YellowKey !in f ==> plan.yellow == 3.0
    ensures AllRedKey !in f && AllRedSnake !in f ==> plan.allRed == 2.0
    ensures OffsetKey !in f ==> plan.offset == 0.0
    ensures GuardKey !in f ==> plan.guard == GuardConfig(false, 2, 10.0)
    ensures CapKey !in f ==> plan.cap == CapConfig(false, 8)
    ensures forall i :: 0 <= i < |plan.specs| ==>
              var p, spec := Get(f, PhasesKey).items[i].fields, plan.specs[i];
              && Number(spec.green) == Get(p, GreenKey)
              && spec.minGreen == Given(p, MinGreenKey, MinGreenSnake, if spec.green <= 8.0 then spec.green else 8.0)
              && spec.maxGreen == Given(p, MaxGreenKey, MaxGreenSnake, if spec.green >= 40.0 then spec.green else 40.0)
  {
    hide Expansion, SpecIndices, EntriesIn, PhaseBuilds, DraftSpec, GuardBuilds, CapBuilds;
    forall i | 0 <= i < |plan.specs| {
      DefaultSpec(Get(f, PhasesKey).items[i]);
    }
  }

  lemma DefaultSpec(j: Json)
    requires PhaseBuilds(j)
    ensures var p, spec := j.fields, DraftSpec(j.fields);
            && Number(spec.green) == Get(p, GreenKey)
            && spec.minGreen == Given(p, MinGreenKey, MinGreenSnake, if spec.green <= 8.0 then spec.green else 8.0)
            && spec.maxGreen == Given(p, MaxGreenKey, MaxGreenSnake, if spec.green >= 40.0 then spec.green else 40.0)
  {
    hide EntriesOf;
  }
}
