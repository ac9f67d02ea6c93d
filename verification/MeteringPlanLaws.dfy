/** What a validated entry-metering section builds, and where validator and builder disagree. */
module MeteringPlanLaws {
  import opened Options
  import opened Phases
  import opened MeteringCursor
  import opened MeteringPlans
  import SignalPlans

  predicate NullAt(f: Fields, key: Key) {
    key in f && f[key] == Null
  }

  /** What the builder asks of the optional scalars beyond the validator: yellow and offset are
      not null, and the all-red it falls through to is a number it can use. */
  predicate ScalarsUsable(f: Fields) {
    !NullAt(f, YellowKey) && !NullAt(f, OffsetKey) && NonNegativeNumber(BuiltAllRed(f))
  }

  lemma ValidEntriesBuild(j: Json, arms: Option<set<Direction>>)
    requires EntriesValid(j, arms)
    ensures EntriesBuild(j)
  {
    forall k | 0 <= k < |j.items|
      ensures EntryValid(j.items, k, None)
    {
      assert EntryValid(j.items, k, arms);
    }
  }

  /** A valid phase makes a spec, whatever defaults it leaves to the builder. */
  lemma ValidPhaseBuilds(j: Json, arms: Option<set<Direction>>)
    requires PhaseValid(j, arms)
    ensures PhaseBuilds(j)
  {
    ValidEntriesBuild(Get(j.fields, EntriesKey), arms);
    hide EntryValid, EntryDirection;
  }

  /** A section without issues builds exactly when its optional scalars are usable. */
  lemma ValidBuildsIff(f: Fields, arms: Option<set<Direction>>)
    requires SectionValid(f, arms)
    ensures Buildable(f) <==> ScalarsUsable(f)
  {
    forall i | 0 <= i < |Get(f, PhasesKey).items|
      ensures PhaseBuilds(Get(f, PhasesKey).items[i])
    {
      ValidPhaseBuilds(Get(f, PhasesKey).items[i], arms);
    }
    hide PhaseBuilds, PhaseValid, CycleOf;
  }

  /** With the scalars present as numbers, or absent, it always builds. */
  lemma ValidNumbersBuild(f: Fields, arms: Option<set<Direction>>)
    requires SectionValid(f, arms)
    requires !NullAt(f, YellowKey) && !NullAt(f, OffsetKey) && !NullAt(f, AllRedKey) && !NullAt(f, AllRedSnake)
    ensures Buildable(f)
  {
    ValidBuildsIff(f, arms);
    hide PhasesValid, OffsetValid, GuardValid, CapValid;
  }

  // ---------------------------------------------------------------------
  // The built plan
  // ---------------------------------------------------------------------

  /** Sum of the greens, each with its clearance. */
  function SumOfBlocks(specs: seq<PhaseSpec>, clearance: real): real {
    if specs == [] then 0.0 else SumOfBlocks(specs[..|specs| - 1], clearance) + specs[|specs| - 1].green + clearance
  }

  /** Phase `i` of an expansion is its spec's, and lasts as its colour says. */
  predicate OfItsSpec(spec: PhaseSpec, phase: Phase, yellow: real, allRed: real) {
    match phase.color
    case Green => phase.duration == spec.green && phase.directions == spec.entries
    case Yellow => phase.duration == yellow > 0.0 && phase.directions == spec.entries
    case Red => phase.duration == allRed > 0.0 && phase.directions == []
  }

  lemma BlockOk(spec: PhaseSpec, yellow: real, allRed: real)
    ensures forall i :: 0 <= i < |Block(spec, yellow, allRed)| ==>
              OfItsSpec(spec, Block(spec, yellow, allRed)[i], yellow, allRed)
  {
  }

  lemma {:induction false} ExpansionOk(specs: seq<PhaseSpec>, yellow: real, allRed: real)
    requires yellow >= 0.0 && allRed >= 0.0
    ensures var phases, of := Expansion(specs, yellow, allRed), SpecIndices(specs, yellow, allRed);
            forall i :: 0 <= i < |phases| ==> OfItsSpec(specs[of[i]], phases[i], yellow, allRed)
    ensures Cycle(Expansion(specs, yellow, allRed)) == SumOfBlocks(specs, yellow + allRed)
  {
    if specs != [] {
      var n := |specs| - 1;
      var init, block := Expansion(specs[..n], yellow, allRed), Block(specs[n], yellow, allRed);
      ExpansionOk(specs[..n], yellow, allRed);
      BlockOk(specs[n], yellow, allRed);
      BlockLasts(init, specs[n], yellow, allRed);
      IndicesStep(specs, yellow, allRed);
      hide OfItsSpec, Block, SpecIndices;
    }
  }

  lemma IndicesStep(specs: seq<PhaseSpec>, yellow: real, allRed: real)
    requires specs != []
    ensures var n := |specs| - 1;
            && |Expansion(specs, yellow, allRed)| == |SpecIndices(specs, yellow, allRed)|
            && Expansion(specs, yellow, allRed) == Expansion(specs[..n], yellow, allRed)
                + Block(specs[n], yellow, allRed)
            && SpecIndices(specs, yellow, allRed)
               == SpecIndices(specs[..n], yellow, allRed) + seq(|Block(specs[n], yellow, allRed)|, _ => n)
  {
  }

  /** The phases a spec takes in the plan: its green, a yellow if there is one, an all-red if there
      is one, in this order. */
  function PerSpec(yellow: real, allRed: real): nat {
    1 + (if yellow > 0.0 then 1 else 0) + if allRed > 0.0 then 1 else 0
  }

  function Count(n: nat, each: nat): nat {
    if n == 0 then 0 else Count(n - 1, each) + each
  }

  lemma {:induction false} ExpansionLength(specs: seq<PhaseSpec>, yellow: real, allRed: real)
    ensures |Expansion(specs, yellow, allRed)| == Count(|specs|, PerSpec(yellow, allRed))
  {
    if specs != [] {
      ExpansionLength(specs[..|specs| - 1], yellow, allRed);
    }
  }

  /** From phase `i` on the plan shows a spec's green, its yellow if there is one, and an all-red if
      there is one, and all of these are noted as spec `s`. */
  predicate ShowsSpec(phases: Plan, of: seq<nat>, i: nat, s: nat, spec: PhaseSpec, yellow: real, allRed: real) {
    var n := PerSpec(yellow, allRed);
    && i + n <= |phases| == |of| && (forall j :: i <= j < i + n ==> of[j] == s)
    && phases[i].color == Green && phases[i].directions == spec.entries && phases[i].duration == spec.green
    && (yellow > 0.0 ==> phases[i + 1].color == Yellow && phases[i + 1].directions == spec.entries
                         && phases[i + 1].duration == yellow)
    && (allRed > 0.0 ==> phases[i + n - 1].color == Red && phases[i + n - 1].directions == []
                         && phases[i + n - 1].duration == allRed)
  }

  lemma ShownLonger(a: Plan, of: seq<nat>, b: Plan, more: seq<nat>, i: nat, s: nat, spec: PhaseSpec, yellow: real,
                    allRed: real)
    requires ShowsSpec(a, of, i, s, spec, yellow, allRed) && |b| == |more|
    ensures ShowsSpec(a + b, of + more, i, s, spec, yellow, allRed)
  {
  }

  lemma ShownLast(a: Plan, of: seq<nat>, s: nat, spec: PhaseSpec, yellow: real, allRed: real)
    requires |a| == |of|
    ensures var b := Block(spec, yellow, allRed);
            ShowsSpec(a + b, of + seq(|b|, _ => s), |a|, s, spec, yellow, allRed)
  {
    LastBlock(spec, yellow, allRed);
    hide Block, PerSpec;
  }

  /** Every green of an expansion is followed by its own yellow, if there is one, and then by an
      all-red, if there is one, spec after spec. */
  lemma {:induction false} GreenIsCleared(specs: seq<PhaseSpec>, yellow: real, allRed: real, s: nat)
    requires s < |specs|
    ensures ShowsSpec(Expansion(specs, yellow, allRed), SpecIndices(specs, yellow, allRed),
                      Count(s, PerSpec(yellow, allRed)), s, specs[s], yellow, allRed)
  {
    hide ShowsSpec, Block, Count, PerSpec, Expansion, SpecIndices;
    var n := |specs| - 1;
    var init, of, b := Expansion(specs[..n], yellow, allRed), SpecIndices(specs[..n], yellow, allRed),
        Block(specs[n], yellow, allRed);
    IndicesStep(specs, yellow, allRed);
    if s < n {
      GreenIsCleared(specs[..n], yellow, allRed, s);
      ShownLonger(init, of, b, seq(|b|, _ => n), Count(s, PerSpec(yellow, allRed)), s, specs[s], yellow, allRed);
    } else {
      ExpansionLength(specs[..n], yellow, allRed);
      ShownLast(init, of, n, specs[n], yellow, allRed);
    }
  }

  lemma LastBlock(spec: PhaseSpec, yellow: real, allRed: real)
    ensures var b, n := Block(spec, yellow, allRed), PerSpec(yellow, allRed);
            && 1 <= |b| == n && (yellow > 0.0 ==> n >= 2)
            && b[0].color == Green && b[0].directions == spec.entries && b[0].duration == spec.green
            && (yellow > 0.0 ==> b[1].color == Yellow && b[1].directions == spec.entries && b[1].duration == yellow)
            && (allRed > 0.0 ==> b[n - 1].color == Red && b[n - 1].directions == [] && b[n - 1].duration == allRed)
  {
  }

  /** Appending phases leaves the time before them as it was. */
  lemma {:induction false} BeforeOfPrefix(a: Plan, b: Plan, k: nat)
    requires k <= |a|
    ensures Before(a + b, k) == Before(a, k)
    decreases k
  {
    if k > 0 {
      BeforeOfPrefix(a, b, k - 1);
    }
  }

  lemma AddPhase(phases: Plan, phase: Phase)
    ensures Cycle(phases + [phase]) == Cycle(phases) + phase.duration
  {
    BeforeOfPrefix(phases, [phase], |phases|);
  }

  lemma BlockLasts(phases: Plan, spec: PhaseSpec, yellow: real, allRed: real)
    requires yellow >= 0.0 && allRed >= 0.0
    ensures Cycle(phases + Block(spec, yellow, allRed)) == Cycle(phases) + spec.green + yellow + allRed
  {
    var block := Block(spec, yellow, allRed);
    AddPhase(phases, block[0]);
    assert phases + block[..1] == phases + [block[0]];
    if |block| >= 2 {
      AddPhase(phases + block[..1], block[1]);
      assert phases + block[..2] == phases + block[..1] + [block[1]];
    }
    if |block| == 3 {
      AddPhase(phases + block[..2], block[2]);
      assert phases + block[..3] == phases + block[..2] + [block[2]];
    }
    assert block[..|block|] == block;
  }

  lemma SpecsOk(f: Fields, plan: MeteringPlan, i: nat)
    requires Buildable(f) && AreSpecs(Get(f, PhasesKey).items, plan.specs) && i < |plan.specs|
    ensures SpecOk(plan.specs[i])
  {
    assert PhaseBuilds(Get(f, PhasesKey).items[i]);
  }

  lemma AllSpecsOk(f: Fields, plan: MeteringPlan)
    requires IsPlanOf(f, plan) && AreSpecs(Get(f, PhasesKey).items, plan.specs)
    ensures forall i :: 0 <= i < |plan.specs| ==> SpecOk(plan.specs[i])
    ensures plan.specs != [] && plan.yellow >= 0.0 && plan.allRed >= 0.0 && plan.offset >= 0.0
    ensures plan.guard.maxHold >= 0.0
  {
    forall i | 0 <= i < |plan.specs|
      ensures SpecOk(plan.specs[i])
    {
      SpecsOk(f, plan, i);
    }
    GuardFromBounds(f);
  }

  /** The phases of sound specs are positive, and each green lasts as long as its spec says. */
  lemma ExpansionSound(specs: seq<PhaseSpec>, yellow: real, allRed: real)
    requires specs != [] && yellow >= 0.0 && allRed >= 0.0 && forall i :: 0 <= i < |specs| ==> SpecOk(specs[i])
    ensures var phases, of := Expansion(specs, yellow, allRed), SpecIndices(specs, yellow, allRed);
            && |phases| >= |specs| && AllPositive(phases) && Cycle(phases) > 0.0
            && forall i :: 0 <= i < |phases| && phases[i].IsGreen() ==> phases[i].duration == specs[of[i]].green
  {
    ExpansionOk(specs, yellow, allRed);
    EnoughPhases(specs, yellow, allRed);
    var phases, of := Expansion(specs, yellow, allRed), SpecIndices(specs, yellow, allRed);
    hide Expansion, SpecIndices;
    forall i | 0 <= i < |phases|
      ensures phases[i].duration > 0.0 && (phases[i].IsGreen() ==> phases[i].duration == specs[of[i]].green)
    {
      assert OfItsSpec(specs[of[i]], phases[i], yellow, allRed) && SpecOk(specs[of[i]]);
    }
    PositiveCycle(phases, |phases|);
  }

  /** Every built plan is sound to run: positive phases, each green within its spec's bounds,
      and a cycle that is the sum of the greens and their clearances. */
  lemma BuiltPlanIsSound(f: Fields, plan: MeteringPlan)
    requires IsPlanOf(f, plan) && AreSpecs(Get(f, PhasesKey).items, plan.specs)
    ensures PlanOk(plan)
    ensures forall i :: 0 <= i < |plan.specs| ==> SpecOk(plan.specs[i])
    ensures plan.cycleDuration == SumOfBlocks(plan.specs, plan.yellow + plan.allRed)
    ensures |plan.phases| >= |plan.specs| >= 1
    ensures forall d :: d in plan.metered <==> exists s :: 0 <= s < |plan.specs| && d in plan.specs[s].entries
  {
    AllSpecsOk(f, plan);
    SoundSpecsMakePlan(plan);
  }

  lemma SoundSpecsMakePlan(plan: MeteringPlan)
    requires plan.specs != [] && plan.yellow >= 0.0 && plan.allRed >= 0.0 && plan.offset >= 0.0
    requires plan.guard.maxHold >= 0.0
    requires forall i :: 0 <= i < |plan.specs| ==> SpecOk(plan.specs[i])
    requires plan.phases == Expansion(plan.specs, plan.yellow, plan.allRed)
    requires plan.specOf == SpecIndices(plan.specs, plan.yellow, plan.allRed)
    requires plan.cycleDuration == Cycle(plan.phases)
    ensures PlanOk(plan) && |plan.phases| >= |plan.specs|
    ensures plan.cycleDuration == SumOfBlocks(plan.specs, plan.yellow + plan.allRed)
  {
    ExpansionOk(plan.specs, plan.yellow, plan.allRed);
    ExpansionSound(plan.specs, plan.yellow, plan.allRed);
    hide Expansion, SpecIndices, OfItsSpec;
  }

  lemma {:induction false} EnoughPhases(specs: seq<PhaseSpec>, yellow: real, allRed: real)
    ensures |Expansion(specs, yellow, allRed)| >= |specs|
  {
    if specs != [] {
      EnoughPhases(specs[..|specs| - 1], yellow, allRed);
    }
  }

  lemma GuardFromBounds(f: Fields)
    requires GuardBuilds(Get(f, GuardKey))
    ensures GuardFrom(Get(f, GuardKey)).maxHold >= 0.0
  {
  }

  lemma {:induction false} CyclesAgree(items: seq<Json>, specs: seq<PhaseSpec>, clearance: real)
    requires AreSpecs(items, specs) && GreensUsable(List(items))
    ensures CycleOf(items, clearance) == SumOfBlocks(specs, clearance)
  {
    if items != [] {
      var n := |items| - 1;
      CyclesAgree(items[..n], specs[..n], clearance);
      assert specs[n] == DraftSpec(items[n].fields);
      hide PhaseBuilds;
    }
  }

  lemma {:induction false} LongerClearance(specs: seq<PhaseSpec>, a: real, b: real)
    requires a <= b
    ensures SumOfBlocks(specs, a) <= SumOfBlocks(specs, b)
    ensures a < b && specs != [] ==> SumOfBlocks(specs, a) < SumOfBlocks(specs, b)
  {
    if specs != [] {
      LongerClearance(specs[..|specs| - 1], a, b);
    }
  }

  lemma ValidGreensUsable(f: Fields, arms: Option<set<Direction>>)
    requires PhasesValid(Get(f, PhasesKey), arms)
    ensures GreensUsable(Get(f, PhasesKey))
  {
    forall i | 0 <= i < |Get(f, PhasesKey).items|
      ensures var item := Get(f, PhasesKey).items[i];
              item.Object? && Get(item.fields, GreenKey).Number? && Get(item.fields, GreenKey).value > 0.0
    {
      assert PhaseValid(Get(f, PhasesKey).items[i], arms);
    }
  }

  /** The clearance the validator adds to each green. */
  function CheckedClearance(f: Fields): real {
    NumberOr(Get(f, YellowKey), DEFAULT_YELLOW) + NumberOr(CheckedAllRed(f), DEFAULT_ALL_RED)
  }

  /** The all-red field is not null, or the one behind it is no shorter than the default. */
  predicate AllRedCovered(f: Fields) {
    NullAt(f, AllRedKey) ==> NumberOr(Get(f, AllRedSnake), DEFAULT_ALL_RED) >= DEFAULT_ALL_RED
  }

  /** The all-red field is not null, or the one behind it is within the validator's bound. */
  predicate AllRedBounded(f: Fields) {
    NullAt(f, AllRedKey) ==> NumberOr(Get(f, AllRedSnake), DEFAULT_ALL_RED) <= 5.0
  }

  /** How the built all-red of a valid section compares with the one checked: the builder falls
      below it, or leaves the bound, exactly behind a null field. */
  lemma BuiltAllRedIff(f: Fields, arms: Option<set<Direction>>)
    requires SectionValid(f, arms) && ScalarsUsable(f)
    ensures NumberOr(CheckedAllRed(f), DEFAULT_ALL_RED) <= BuiltAllRed(f).value <==> AllRedCovered(f)
    ensures 0.0 <= BuiltAllRed(f).value <= 5.0 <==> AllRedBounded(f)
    ensures !NullAt(f, AllRedKey) ==> BuiltAllRed(f).value == NumberOr(CheckedAllRed(f), DEFAULT_ALL_RED)
  {
    hide PhasesValid, OffsetValid, GuardValid, CapValid;
  }

  /** The cycles the validator checks against and the builder makes, over the same greens. */
  lemma CyclesCompared(f: Fields, arms: Option<set<Direction>>, plan: MeteringPlan)
    requires SectionValid(f, arms) && IsPlanOf(f, plan) && AreSpecs(Get(f, PhasesKey).items, plan.specs)
    ensures GreensUsable(Get(f, PhasesKey)) && CheckedCycle(f) > 0.0
    ensures if AllRedCovered(f) then CheckedCycle(f) <= plan.cycleDuration else plan.cycleDuration < CheckedCycle(f)
  {
    hide PhaseBuilds, GuardBuilds, CapBuilds, GuardValid, CapValid, AreSpecs, SpecOk, PlanOk, Expansion, SpecIndices,
         EntriesIn, GuardFrom, CapFrom, CycleOf, SumOfBlocks, OffsetValid, PhasesValid;
    BuiltPlanIsSound(f, plan);
    ValidGreensUsable(f, arms);
    ValidBuildsIff(f, arms);
    BuiltAllRedIff(f, arms);
    var checked, built := CheckedClearance(f), plan.yellow + plan.allRed;
    CyclesAgree(Get(f, PhasesKey).items, plan.specs, checked);
    PositiveBlocks(f, plan, checked);
    if AllRedCovered(f) {
      LongerClearance(plan.specs, checked, built);
    } else {
      LongerClearance(plan.specs, built, checked);
    }
  }

  /** The section with another offset. */
  function WithOffset(f: Fields, x: real): Fields {
    f[OffsetKey := Number(x)]
  }

  /** Which offsets leave a valid section valid: those inside the checked cycle. */
  lemma OffsetValidIff(f: Fields, arms: Option<set<Direction>>, x: real)
    requires SectionValid(f, arms) && GreensUsable(Get(f, PhasesKey)) && CheckedCycle(f) > 0.0
    ensures SectionValid(WithOffset(f, x), arms) <==> 0.0 <= x < CheckedCycle(f)
  {
    hide PhasesValid, GuardValid, CapValid, GreensUsable, CycleOf;
    var g := WithOffset(f, x);
    assert Get(g, PhasesKey) == Get(f, PhasesKey) && Get(g, YellowKey) == Get(f, YellowKey);
    assert CheckedAllRed(g) == CheckedAllRed(f);
    assert Get(g, GuardKey) == Get(f, GuardKey) && Get(g, CapKey) == Get(f, CapKey);
    assert g.Keys <= SECTION_KEYS;
  }

  /** The offsets the validator lets through all lie inside the built cycle exactly when the
      all-red is covered: behind a null field, a shorter one lets some lie beyond. */
  lemma OffsetsInsideIff(f: Fields, arms: Option<set<Direction>>, plan: MeteringPlan)
    requires SectionValid(f, arms) && IsPlanOf(f, plan) && AreSpecs(Get(f, PhasesKey).items, plan.specs)
    ensures (forall x: real :: SectionValid(WithOffset(f, x), arms) ==> x < plan.cycleDuration) <==> AllRedCovered(f)
  {
    BuiltPlanIsSound(f, plan);
    CyclesCompared(f, arms, plan);
    hide SectionValid, IsPlanOf, AreSpecs, PlanOk, SpecOk, CheckedCycle, AllRedCovered;
    forall x: real
      ensures SectionValid(WithOffset(f, x), arms) <==> 0.0 <= x < CheckedCycle(f)
    {
      OffsetValidIff(f, arms, x);
    }
    if !AllRedCovered(f) {
      assert SectionValid(WithOffset(f, plan.cycleDuration), arms);
    }
  }

  /** The offset of a plan built from a valid section with its all-red covered is in the cycle. */
  lemma OffsetInsideCycle(f: Fields, arms: Option<set<Direction>>, plan: MeteringPlan)
    requires SectionValid(f, arms) && IsPlanOf(f, plan) && AreSpecs(Get(f, PhasesKey).items, plan.specs)
    requires AllRedCovered(f)
    ensures 0.0 <= plan.offset < plan.cycleDuration
  {
    CyclesCompared(f, arms, plan);
    hide PhaseBuilds, GuardBuilds, CapBuilds, GuardValid, CapValid, AreSpecs, PhasesValid, Expansion, SpecIndices,
         EntriesIn, GuardFrom, CapFrom, CycleOf, GreensUsable;
  }

  /** The validator and the builder agree: a section without issues and without null scalars
      builds, and whatever it builds is sound with its offset inside its cycle. */
  lemma ValidatorAndBuilderAgree(f: Fields, arms: Option<set<Direction>>)
    requires SectionValid(f, arms)
    requires !NullAt(f, YellowKey) && !NullAt(f, OffsetKey) && !NullAt(f, AllRedKey) && !NullAt(f, AllRedSnake)
    ensures Buildable(f)
    ensures forall plan :: IsPlanOf(f, plan) && AreSpecs(Get(f, PhasesKey).items, plan.specs) ==>
              && PlanOk(plan) && 0.0 <= plan.offset < plan.cycleDuration && plan.allRed <= 5.0
              && plan.cycleDuration == SumOfBlocks(plan.specs, plan.yellow + plan.allRed)
              && forall i :: 0 <= i < |plan.specs| ==> SpecOk(plan.specs[i])
  {
    ValidNumbersBuild(f, arms);
    ValidBuildsIff(f, arms);
    BuiltAllRedIff(f, arms);
    hide SectionValid, AreSpecs, PlanOk, SpecOk, Buildable, Expansion, SpecIndices, SumOfBlocks;
    forall plan | IsPlanOf(f, plan) && AreSpecs(Get(f, PhasesKey).items, plan.specs)
      ensures PlanOk(plan) && 0.0 <= plan.offset < plan.cycleDuration && plan.allRed <= 5.0
      ensures plan.cycleDuration == SumOfBlocks(plan.specs, plan.yellow + plan.allRed)
      ensures forall i :: 0 <= i < |plan.specs| ==> SpecOk(plan.specs[i])
    {
      BuiltPlanIsSound(f, plan);
      OffsetInsideCycle(f, arms, plan);
    }
  }

  lemma PositiveBlocks(f: Fields, plan: MeteringPlan, clearance: real)
    requires Buildable(f) && AreSpecs(Get(f, PhasesKey).items, plan.specs) && plan.specs != []
    ensures clearance >= 0.0 ==> SumOfBlocks(plan.specs, clearance) > 0.0
  {
    forall i | 0 <= i < |plan.specs|
      ensures plan.specs[i].green > 0.0
    {
      SpecsOk(f, plan, i);
    }
    if clearance >= 0.0 {
      SumPositive(plan.specs, clearance);
    }
  }

  lemma {:induction false} SumPositive(specs: seq<PhaseSpec>, clearance: real)
    requires specs != [] && clearance >= 0.0 && forall i :: 0 <= i < |specs| ==> specs[i].green > 0.0
    ensures SumOfBlocks(specs, clearance) > 0.0
  {
    if |specs| > 1 {
      SumPositive(specs[..|specs| - 1], clearance);
    }
  }

  lemma NorthIsNorth()
    ensures EntryDirection(Text("north")) == Some(North)
  {
    var s := "north";
    assert SignalPlans.Strip(s) == s;
    assert SignalPlans.Lower(s) == s;
  }

  /** One north phase, a null all-red in front of `x` seconds of it, and an offset. */
  function Sample(x: real, offset: real): Fields {
    var phase := map[EntriesKey := List([Text("north")]), GreenKey := Number(15.0)];
    map[PhasesKey := List([Object(phase)]), AllRedKey := Null, AllRedSnake := Number(x), OffsetKey := Number(offset)]
  }

  lemma SamplePhase(x: real, offset: real)
    ensures var items := Get(Sample(x, offset), PhasesKey).items;
            && |items| == 1 && PhaseValid(items[0], None)
            && CycleOf(items, 5.0) == 20.0
  {
    NorthIsNorth();
    hide EntryDirection;
    var items := Get(Sample(x, offset), PhasesKey).items;
    assert EntryValid([Text("north")], 0, None);
    assert items[..0] == [];
  }

  /** The validator holds its offset against 20 seconds, whatever `x` the builder then uses. */
  lemma SampleValid(x: real, offset: real)
    requires x >= 0.0 && 0.0 <= offset < 20.0
    ensures SectionValid(Sample(x, offset), None) && Buildable(Sample(x, offset))
  {
    SamplePhase(x, offset);
    hide PhaseValid, PhaseBuilds, CycleOf;
    ValidBuildsIff(Sample(x, offset), None);
  }

  /** The builder's cycle is 18 seconds and `x` of all-red. */
  lemma SampleBuilds(x: real, offset: real) returns (plan: MeteringPlan)
    requires x >= 0.0 && 0.0 <= offset < 20.0
    ensures var f := Sample(x, offset);
            SectionValid(f, None) && IsPlanOf(f, plan) && AreSpecs(Get(f, PhasesKey).items, plan.specs)
    ensures plan.offset == offset && plan.allRed == x && plan.cycleDuration == 18.0 + x
  {
    SamplePhase(x, offset);
    SampleValid(x, offset);
    hide PhaseValid, PhaseBuilds, SectionValid, CycleOf;
    var phase := Get(Sample(x, offset), PhasesKey).items[0];
    assert PhaseBuilds(phase) by {
      ValidPhaseBuilds(phase, None);
    }
    var specs := [DraftSpec(phase.fields)];
    var phases := Expansion(specs, 3.0, x);
    plan := MeteringPlan(phases, specs, SpecIndices(specs, 3.0, x), EntriesIn(specs), 3.0, x, offset, Cycle(phases),
                         GuardFrom(Null), CapFrom(Null));
    ExpansionOk(specs, 3.0, x);
    assert specs[..0] == [];
    assert SumOfBlocks(specs, 3.0 + x) == 18.0 + x;
  }

  /** A null all-red in front of an explicit zero: an offset of 19 passes, and the cycle is 18. */
  lemma NullAllRedShortensCycle() returns (f: Fields, plan: MeteringPlan)
    ensures SectionValid(f, None) && IsPlanOf(f, plan) && AreSpecs(Get(f, PhasesKey).items, plan.specs)
    ensures plan.offset == 19.0 && plan.cycleDuration == 18.0
  {
    f := Sample(0.0, 19.0);
    plan := SampleBuilds(0.0, 19.0);
  }

  /** A null all-red in front of 1000 seconds: no issue, and an all-red of 1000 seconds. */
  lemma NullAllRedIsUnchecked() returns (f: Fields, plan: MeteringPlan)
    ensures SectionValid(f, None) && IsPlanOf(f, plan) && AreSpecs(Get(f, PhasesKey).items, plan.specs)
    ensures plan.allRed == 1000.0
  {
    f := Sample(1000.0, 0.0);
    plan := SampleBuilds(1000.0, 0.0);
  }

  /** A valid section can be refused: its yellow is null, which the validator reads as absent. */
  lemma NullYellowIsRefused(f: Fields, arms: Option<set<Direction>>)
    requires SectionValid(f, arms)
    ensures var g := f[YellowKey := Null];
            OffsetValid(g) ==> SectionValid(g, arms) && !Buildable(g)
  {
    var g := f[YellowKey := Null];
    assert Get(g, PhasesKey) == Get(f, PhasesKey) && CheckedAllRed(g) == CheckedAllRed(f);
    assert Get(g, GuardKey) == Get(f, GuardKey) && Get(g, CapKey) == Get(f, CapKey);
    hide PhasesValid, OffsetValid, GuardValid, CapValid;
    assert g.Keys <= SECTION_KEYS;
    assert !NonNegativeNumber(GetOr(g, YellowKey, Number(DEFAULT_YELLOW)));
  }

  // ---------------------------------------------------------------------
  // Planned red and green
  // ---------------------------------------------------------------------

  /** Total duration of the first `k` phases that `shows` picks. */
  function TimeOf(phases: Plan, k: nat, shows: Phase -> bool): real
    requires k <= |phases|
  {
    if k == 0 then 0.0 else TimeOf(phases, k - 1, shows) + if shows(phases[k - 1]) then phases[k - 1].duration else 0.0
  }

  /** Scheduled red of an approach in a cycle. */
  function PlannedRed(plan: MeteringPlan, d: Direction): real {
    if d !in plan.metered then 0.0 else TimeOf(plan.phases, |plan.phases|, (p: Phase) => d !in p.directions)
  }

  /** Scheduled green of an approach in a cycle. */
  function PlannedGreen(plan: MeteringPlan, d: Direction): real {
    if d !in plan.metered then plan.cycleDuration
    else TimeOf(plan.phases, |plan.phases|, (p: Phase) => d in p.directions && p.color == Green)
  }

  /** Total duration of the first `k` phases during which the approach's signal shows `color`. */
  function ShownTime(plan: MeteringPlan, d: Direction, color: Color, k: nat): real
    requires k <= |plan.phases|
  {
    if k == 0 then 0.0
    else ShownTime(plan, d, color, k - 1)
         + if ColorOf(plan, Cursor(k - 1, 0.0, 0), d) == color then plan.phases[k - 1].duration else 0.0
  }

  lemma {:induction false} ThreeColorSplit(plan: MeteringPlan, d: Direction, k: nat)
    requires k <= |plan.phases|
    ensures ShownTime(plan, d, Red, k) + ShownTime(plan, d, Green, k) + ShownTime(plan, d, Yellow, k)
            == Before(plan.phases, k)
    ensures d !in plan.metered ==> ShownTime(plan, d, Green, k) == Before(plan.phases, k)
                                   && ShownTime(plan, d, Red, k) == 0.0
  {
    if k > 0 {
      ThreeColorSplit(plan, d, k - 1);
    }
  }

  lemma {:induction false} TimeOfShown(plan: MeteringPlan, d: Direction, color: Color, shows: Phase -> bool, k: nat)
    requires k <= |plan.phases|
    requires forall i :: 0 <= i < |plan.phases| ==>
               (shows(plan.phases[i]) <==> ColorOf(plan, Cursor(i, 0.0, 0), d) == color)
    ensures TimeOf(plan.phases, k, shows) == ShownTime(plan, d, color, k)
  {
    if k > 0 {
      TimeOfShown(plan, d, color, shows, k - 1);
    }
  }

  /** In a built plan no phase shows red to an approach it names. */
  lemma NamedIsNotRed(plan: MeteringPlan, d: Direction)
    requires plan.yellow >= 0.0 && plan.allRed >= 0.0 && plan.phases == Expansion(plan.specs, plan.yellow, plan.allRed)
    ensures forall i :: 0 <= i < |plan.phases| && d in plan.phases[i].directions ==> plan.phases[i].color != Red
  {
    ExpansionOk(plan.specs, plan.yellow, plan.allRed);
    var of := SpecIndices(plan.specs, plan.yellow, plan.allRed);
    hide Expansion, SpecIndices;
    forall i | 0 <= i < |plan.phases| && d in plan.phases[i].directions
      ensures plan.phases[i].color != Red
    {
      assert OfItsSpec(plan.specs[of[i]], plan.phases[i], plan.yellow, plan.allRed);
    }
  }

  /** In a built plan, planned red and green are the time an approach's signal shows red and
      green in a cycle; with its yellow they make up the cycle, and its green is positive. */
  lemma PlannedTimesAddUp(f: Fields, plan: MeteringPlan, d: Direction)
    requires IsPlanOf(f, plan) && AreSpecs(Get(f, PhasesKey).items, plan.specs)
    ensures PlannedRed(plan, d) == ShownTime(plan, d, Red, |plan.phases|)
    ensures PlannedGreen(plan, d) == ShownTime(plan, d, Green, |plan.phases|) > 0.0
    ensures PlannedRed(plan, d) + PlannedGreen(plan, d) + ShownTime(plan, d, Yellow, |plan.phases|)
              == plan.cycleDuration
  {
    BuiltPlanIsSound(f, plan);
    NamedIsNotRed(plan, d);
    ThreeColorSplit(plan, d, |plan.phases|);
    hide PhaseBuilds, DraftSpec, GuardBuilds, CapBuilds, AreSpecs, Expansion, SpecIndices, BuiltAllRed, GreenOfSpec,
         SpecOk;
    if d in plan.metered {
      TimeOfShown(plan, d, Red, (p: Phase) => d !in p.directions, |plan.phases|);
      TimeOfShown(plan, d, Green, (p: Phase) => d in p.directions && p.color == Green, |plan.phases|);
      var s :| 0 <= s < |plan.specs| && d in plan.specs[s].entries;
      var i := GreenPhaseOf(plan.specs, plan.yellow, plan.allRed, s);
      SomeTime(plan.phases, |plan.phases|, (p: Phase) => d in p.directions && p.color == Green, i);
    }
  }

  lemma {:induction false} GreenPhaseOf(specs: seq<PhaseSpec>, yellow: real, allRed: real, s: nat) returns (i: nat)
    requires s < |specs|
    ensures i < |Expansion(specs, yellow, allRed)|
    ensures var p := Expansion(specs, yellow, allRed)[i]; p.color == Green && p.directions == specs[s].entries
  {
    var n := |specs| - 1;
    if s == n {
      i := |Expansion(specs[..n], yellow, allRed)|;
    } else {
      i := GreenPhaseOf(specs[..n], yellow, allRed, s);
    }
  }

  lemma {:induction false} SomeTime(phases: Plan, k: nat, shows: Phase -> bool, i: nat)
    requires AllPositive(phases) && i < |phases| && k <= |phases| && shows(phases[i])
    ensures TimeOf(phases, k, shows) >= 0.0 && (i < k ==> TimeOf(phases, k, shows) > 0.0)
    decreases k
  {
    if k > 0 {
      SomeTime(phases, k - 1, shows, i);
    }
  }

  // ---------------------------------------------------------------------
  // Where the section is looked for
  // ---------------------------------------------------------------------

  /** The validator looks under the controller first. */
  function CheckedSection(config: Fields): Json {
    var controller := Get(config, ControllerKey);
    if controller.Object? && EntryMeteringKey in controller.fields then controller.fields[EntryMeteringKey]
    else if EntryMeteringKey in config then config[EntryMeteringKey]
    else if PhasesKey in config then Object(config)
    else Null
  }

  /** The builder looks at the top level first. */
  function BuiltSection(config: Fields): Fields {
    var controller := Get(config, ControllerKey);
    if Get(config, EntryMeteringKey).Object? then config[EntryMeteringKey].fields
    else if controller.Object? && Get(controller.fields, EntryMeteringKey).Object?
        then controller.fields[EntryMeteringKey].fields
    else config
  }

  /** They look at the same section exactly when it is not given differently in both places. */
  lemma SameSectionIff(config: Fields)
    requires CheckedSection(config).Object?
    ensures var controller := Get(config, ControllerKey);
            var twice := controller.Object? && Get(controller.fields, EntryMeteringKey).Object?
                && Get(config, EntryMeteringKey).Object?;
            CheckedSection(config).fields == BuiltSection(config)
            <==> !(twice && Get(controller.fields, EntryMeteringKey) != Get(config, EntryMeteringKey))
  {
  }

  /** A valid section under the controller, and at the top level one with a null yellow: the
      validator has nothing to say, and the builder refuses. */
  lemma OtherSectionIsBuilt() returns (config: Fields)
    ensures CheckedSection(config).Object? && SectionValid(CheckedSection(config).fields, None)
    ensures !Buildable(BuiltSection(config)) && BuiltSection(config) != CheckedSection(config).fields
  {
    var checked := Sample(2.0, 0.0);
    var built := checked[YellowKey := Null];
    SampleValid(2.0, 0.0);
    config := map[ControllerKey := Object(map[EntryMeteringKey := Object(checked)]),
                  EntryMeteringKey := Object(built)];
    hide SectionValid, PhaseBuilds;
    assert YellowKey in built && YellowKey !in checked;
    assert !NonNegativeNumber(GetOr(built, YellowKey, Number(DEFAULT_YELLOW)));
  }
}
