/** Entry-metering sections: what the validator accepts and what the builder makes of it. */
module MeteringPlans {
  import opened Options
  import opened RealMath
  import opened Phases
  import opened MeteringCursor
  import SignalPlans

  /** The field names a section may use, and any other. */
  datatype Key =
    | PhasesKey | YellowKey | AllRedKey | AllRedSnake | OffsetKey | GuardKey | CapKey
    | EntriesKey | GreenKey | MinGreenKey | MinGreenSnake | MaxGreenKey | MaxGreenSnake
    | EnabledKey | StoppedThresholdKey | MaxHoldKey | VehiclesKey
    | ControllerKey | EntryMeteringKey | Other(name: string)

  /** A configuration value; a number is finite unless it is `NotFinite`. */
  datatype Json = Null | Bool(flag: bool) | Number(value: real) | NotFinite | Text(text: string)
                | List(items: seq<Json>) | Object(fields: map<Key, Json>)

  type Fields = map<Key, Json>

  function Get(f: Fields, key: Key): Json {
    if key in f then f[key] else Null
  }

  function GetOr(f: Fields, key: Key, default: Json): Json {
    if key in f then f[key] else default
  }

  const DEFAULT_YELLOW := 3.0
  const DEFAULT_ALL_RED := 2.0

  predicate IsWhole(x: real) {
    x == x.Floor as real
  }

  function EntryDirection(j: Json): Option<Direction> {
    if !j.Text? then None
    else
      var name := SignalPlans.Lower(SignalPlans.Strip(j.text));
      if name == "north" then Some(North) else if name == "south" then Some(South)
      else if name == "east" then Some(East) else if name == "west" then Some(West) else None
  }

  // ---------------------------------------------------------------------
  // The validator
  // ---------------------------------------------------------------------

  datatype Code = NoPhases | EmptyPhase | UnknownEntry | MissingArm | DuplicateInPhase | ZeroGreen | GreenBelowMin
                | GreenAboveMax | MinAboveMax | OutOfBounds | OffsetBeyondCycle | UnknownField | NotANumber

  const SECTION_KEYS := {PhasesKey, YellowKey, AllRedKey, AllRedSnake, OffsetKey, GuardKey, CapKey}
  const PHASE_KEYS := {EntriesKey, GreenKey, MinGreenKey, MinGreenSnake, MaxGreenKey, MaxGreenSnake}
  const GUARD_KEYS := {EnabledKey, StoppedThresholdKey, MaxHoldKey}
  const CAP_KEYS := {EnabledKey, VehiclesKey}

  function MinGreenOf(p: Fields): Json { GetOr(p, MinGreenKey, Get(p, MinGreenSnake)) }

  function MaxGreenOf(p: Fields): Json { GetOr(p, MaxGreenKey, Get(p, MaxGreenSnake)) }

  /** The all-red the validator looks at: the camel-case field, even when it is null. */
  function CheckedAllRed(f: Fields): Json { GetOr(f, AllRedKey, Get(f, AllRedSnake)) }

  /** Null, or a number between the bounds. */
  predicate Optional(j: Json, low: real, high: real) {
    j == Null || (j.Number? && low <= j.value <= high)
  }

  /** A compass direction, present at the junction, and not named earlier in the list. */
  predicate EntryValid(items: seq<Json>, k: nat, arms: Option<set<Direction>>)
    requires k < |items|
  {
    var d := EntryDirection(items[k]);
    && d.Some? && (arms.Some? ==> d.value in arms.value)
    && forall n :: 0 <= n < k ==> EntryDirection(items[n]) != d
  }

  /** What is reported about one entry. */
  predicate EntryIssue(items: seq<Json>, k: nat, arms: Option<set<Direction>>, code: Code)
    requires k < |items|
  {
    var d := EntryDirection(items[k]);
    match code
    case UnknownEntry => d.None?
    case MissingArm => d.Some? && arms.Some? && d.value !in arms.value
    case DuplicateInPhase => d.Some? && exists n :: 0 <= n < k && EntryDirection(items[n]) == d
    case _ => false
  }

  predicate EntriesIssue(j: Json, arms: Option<set<Direction>>, code: Code) {
    if !j.List? || j.items == [] then code == EmptyPhase
    else exists k :: 0 <= k < |j.items| && EntryIssue(j.items, k, arms, code)
  }

  predicate EntriesValid(j: Json, arms: Option<set<Direction>>) {
    && j.List? && j.items != []
    && forall k :: 0 <= k < |j.items| ==> EntryValid(j.items, k, arms)
  }

  predicate GreensValid(p: Fields) {
    var green, low, high := Get(p, GreenKey), MinGreenOf(p), MaxGreenOf(p);
    && green.Number? && 5.0 < green.value <= 120.0
    && Optional(low, 5.0, 60.0) && Optional(high, 10.0, 180.0)
    && (low.Number? ==> low.value <= green.value)
    && (high.Number? ==> green.value <= high.value)
  }

  /** A number outside its bounds, or outside the half-open bounds of a green. */
  predicate OutOf(j: Json, low: real, high: real) {
    j.Number? && !(low <= j.value <= high)
  }

  /** What is reported about a phase's green, minimum and maximum. */
  predicate GreensIssue(p: Fields, code: Code) {
    var green, low, high := Get(p, GreenKey), MinGreenOf(p), MaxGreenOf(p);
    match code
    case NotANumber => !green.Number? || (low != Null && !low.Number?) || (high != Null && !high.Number?)
    case ZeroGreen => green.Number? && green.value <= 0.0
    case OutOfBounds => (green.Number? && (0.0 < green.value <= 5.0 || green.value > 120.0))
                        || OutOf(low, 5.0, 60.0) || OutOf(high, 10.0, 180.0)
    case MinAboveMax => low.Number? && high.Number? && low.value > high.value
    case GreenBelowMin => green.Number? && low.Number? && 0.0 < green.value < low.value
    case GreenAboveMax => green.Number? && high.Number? && green.value > 0.0 && green.value > high.value
    case _ => false
  }

  predicate PhaseValid(j: Json, arms: Option<set<Direction>>) {
    && j.Object? && j.fields.Keys <= PHASE_KEYS
    && EntriesValid(Get(j.fields, EntriesKey), arms) && GreensValid(j.fields)
  }

  predicate PhaseIssue(j: Json, arms: Option<set<Direction>>, code: Code) {
    if !j.Object? then code == UnknownField
    else
      || (code == UnknownField && !(j.fields.Keys <= PHASE_KEYS))
      || EntriesIssue(Get(j.fields, EntriesKey), arms, code) || GreensIssue(j.fields, code)
  }

  predicate PhasesIssue(j: Json, arms: Option<set<Direction>>, code: Code) {
    if !j.List? || j.items == [] then code == NoPhases
    else
      || (code == OutOfBounds && |j.items| > 4)
      || exists k :: 0 <= k < |j.items| && PhaseIssue(j.items[k], arms, code)
  }

  /** What is reported about an optional scalar. */
  predicate ScalarIssue(j: Json, within: bool, code: Code) {
    || (code == NotANumber && j != Null && !j.Number?)
    || (code == OutOfBounds && j.Number? && !within)
  }

  predicate PhasesValid(j: Json, arms: Option<set<Direction>>) {
    && j.List? && 1 <= |j.items| <= 4
    && forall i :: 0 <= i < |j.items| ==> PhaseValid(j.items[i], arms)
  }

  predicate YellowValid(f: Fields) {
    var y := Get(f, YellowKey);
    y == Null || (y.Number? && 2.0 < y.value <= 8.0)
  }

  predicate WholeBetween(j: Json, low: real, high: real) {
    j.Number? && IsWhole(j.value) && low <= j.value <= high
  }

  predicate WholeIssue(f: Fields, key: Key, low: real, high: real, code: Code) {
    key in f && (if f[key].Number? then code == OutOfBounds && !WholeBetween(f[key], low, high) else code == NotANumber)
  }

  /** What is reported about the field names and the flag of a sub-section. */
  predicate ShapeIssue(j: Json, allowed: set<Key>, code: Code) {
    && code == UnknownField && j != Null
    && (!j.Object? || !(j.fields.Keys <= allowed) || (EnabledKey in j.fields && !j.fields[EnabledKey].Bool?))
  }

  predicate GuardIssue(j: Json, code: Code) {
    || ShapeIssue(j, GUARD_KEYS, code)
    || (j.Object? && WholeIssue(j.fields, StoppedThresholdKey, 1.0, 20.0, code))
    || (j.Object? && MaxHoldKey in j.fields
        && if j.fields[MaxHoldKey].Number? then code == OutOfBounds && OutOf(j.fields[MaxHoldKey], 0.0, 60.0)
           else code == NotANumber)
  }

  predicate CapIssue(j: Json, code: Code) {
    || ShapeIssue(j, CAP_KEYS, code)
    || (j.Object? && WholeIssue(j.fields, VehiclesKey, 1.0, 50.0, code))
  }

  predicate GuardValid(j: Json) {
    j != Null ==>
    && j.Object? && j.fields.Keys <= GUARD_KEYS
    && (EnabledKey in j.fields ==> j.fields[EnabledKey].Bool?)
    && (StoppedThresholdKey in j.fields ==> WholeBetween(j.fields[StoppedThresholdKey], 1.0, 20.0))
    && (MaxHoldKey in j.fields ==> j.fields[MaxHoldKey].Number? && 0.0 <= j.fields[MaxHoldKey].value <= 60.0)
  }

  predicate CapValid(j: Json) {
    j != Null ==>
    && j.Object? && j.fields.Keys <= CAP_KEYS
    && (EnabledKey in j.fields ==> j.fields[EnabledKey].Bool?)
    && (VehiclesKey in j.fields ==> WholeBetween(j.fields[VehiclesKey], 1.0, 50.0))
  }

  /** Every phase has a positive green, so the cycle can be summed. */
  predicate GreensUsable(j: Json) {
    j.List? && forall i :: 0 <= i < |j.items| ==>
      j.items[i].Object? && Get(j.items[i].fields, GreenKey).Number? && Get(j.items[i].fields, GreenKey).value > 0.0
  }

  function NumberOr(j: Json, default: real): real {
    if j.Number? then j.value else default
  }

  /** Sum of the greens, each with the clearance that follows it. */
  function CycleOf(items: seq<Json>, clearance: real): real
    requires GreensUsable(List(items))
  {
    if items == [] then 0.0
    else CycleOf(items[..|items| - 1], clearance) + Get(items[|items| - 1].fields, GreenKey).value + clearance
  }

  /** The cycle the validator holds the offset against. */
  function CheckedCycle(f: Fields): real
    requires GreensUsable(Get(f, PhasesKey))
  {
    CycleOf(Get(f, PhasesKey).items,
            NumberOr(Get(f, YellowKey), DEFAULT_YELLOW) + NumberOr(CheckedAllRed(f), DEFAULT_ALL_RED))
  }

  predicate OffsetValid(f: Fields) {
    var offset := Get(f, OffsetKey);
    offset != Null ==>
    && offset.Number? && offset.value >= 0.0
    && (GreensUsable(Get(f, PhasesKey)) ==> CheckedCycle(f) <= 0.0 || offset.value < CheckedCycle(f))
  }

  /** What is reported about the offset. */
  predicate OffsetIssue(f: Fields, code: Code) {
    var offset := Get(f, OffsetKey);
    match code
    case NotANumber => offset != Null && !offset.Number?
    case OutOfBounds => offset.Number? && offset.value < 0.0
    case OffsetBeyondCycle => offset.Number? && offset.value >= 0.0
                              && GreensUsable(Get(f, PhasesKey)) && 0.0 < CheckedCycle(f) <= offset.value
    case _ => false
  }

  /** A section the validator has nothing to say against. */
  predicate SectionValid(f: Fields, arms: Option<set<Direction>>) {
    && f.Keys <= SECTION_KEYS
    && PhasesValid(Get(f, PhasesKey), arms)
    && YellowValid(f) && Optional(CheckedAllRed(f), 0.0, 5.0) && OffsetValid(f)
    && GuardValid(Get(f, GuardKey)) && CapValid(Get(f, CapKey))
  }

  /** Every code some part of the section is reported for. */
  predicate SectionIssue(f: Fields, arms: Option<set<Direction>>, code: Code) {
    var yellow, allRed := Get(f, YellowKey), CheckedAllRed(f);
    || (code == UnknownField && !(f.Keys <= SECTION_KEYS))
    || PhasesIssue(Get(f, PhasesKey), arms, code)
    || ScalarIssue(yellow, yellow.Number? && 2.0 < yellow.value <= 8.0, code)
    || ScalarIssue(allRed, allRed.Number? && 0.0 <= allRed.value <= 5.0, code)
    || OffsetIssue(f, code) || GuardIssue(Get(f, GuardKey), code) || CapIssue(Get(f, CapKey), code)
  }

  /** Reports every problem of a section; there are none exactly when the section is valid. */
  method ValidateSection(f: Fields, arms: Option<set<Direction>>) returns (issues: seq<Code>)
    ensures issues == [] <==> SectionValid(f, arms)
    ensures forall code :: code in issues <==> SectionIssue(f, arms, code)
  {
    hide PhasesValid, GuardValid, CapValid, OffsetValid, PhasesIssue, GuardIssue, CapIssue, OffsetIssue;
    var unknown := UnknownFields(f.Keys, SECTION_KEYS);
    var phases := ValidatePhases(Get(f, PhasesKey), arms);
    issues := unknown + phases;
    var yellow := Get(f, YellowKey);
    var yellowIssues := ValidateScalar(yellow, yellow.Number? && 2.0 < yellow.value <= 8.0);
    var allRed := CheckedAllRed(f);
    var allRedIssues := ValidateScalar(allRed, allRed.Number? && 0.0 <= allRed.value <= 5.0);
    issues := issues + yellowIssues + allRedIssues;
    var offset := ValidateOffset(f);
    var guard := ValidateGuard(Get(f, GuardKey));
    var cap := ValidateCap(Get(f, CapKey));
    issues := issues + offset + guard + cap;
  }

  /** An optional number: what is reported about one that is no number, or not within bounds. */
  method ValidateScalar(j: Json, within: bool) returns (issues: seq<Code>)
    ensures issues == [] <==> j == Null || (j.Number? && within)
    ensures forall code :: code in issues <==> ScalarIssue(j, within, code)
  {
    issues := [];
    if j != Null {
      if !j.Number? {
        issues := issues + [NotANumber];
      } else if !within {
        issues := issues + [OutOfBounds];
      }
    }
  }

  method UnknownFields(keys: set<Key>, allowed: set<Key>) returns (issues: seq<Code>)
    ensures issues == [] <==> keys <= allowed
    ensures forall code :: code in issues <==> code == UnknownField && !(keys <= allowed)
  {
    issues := [];
    var rest := keys;
    while rest != {}
      invariant rest <= keys
      invariant issues == [] <==> keys - rest <= allowed
      invariant forall code :: code in issues <==> code == UnknownField && !(keys - rest <= allowed)
      decreases rest
    {
      var k :| k in rest;
      rest := rest - {k};
      if k !in allowed {
        issues := issues + [UnknownField];
      }
      assert k in keys - rest;
    }
  }

  method ValidatePhases(j: Json, arms: Option<set<Direction>>) returns (issues: seq<Code>)
    ensures issues == [] <==> PhasesValid(j, arms)
    ensures forall code :: code in issues <==> PhasesIssue(j, arms, code)
  {
    if !j.List? || j.items == [] {
      return [NoPhases];
    }
    issues := if |j.items| > 4 then [OutOfBounds] else [];
    for i := 0 to |j.items|
      invariant issues == [] <==> |j.items| <= 4 && forall k :: 0 <= k < i ==> PhaseValid(j.items[k], arms)
      invariant forall code :: code in issues <==>
                  || (code == OutOfBounds && |j.items| > 4)
                  || exists k :: 0 <= k < i && PhaseIssue(j.items[k], arms, code)
    {
      hide PhaseValid, PhaseIssue;
      var found := ValidatePhase(j.items[i], arms);
      issues := issues + found;
    }
  }

  method ValidatePhase(j: Json, arms: Option<set<Direction>>) returns (issues: seq<Code>)
    ensures issues == [] <==> PhaseValid(j, arms)
    ensures forall code :: code in issues <==> PhaseIssue(j, arms, code)
  {
    hide EntriesValid, EntriesIssue, GreensValid, GreensIssue;
    if !j.Object? {
      return [UnknownField];
    }
    var unknown := UnknownFields(j.fields.Keys, PHASE_KEYS);
    var entries := ValidateEntries(Get(j.fields, EntriesKey), arms);
    var greens := ValidateGreens(j.fields);
    issues := unknown + entries + greens;
  }

  method ValidateEntries(j: Json, arms: Option<set<Direction>>) returns (issues: seq<Code>)
    ensures issues == [] <==> EntriesValid(j, arms)
    ensures forall code :: code in issues <==> EntriesIssue(j, arms, code)
  {
    if !j.List? || j.items == [] {
      return [EmptyPhase];
    }
    hide EntryValid, EntryIssue, EntryDirection;
    issues := [];
    var seen: set<Direction> := {};
    for i := 0 to |j.items|
      invariant forall d :: d in seen <==> exists k :: 0 <= k < i && EntryDirection(j.items[k]) == Some(d)
      invariant forall code :: code in issues <==> exists k :: 0 <= k < i && EntryIssue(j.items, k, arms, code)
    {
      var found := ValidateEntry(j.items, i, arms, seen);
      OneMoreEntry(j.items, arms, i, issues, found);
      OneMoreSeen(j.items, i, seen);
      issues := issues + found;
      var d := EntryDirection(j.items[i]);
      seen := if d.Some? then seen + {d.value} else seen;
    }
    NoEntryIssues(j.items, arms, issues);
  }

  lemma OneMoreEntry(items: seq<Json>, arms: Option<set<Direction>>, i: nat, issues: seq<Code>, found: seq<Code>)
    requires i < |items|
    requires forall code :: code in issues <==> exists k :: 0 <= k < i && EntryIssue(items, k, arms, code)
    requires forall code :: code in found <==> EntryIssue(items, i, arms, code)
    ensures forall code :: code in issues + found <==> exists k :: 0 <= k < i + 1 && EntryIssue(items, k, arms, code)
  {
    hide EntryIssue;
  }

  lemma OneMoreSeen(items: seq<Json>, i: nat, seen: set<Direction>)
    requires i < |items|
    requires forall d :: d in seen <==> exists k :: 0 <= k < i && EntryDirection(items[k]) == Some(d)
    ensures var d := EntryDirection(items[i]);
            forall e :: e in (if d.Some? then seen + {d.value} else seen)
                        <==> exists k :: 0 <= k < i + 1 && EntryDirection(items[k]) == Some(e)
  {
    hide EntryDirection;
  }

  method ValidateEntry(items: seq<Json>, i: nat, arms: Option<set<Direction>>, seen: set<Direction>)
    returns (found: seq<Code>)
    requires i < |items|
    requires forall d :: d in seen <==> exists k :: 0 <= k < i && EntryDirection(items[k]) == Some(d)
    ensures forall code :: code in found <==> EntryIssue(items, i, arms, code)
  {
    hide EntryDirection;
    var d := EntryDirection(items[i]);
    if d.None? {
      return [UnknownEntry];
    }
    found := if arms.Some? && d.value !in arms.value then [MissingArm] else [];
    if d.value in seen {
      found := found + [DuplicateInPhase];
    }
  }

  /** The entries are valid exactly if there is nothing to report about any of them. */
  lemma NoEntryIssues(items: seq<Json>, arms: Option<set<Direction>>, issues: seq<Code>)
    requires forall code :: code in issues <==> exists k :: 0 <= k < |items| && EntryIssue(items, k, arms, code)
    ensures issues == [] <==> forall k :: 0 <= k < |items| ==> EntryValid(items, k, arms)
  {
    hide EntryDirection;
    if issues == [] {
      forall k | 0 <= k < |items|
        ensures EntryValid(items, k, arms)
      {
        assert UnknownEntry !in issues && MissingArm !in issues && DuplicateInPhase !in issues;
        assert !EntryIssue(items, k, arms, UnknownEntry) && !EntryIssue(items, k, arms, MissingArm);
        assert !EntryIssue(items, k, arms, DuplicateInPhase);
      }
    } else {
      assert issues[0] in issues;
      var k :| 0 <= k < |items| && EntryIssue(items, k, arms, issues[0]);
      assert !EntryValid(items, k, arms);
    }
  }

  /** The bounds of one phase's green, minimum and maximum, and how they compare. */
  method ValidateGreens(p: Fields) returns (issues: seq<Code>)
    ensures issues == [] <==> GreensValid(p)
    ensures forall code :: code in issues <==> GreensIssue(p, code)
  {
    var green, low, high := Get(p, GreenKey), MinGreenOf(p), MaxGreenOf(p);
    issues := [];
    if !green.Number? {
      issues := issues + [NotANumber];
    } else if green.value <= 0.0 {
      issues := issues + [ZeroGreen];
    } else if !(5.0 < green.value <= 120.0) {
      issues := issues + [OutOfBounds];
    }
    if low != Null {
      if !low.Number? {
        issues := issues + [NotANumber];
      } else if !(5.0 <= low.value <= 60.0) {
        issues := issues + [OutOfBounds];
      }
    }
    if high != Null {
      if !high.Number? {
        issues := issues + [NotANumber];
      } else if !(10.0 <= high.value <= 180.0) {
        issues := issues + [OutOfBounds];
      }
    }
    if low.Number? && high.Number? && low.value > high.value {
      issues := issues + [MinAboveMax];
    }
    if green.Number? && green.value > 0.0 {
      if low.Number? && green.value < low.value {
        issues := issues + [GreenBelowMin];
      }
      if high.Number? && green.value > high.value {
        issues := issues + [GreenAboveMax];
      }
    }
  }

  method ValidateOffset(f: Fields) returns (issues: seq<Code>)
    ensures issues == [] <==> OffsetValid(f)
    ensures forall code :: code in issues <==> OffsetIssue(f, code)
  {
    var offset := Get(f, OffsetKey);
    if offset == Null {
      return [];
    }
    if !offset.Number? {
      return [NotANumber];
    }
    if offset.value < 0.0 {
      return [OutOfBounds];
    }
    if GreensUsable(Get(f, PhasesKey)) {
      var cycle := CheckedCycle(f);
      if cycle > 0.0 && offset.value >= cycle {
        return [OffsetBeyondCycle];
      }
    }
    return [];
  }

  method ValidateWhole(j: Json, low: real, high: real) returns (issues: seq<Code>)
    ensures issues == [] <==> WholeBetween(j, low, high)
    ensures issues == [] || issues == [if j.Number? then OutOfBounds else NotANumber]
  {
    if !j.Number? {
      return [NotANumber];
    }
    if j.value != j.value.Floor as real {
      return [OutOfBounds];
    }
    return if low <= j.value <= high then [] else [OutOfBounds];
  }

  method ValidateGuard(j: Json) returns (issues: seq<Code>)
    ensures issues == [] <==> GuardValid(j)
    ensures forall code :: code in issues <==> GuardIssue(j, code)
  {
    if j == Null {
      return [];
    }
    if !j.Object? {
      return [UnknownField];
    }
    issues := UnknownFields(j.fields.Keys, GUARD_KEYS);
    if EnabledKey in j.fields && !j.fields[EnabledKey].Bool? {
      issues := issues + [UnknownField];
    }
    if StoppedThresholdKey in j.fields {
      var threshold := ValidateWhole(j.fields[StoppedThresholdKey], 1.0, 20.0);
      issues := issues + threshold;
    }
    if MaxHoldKey in j.fields {
      var hold := j.fields[MaxHoldKey];
      if !hold.Number? {
        issues := issues + [NotANumber];
      } else if !(0.0 <= hold.value <= 60.0) {
        issues := issues + [OutOfBounds];
      }
    }
  }

  method ValidateCap(j: Json) returns (issues: seq<Code>)
    ensures issues == [] <==> CapValid(j)
    ensures forall code :: code in issues <==> CapIssue(j, code)
  {
    if j == Null {
      return [];
    }
    if !j.Object? {
      return [UnknownField];
    }
    issues := UnknownFields(j.fields.Keys, CAP_KEYS);
    if EnabledKey in j.fields && !j.fields[EnabledKey].Bool? {
      issues := issues + [UnknownField];
    }
    if VehiclesKey in j.fields {
      var vehicles := ValidateWhole(j.fields[VehiclesKey], 1.0, 50.0);
      issues := issues + vehicles;
    }
  }

  // ---------------------------------------------------------------------
  // The builder
  // ---------------------------------------------------------------------

  /** The all-red the builder uses: a null camel-case field falls through to the other one. */
  function BuiltAllRed(f: Fields): Json {
    if Get(f, AllRedKey) == Null then GetOr(f, AllRedSnake, Number(DEFAULT_ALL_RED)) else f[AllRedKey]
  }

  predicate NonNegativeNumber(j: Json) {
    j.Number? && j.value >= 0.0
  }

  predicate NumberOrNull(j: Json) {
    j == Null || j.Number?
  }

  /** The entries of a phase as directions, none of them twice. */
  predicate EntriesBuild(j: Json) {
    EntriesValid(j, None)
  }

  function EntriesOf(j: Json): seq<Direction>
    requires EntriesBuild(j)
  {
    seq(|j.items|, i requires 0 <= i < |j.items| =>
      assert EntryValid(j.items, i, None);
      EntryDirection(j.items[i]).value)
  }

  /** The spec of a phase, with its defaults, before its own checks. */
  function DraftSpec(p: Fields): PhaseSpec
    requires EntriesBuild(Get(p, EntriesKey)) && Get(p, GreenKey).Number?
  {
    var green := Get(p, GreenKey).value;
    PhaseSpec(EntriesOf(Get(p, EntriesKey)), green,
              NumberOr(MinGreenOf(p), Min(green, 8.0)), NumberOr(MaxGreenOf(p), Max(green, 40.0)))
  }

  /** What a spec's own constructor insists on. */
  predicate SpecOk(spec: PhaseSpec) {
    spec.entries != [] && 0.0 < spec.minGreen <= spec.green <= spec.maxGreen
  }

  predicate PhaseBuilds(j: Json) {
    && j.Object? && EntriesBuild(Get(j.fields, EntriesKey)) && Get(j.fields, GreenKey).Number?
    && NumberOrNull(MinGreenOf(j.fields)) && NumberOrNull(MaxGreenOf(j.fields))
    && SpecOk(DraftSpec(j.fields))
  }

  /** The specs the phases of a section stand for. */
  ghost predicate AreSpecs(items: seq<Json>, specs: seq<PhaseSpec>) {
    && |specs| == |items|
    && forall i :: 0 <= i < |items| ==> PhaseBuilds(items[i]) && specs[i] == DraftSpec(items[i].fields)
  }

  predicate FlagBuilds(f: Fields, key: Key) {
    key in f ==> f[key].Bool?
  }

  predicate WholeBuilds(f: Fields, key: Key, low: real, high: real) {
    key in f ==> WholeBetween(f[key], low, high)
  }

  predicate GuardBuilds(j: Json) {
    j != Null ==>
    && j.Object? && FlagBuilds(j.fields, EnabledKey) && WholeBuilds(j.fields, StoppedThresholdKey, 1.0, 20.0)
    && (MaxHoldKey in j.fields ==> j.fields[MaxHoldKey].Number? && 0.0 <= j.fields[MaxHoldKey].value <= 60.0)
  }

  predicate CapBuilds(j: Json) {
    j != Null ==>
    && j.Object? && FlagBuilds(j.fields, EnabledKey) && WholeBuilds(j.fields, VehiclesKey, 1.0, 50.0)
  }

  /** A section the builder makes a plan of. */
  predicate Buildable(f: Fields) {
    && Get(f, PhasesKey).List? && Get(f, PhasesKey).items != []
    && (forall i :: 0 <= i < |Get(f, PhasesKey).items| ==> PhaseBuilds(Get(f, PhasesKey).items[i]))
    && NonNegativeNumber(GetOr(f, YellowKey, Number(DEFAULT_YELLOW)))
    && NonNegativeNumber(BuiltAllRed(f))
    && NonNegativeNumber(GetOr(f, OffsetKey, Number(0.0)))
    && GuardBuilds(Get(f, GuardKey)) && CapBuilds(Get(f, CapKey))
  }

  function Joined(entries: seq<Direction>): string {
    if entries == [] then ""
    else if |entries| == 1 then SignalPlans.DirectionName(entries[0])
    else Joined(entries[..|entries| - 1]) + "_" + SignalPlans.DirectionName(entries[|entries| - 1])
  }

  const ALL_TURNS := [Left, Straight, Right, UTurn]

  /** The phases one spec expands into: its green, and the clearances of positive length. */
  function Block(spec: PhaseSpec, yellow: real, allRed: real): Plan {
    [Phase(Joined(spec.entries) + "_green", spec.entries, ALL_TURNS, spec.green, Green)]
    + (if yellow > 0.0 then [Phase(Joined(spec.entries) + "_yellow", spec.entries, ALL_TURNS, yellow, Yellow)] else [])
    + (if allRed > 0.0 then [Phase(Joined(spec.entries) + "_all_red", [], [], allRed, Red)] else [])
  }

  function Expansion(specs: seq<PhaseSpec>, yellow: real, allRed: real): Plan {
    if specs == [] then []
    else Expansion(specs[..|specs| - 1], yellow, allRed) + Block(specs[|specs| - 1], yellow, allRed)
  }

  function SpecIndices(specs: seq<PhaseSpec>, yellow: real, allRed: real): (r: seq<nat>)
    ensures |r| == |Expansion(specs, yellow, allRed)|
    ensures forall i :: 0 <= i < |r| ==> r[i] < |specs|
  {
    if specs == [] then []
    else
      var n := |specs| - 1;
      assert |Expansion(specs, yellow, allRed)| == |Expansion(specs[..n], yellow, allRed)|
          + |Block(specs[n], yellow, allRed)|;
      SpecIndices(specs[..n], yellow, allRed) + seq(|Block(specs[n], yellow, allRed)|, _ => n)
  }

  lemma NoExpansion(yellow: real, allRed: real)
    ensures Expansion([], yellow, allRed) == [] && SpecIndices([], yellow, allRed) == []
  {
  }

  lemma ExpansionStep(specs: seq<PhaseSpec>, s: nat, yellow: real, allRed: real)
    requires s < |specs|
    ensures Expansion(specs[..s + 1], yellow, allRed) == Expansion(specs[..s], yellow, allRed)
              + Block(specs[s], yellow, allRed)
    ensures SpecIndices(specs[..s + 1], yellow, allRed)
            == SpecIndices(specs[..s], yellow, allRed) + seq(|Block(specs[s], yellow, allRed)|, _ => s)
  {
    assert specs[..s + 1][..s] == specs[..s];
  }

  method ExpandPhases(specs: seq<PhaseSpec>, yellow: real, allRed: real) returns (phases: Plan, specOf: seq<nat>)
    ensures phases == Expansion(specs, yellow, allRed) && specOf == SpecIndices(specs, yellow, allRed)
  {
    phases, specOf := [], [];
    NoExpansion(yellow, allRed);
    hide Expansion, SpecIndices;
    for s := 0 to |specs|
      invariant phases == Expansion(specs[..s], yellow, allRed) && specOf == SpecIndices(specs[..s], yellow, allRed)
    {
      var spec := specs[s];
      ExpansionStep(specs, s, yellow, allRed);
      ghost var was, wasOf := phases, specOf;
      phases, specOf := phases + [Phase(Joined(spec.entries) + "_green", spec.entries, ALL_TURNS, spec.green, Green)],
          specOf + [s];
      if yellow > 0.0 {
        phases, specOf := phases + [Phase(Joined(spec.entries) + "_yellow", spec.entries, ALL_TURNS, yellow, Yellow)],
            specOf + [s];
      }
      if allRed > 0.0 {
        phases, specOf := phases + [Phase(Joined(spec.entries) + "_all_red", [], [], allRed, Red)], specOf + [s];
      }
      assert phases == was + Block(spec, yellow, allRed);
      assert specOf == wasOf + seq(|Block(spec, yellow, allRed)|, _ => s);
    }
    assert specs[..|specs|] == specs;
  }

  /** One spec per phase, or nothing at the first phase that does not make one. */
  method BuildSpecs(items: seq<Json>) returns (r: Option<seq<PhaseSpec>>)
    ensures r.Some? <==> forall i :: 0 <= i < |items| ==> PhaseBuilds(items[i])
    ensures r.Some? ==> AreSpecs(items, r.value)
  {
    hide PhaseBuilds, DraftSpec;
    var specs := [];
    for i := 0 to |items|
      invariant AreSpecs(items[..i], specs)
    {
      var spec := BuildSpec(items[i]);
      if spec.None? {
        return None;
      }
      assert items[..i + 1] == items[..i] + [items[i]];
      specs := specs + [spec.value];
    }
    assert items[..|items|] == items;
    return Some(specs);
  }

  method BuildSpec(j: Json) returns (r: Option<PhaseSpec>)
    ensures r.Some? <==> PhaseBuilds(j)
    ensures r.Some? ==> r.value == DraftSpec(j.fields)
  {
    if !j.Object? {
      return None;
    }
    var entries := BuildEntries(Get(j.fields, EntriesKey));
    if entries.None? {
      return None;
    }
    var green := GetOr(j.fields, GreenKey, Number(0.0));
    if !green.Number? || green.value <= 0.0 {
      return None;
    }
    var low, high := MinGreenOf(j.fields), MaxGreenOf(j.fields);
    if !NumberOrNull(low) || !NumberOrNull(high) {
      return None;
    }
    var spec := PhaseSpec(entries.value, green.value, NumberOr(low, Min(green.value, 8.0)),
                          NumberOr(high, Max(green.value, 40.0)));
    return if SpecOk(spec) then Some(spec) else None;
  }

  method BuildEntries(j: Json) returns (r: Option<seq<Direction>>)
    ensures r.Some? <==> EntriesBuild(j)
    ensures r.Some? ==> r.value == EntriesOf(j)
  {
    hide EntryDirection;
    if !j.List? || j.items == [] {
      return None;
    }
    var entries: seq<Direction> := [];
    for i := 0 to |j.items|
      invariant |entries| == i
      invariant forall k :: 0 <= k < i ==> EntryDirection(j.items[k]) == Some(entries[k])
      invariant forall k :: 0 <= k < i ==> EntryValid(j.items, k, None)
    {
      var d := EntryDirection(j.items[i]);
      assert EntryValid(j.items, i, None) <==> d.Some? && d.value !in entries;
      if d.None? || d.value in entries {
        return None;
      }
      entries := entries + [d.value];
    }
    return Some(entries);
  }

  function EntriesIn(specs: seq<PhaseSpec>): set<Direction> {
    set i, d | 0 <= i < |specs| && d in specs[i].entries :: d
  }

  function GuardFrom(j: Json): GuardConfig
    requires GuardBuilds(j)
  {
    var f := if j.Object? then j.fields else map[];
    GuardConfig(EnabledKey in f && f[EnabledKey].flag,
                if StoppedThresholdKey in f then f[StoppedThresholdKey].value.Floor else 2,
                if MaxHoldKey in f then f[MaxHoldKey].value else 10.0)
  }

  function CapFrom(j: Json): CapConfig
    requires CapBuilds(j)
  {
    var f := if j.Object? then j.fields else map[];
    CapConfig(EnabledKey in f && f[EnabledKey].flag, if VehiclesKey in f then f[VehiclesKey].value.Floor else 8)
  }

  /** The plan of a section, or nothing where the builder raises. */
  method BuildMeteringPlan(f: Fields) returns (r: Option<MeteringPlan>)
    ensures r.Some? <==> Buildable(f)
    ensures r.Some? ==> AreSpecs(Get(f, PhasesKey).items, r.value.specs) && IsPlanOf(f, r.value)
  {
    hide PhaseBuilds, DraftSpec, GuardBuilds, CapBuilds, GuardFrom, CapFrom, AreSpecs;
    var raw := Get(f, PhasesKey);
    if !raw.List? || raw.items == [] {
      return None;
    }
    var yellow, allRed, offset := GetOr(f, YellowKey, Number(DEFAULT_YELLOW)), BuiltAllRed(f),
        GetOr(f, OffsetKey, Number(0.0));
    if !NonNegativeNumber(yellow) || !NonNegativeNumber(allRed) || !NonNegativeNumber(offset) {
      return None;
    }
    var specs := BuildSpecs(raw.items);
    if specs.None? {
      return None;
    }
    var phases, specOf := ExpandPhases(specs.value, yellow.value, allRed.value);
    if !GuardBuilds(Get(f, GuardKey)) || !CapBuilds(Get(f, CapKey)) {
      return None;
    }
    return Some(MeteringPlan(phases, specs.value, specOf, EntriesIn(specs.value), yellow.value, allRed.value,
                             offset.value,
                             Cycle(phases), GuardFrom(Get(f, GuardKey)), CapFrom(Get(f, CapKey))));
  }

  /** The plan's parts other than its specs come from the section. */
  ghost predicate IsPlanOf(f: Fields, plan: MeteringPlan) {
    && Buildable(f)
    && plan.yellow == GetOr(f, YellowKey, Number(DEFAULT_YELLOW)).value && plan.allRed == BuiltAllRed(f).value
    && plan.offset == GetOr(f, OffsetKey, Number(0.0)).value
    && plan.phases == Expansion(plan.specs, plan.yellow, plan.allRed)
    && plan.specOf == SpecIndices(plan.specs, plan.yellow, plan.allRed)
    && plan.metered == EntriesIn(plan.specs) && plan.cycleDuration == Cycle(plan.phases)
    && plan.guard == GuardFrom(Get(f, GuardKey)) && plan.cap == CapFrom(Get(f, CapKey))
  }
}
