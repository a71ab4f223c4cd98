/**
 * The energy-system UI store as values: the record it holds, one pure
 * transition per action (the updater handed to `set`), and what those
 * transitions promise, both one call at a time and over whole histories of
 * calls.
 *
 * The two metrics are kept as integer counts of hundredths, so one
 * `incrementEnergySaved` adds 5 and one `incrementCo2Reduced` adds 2.
 */
module EnergySystem {

  datatype Option<T> = None | Some(value: T)

  /** Energy saved per `incrementEnergySaved` call, in hundredths (0.05). */
  const EnergyStep: int := 5
  /** CO2 reduced per `incrementCo2Reduced` call, in hundredths (0.02). */
  const Co2Step: int := 2

  /** The data fields of the store's record. */
  datatype State = State(
    inverterActive: bool,
    switchActive: bool,
    showHeroSection: bool,
    showTagSection: bool,
    booting: bool,
    animationPhase: int,
    energySaved: int,
    co2Reduced: int)

  // ---------------------------------------------------------------------
  // Field-level view of a record, used to say which fields an action may
  // change and which it must leave alone.
  // ---------------------------------------------------------------------

  datatype Field = Inverter | Switch | Hero | Tag | Booting | Phase | Energy | Co2

  datatype Value = Flag(b: bool) | Number(n: int)

  const AllFields: set<Field> := {Inverter, Switch, Hero, Tag, Booting, Phase, Energy, Co2}

  /** The fields that the power actions (inverter, switch, full on/off) drive. */
  const PowerFields: set<Field> := {Inverter, Switch, Hero, Tag, Phase}

  function Get(s: State, f: Field): Value {
    match f
    case Inverter => Flag(s.inverterActive)
    case Switch => Flag(s.switchActive)
    case Hero => Flag(s.showHeroSection)
    case Tag => Flag(s.showTagSection)
    case Booting => Flag(s.booting)
    case Phase => Number(s.animationPhase)
    case Energy => Number(s.energySaved)
    case Co2 => Number(s.co2Reduced)
  }

  /** The fields on which two records differ; empty exactly when they are equal. */
  function ChangedFields(s: State, t: State): (r: set<Field>)
    ensures r <= AllFields
    ensures r == {} <==> s == t
  {
    var r := set f | f in AllFields && Get(s, f) != Get(t, f);
    assert s != t ==> r != {} by {
      if s != t {
        if s.inverterActive != t.inverterActive { assert Inverter in r; }
        else if s.switchActive != t.switchActive { assert Switch in r; }
        else if s.showHeroSection != t.showHeroSection { assert Hero in r; }
        else if s.showTagSection != t.showTagSection { assert Tag in r; }
        else if s.booting != t.booting { assert Booting in r; }
        else if s.animationPhase != t.animationPhase { assert Phase in r; }
        else if s.energySaved != t.energySaved { assert Energy in r; }
        else { assert Co2 in r; }
      }
    }
    r
  }

  /** The store's invariant: the switch can only be on while the inverter is on. */
  predicate Consistent(s: State) {
    s.switchActive ==> s.inverterActive
  }

  /** Every power flag on and the animation in phase 1. */
  predicate IsFullyOn(s: State) {
    s.inverterActive && s.switchActive && s.showHeroSection && s.showTagSection && s.animationPhase == 1
  }

  /** Every power flag off and the animation in phase 0. */
  predicate IsPoweredDown(s: State) {
    !s.inverterActive && !s.switchActive && !s.showHeroSection && !s.showTagSection && s.animationPhase == 0
  }

  // ---------------------------------------------------------------------
  // Shallow merge: what `set` does with the object an updater returns.
  // ---------------------------------------------------------------------

  /** A partial record: the fields an updater returned; `None` means the key is absent. */
  datatype Patch = Patch(
    inverterActive: Option<bool>,
    switchActive: Option<bool>,
    showHeroSection: Option<bool>,
    showTagSection: Option<bool>,
    booting: Option<bool>,
    animationPhase: Option<int>,
    energySaved: Option<int>,
    co2Reduced: Option<int>)

  /** The value a patch gives field `f`, if it names `f`. */
  function PatchGet(p: Patch, f: Field): Option<Value> {
    match f
    case Inverter => if p.inverterActive.Some? then Some(Flag(p.inverterActive.value)) else None
    case Switch => if p.switchActive.Some? then Some(Flag(p.switchActive.value)) else None
    case Hero => if p.showHeroSection.Some? then Some(Flag(p.showHeroSection.value)) else None
    case Tag => if p.showTagSection.Some? then Some(Flag(p.showTagSection.value)) else None
    case Booting => if p.booting.Some? then Some(Flag(p.booting.value)) else None
    case Phase => if p.animationPhase.Some? then Some(Number(p.animationPhase.value)) else None
    case Energy => if p.energySaved.Some? then Some(Number(p.energySaved.value)) else None
    case Co2 => if p.co2Reduced.Some? then Some(Number(p.co2Reduced.value)) else None
  }

  /** The fields a patch names. */
  function Named(p: Patch): set<Field> {
    set f | f in AllFields && PatchGet(p, f).Some?
  }

  function Pick<T>(o: Option<T>, default: T): T {
    if o.Some? then o.value else default
  }

  /** What `set` does with the object an updater returns. */
  function Merge(s: State, p: Patch): State {
    State(
      Pick(p.inverterActive, s.inverterActive),
      Pick(p.switchActive, s.switchActive),
      Pick(p.showHeroSection, s.showHeroSection),
      Pick(p.showTagSection, s.showTagSection),
      Pick(p.booting, s.booting),
      Pick(p.animationPhase, s.animationPhase),
      Pick(p.energySaved, s.energySaved),
      Pick(p.co2Reduced, s.co2Reduced))
  }

  /**
   * Shallow merge, field by field: a field the patch names takes the patch's
   * value, any other field keeps its old value.
   */
  lemma MergeAt(s: State, p: Patch, f: Field)
    ensures Get(Merge(s, p), f) == (if PatchGet(p, f).Some? then PatchGet(p, f).value else Get(s, f))
  {
    match f
    case Inverter =>
    case Switch =>
    case Hero =>
    case Tag =>
    case Booting =>
    case Phase =>
    case Energy =>
    case Co2 =>
  }

  /** A merge changes no field the patch leaves out. */
  lemma MergeChangesOnlyNamed(s: State, p: Patch)
    ensures ChangedFields(s, Merge(s, p)) <= Named(p)
  {
    forall f | f in ChangedFields(s, Merge(s, p)) ensures f in Named(p) {
      MergeAt(s, p, f);
    }
  }

  /** The patch that names every field of `s`: what `{ ...s }` gives. */
  function Whole(s: State): (p: Patch)
    ensures Named(p) == AllFields
  {
    Patch(Some(s.inverterActive), Some(s.switchActive), Some(s.showHeroSection),
          Some(s.showTagSection), Some(s.booting), Some(s.animationPhase),
          Some(s.energySaved), Some(s.co2Reduced))
  }

  /** Merging a whole record replaces the old one: `set` of a full spread is replacement. */
  lemma MergeWhole(s: State, t: State)
    ensures Merge(t, Whole(s)) == s
  {
  }

  // ---------------------------------------------------------------------
  // The initial record and the ten actions.
  // ---------------------------------------------------------------------

  /** The defaults the store is created with. */
  function Init(): (s: State)
    ensures Consistent(s)
    ensures IsFullyOn(s)
    ensures !s.booting && s.energySaved == 0 && s.co2Reduced == 0
  {
    State(true, true, true, true, false, 1, 0, 0)
  }

  /** The partial object returned when the inverter is switched off; it has no `booting` key. */
  function ShutdownPatch(s: State): (p: Patch)
    ensures Named(p) == AllFields - {Booting}
  {
    Patch(Some(false), Some(false), Some(false), Some(false), None, Some(0),
          Some(s.energySaved), Some(s.co2Reduced))
  }

  function SetInverterActive(s: State, active: bool): (r: State)
    ensures !active ==> IsPoweredDown(r)
    ensures active ==> r.inverterActive && r.showHeroSection && r.showTagSection && r.animationPhase == 1
    ensures !active ==> ChangedFields(s, r) <= PowerFields
    ensures active ==> ChangedFields(s, r) <= {Inverter, Hero, Tag, Phase}
    ensures Consistent(s) ==> Consistent(r)
  {
    if !active then
      Merge(s, ShutdownPatch(s))
    else
      s.(inverterActive := active, showHeroSection := true, showTagSection := true, animationPhase := 1)
  }

  function SetSwitchActive(s: State, active: bool): (r: State)
    ensures !s.inverterActive ==> r == s
    ensures s.inverterActive && active ==> r.switchActive && r.animationPhase == 0 && ChangedFields(s, r) <= {Switch, Phase}
    ensures s.inverterActive && !active ==> !r.switchActive && ChangedFields(s, r) <= {Switch}
    ensures Consistent(s) ==> Consistent(r)
  {
    if !s.inverterActive then
      s
    else if active then
      s.(switchActive := true, animationPhase := 0)
    else
      s.(switchActive := false)
  }

  function SetShowHeroSection(s: State, show: bool): (r: State)
    ensures r.showHeroSection == show
    ensures ChangedFields(s, r) <= {Hero}
  {
    s.(showHeroSection := show)
  }

  function SetShowTagSection(s: State, show: bool): (r: State)
    ensures r.showTagSection == show
    ensures ChangedFields(s, r) <= {Tag}
  {
    s.(showTagSection := show)
  }

  function SetAnimationPhase(s: State, phase: int): (r: State)
    ensures r.animationPhase == phase
    ensures ChangedFields(s, r) <= {Phase}
  {
    s.(animationPhase := phase)
  }

  function IncrementEnergySaved(s: State): (r: State)
    ensures r.energySaved == s.energySaved + EnergyStep
    ensures ChangedFields(s, r) == {Energy}
  {
    s.(energySaved := s.energySaved + EnergyStep)
  }

  function IncrementCo2Reduced(s: State): (r: State)
    ensures r.co2Reduced == s.co2Reduced + Co2Step
    ensures ChangedFields(s, r) == {Co2}
  {
    s.(co2Reduced := s.co2Reduced + Co2Step)
  }

  function SetBooting(s: State, booting: bool): (r: State)
    ensures r.booting == booting
    ensures ChangedFields(s, r) <= {Booting}
  {
    s.(booting := booting)
  }

  function ActivateFullSystem(s: State): (r: State)
    ensures IsFullyOn(r) && Consistent(r)
    ensures ChangedFields(s, r) <= PowerFields
  {
    s.(inverterActive := true, switchActive := true, showHeroSection := true,
       showTagSection := true, animationPhase := 1)
  }

  function DeactivateFullSystem(s: State): (r: State)
    ensures IsPoweredDown(r) && Consistent(r)
    ensures ChangedFields(s, r) <= PowerFields
  {
    s.(inverterActive := false, switchActive := false, showHeroSection := false,
       showTagSection := false, animationPhase := 0)
  }

  // ---------------------------------------------------------------------
  // Properties relating several calls.
  // ---------------------------------------------------------------------

  /** Switching the inverter off gives one result whatever the power fields were. */
  lemma ShutdownForgetsPowerState(s: State, t: State)
    requires s.booting == t.booting && s.energySaved == t.energySaved && s.co2Reduced == t.co2Reduced
    ensures SetInverterActive(s, false) == SetInverterActive(t, false)
  {
  }

  /** Switching the inverter off is the same as a full deactivation. */
  lemma ShutdownIsFullDeactivation(s: State)
    ensures SetInverterActive(s, false) == DeactivateFullSystem(s)
  {
  }

  /** The switch is not remembered across a power cycle of the inverter. */
  lemma PowerCycleLeavesSwitchOff(s: State)
    ensures !SetInverterActive(SetInverterActive(s, false), true).switchActive
    ensures !SetSwitchActive(SetInverterActive(s, false), true).switchActive
  {
  }

  /** Full activation is the inverter on, then the switch on, then phase 1. */
  lemma ActivateIsInverterThenSwitch(s: State)
    ensures ActivateFullSystem(s) == SetAnimationPhase(SetSwitchActive(SetInverterActive(s, true), true), 1)
  {
  }

  lemma ActivateFullSystemIdempotent(s: State)
    ensures ActivateFullSystem(ActivateFullSystem(s)) == ActivateFullSystem(s)
    ensures IsFullyOn(s) ==> ActivateFullSystem(s) == s
  {
  }

  lemma DeactivateFullSystemIdempotent(s: State)
    ensures DeactivateFullSystem(DeactivateFullSystem(s)) == DeactivateFullSystem(s)
    ensures IsPoweredDown(s) ==> DeactivateFullSystem(s) == s
  {
  }

  // ---------------------------------------------------------------------
  // Histories of calls.
  // ---------------------------------------------------------------------

  /** One call into the store, as a value. */
  datatype Action =
    | InverterTo(active: bool)
    | SwitchTo(active: bool)
    | HeroTo(show: bool)
    | TagTo(show: bool)
    | PhaseTo(phase: int)
    | AddEnergy
    | AddCo2
    | BootingTo(booting: bool)
    | ActivateAll
    | DeactivateAll

  function Apply(s: State, a: Action): (r: State)
    ensures Consistent(s) ==> Consistent(r)
    ensures r.energySaved == s.energySaved + (if a == AddEnergy then EnergyStep else 0)
    ensures r.co2Reduced == s.co2Reduced + (if a == AddCo2 then Co2Step else 0)
    ensures !a.BootingTo? ==> r.booting == s.booting
  {
    match a
    case InverterTo(active) => SetInverterActive(s, active)
    case SwitchTo(active) => SetSwitchActive(s, active)
    case HeroTo(show) => SetShowHeroSection(s, show)
    case TagTo(show) => SetShowTagSection(s, show)
    case PhaseTo(phase) => SetAnimationPhase(s, phase)
    case AddEnergy => IncrementEnergySaved(s)
    case AddCo2 => IncrementCo2Reduced(s)
    case BootingTo(booting) => SetBooting(s, booting)
    case ActivateAll => ActivateFullSystem(s)
    case DeactivateAll => DeactivateFullSystem(s)
  }

  /** The record after the calls `acts`, in order, starting from `s`. */
  function Run(s: State, acts: seq<Action>): State
    decreases |acts|
  {
    if acts == [] then s else Run(Apply(s, acts[0]), acts[1..])
  }

  function Occurrences(acts: seq<Action>, a: Action): nat
    decreases |acts|
  {
    if acts == [] then 0 else (if acts[0] == a then 1 else 0) + Occurrences(acts[1..], a)
  }

  function Repeat(a: Action, n: nat): (r: seq<Action>)
    ensures |r| == n
    ensures forall i :: 0 <= i < n ==> r[i] == a
  {
    if n == 0 then [] else [a] + Repeat(a, n - 1)
  }

  /** Every history of calls keeps the store's invariant. */
  lemma {:induction false} RunPreservesConsistent(s: State, acts: seq<Action>)
    requires Consistent(s)
    ensures Consistent(Run(s, acts))
    decreases |acts|
  {
    if acts != [] {
      RunPreservesConsistent(Apply(s, acts[0]), acts[1..]);
    }
  }

  /** Each counter equals its start plus one step per increment call in the history. */
  lemma {:induction false} RunMetrics(s: State, acts: seq<Action>)
    ensures Run(s, acts).energySaved == s.energySaved + EnergyStep * Occurrences(acts, AddEnergy)
    ensures Run(s, acts).co2Reduced == s.co2Reduced + Co2Step * Occurrences(acts, AddCo2)
    decreases |acts|
  {
    if acts != [] {
      RunMetrics(Apply(s, acts[0]), acts[1..]);
    }
  }

  /** The counters never go down. */
  lemma MetricsNeverDecrease(s: State, acts: seq<Action>)
    ensures Run(s, acts).energySaved >= s.energySaved
    ensures Run(s, acts).co2Reduced >= s.co2Reduced
  {
    RunMetrics(s, acts);
  }

  /** Only `setBooting` changes `booting`. */
  lemma {:induction false} BootingOnlyBySetBooting(s: State, acts: seq<Action>)
    requires forall i :: 0 <= i < |acts| ==> !acts[i].BootingTo?
    ensures Run(s, acts).booting == s.booting
    decreases |acts|
  {
    if acts != [] {
      assert !acts[0].BootingTo?;
      BootingOnlyBySetBooting(Apply(s, acts[0]), acts[1..]);
    }
  }

  /** `n` energy increments add `n` steps and change nothing else. */
  lemma {:induction false} RepeatedEnergyIncrements(s: State, n: nat)
    ensures Run(s, Repeat(AddEnergy, n)) == s.(energySaved := s.energySaved + n * EnergyStep)
    decreases n
  {
    if n > 0 {
      assert Repeat(AddEnergy, n)[1..] == Repeat(AddEnergy, n - 1);
      RepeatedEnergyIncrements(Apply(s, AddEnergy), n - 1);
    }
  }

  /** `n` CO2 increments add `n` steps and change nothing else. */
  lemma {:induction false} RepeatedCo2Increments(s: State, n: nat)
    ensures Run(s, Repeat(AddCo2, n)) == s.(co2Reduced := s.co2Reduced + n * Co2Step)
    decreases n
  {
    if n > 0 {
      assert Repeat(AddCo2, n)[1..] == Repeat(AddCo2, n - 1);
      RepeatedCo2Increments(Apply(s, AddCo2), n - 1);
    }
  }

  /** From the defaults, `n` increments give counts of exactly `n` steps. */
  lemma IncrementsFromDefaults(n: nat)
    ensures Run(Init(), Repeat(AddEnergy, n)).energySaved == n * EnergyStep
    ensures Run(Init(), Repeat(AddCo2, n)).co2Reduced == n * Co2Step
  {
    RepeatedEnergyIncrements(Init(), n);
    RepeatedCo2Increments(Init(), n);
  }

  /**
   * The documented walk: defaults, inverter off (everything off, counters
   * kept), switch on refused, then inverter on and switch on.
   */
  lemma DefaultsShutdownAndRestart()
    ensures var off := SetInverterActive(Init(), false);
      off == State(false, false, false, false, false, 0, 0, 0)
      && SetSwitchActive(off, true) == off
      && var on := SetSwitchActive(SetInverterActive(off, true), true);
         on.switchActive && on.animationPhase == 0
  {
  }
}
