/** The generation pipeline: a lazily initialised table store, then three
    phases (context analysis, the three core rolls, detail synthesis: name,
    physical traits, cultural traits, narrative hook, basic mechanics and the
    quick reference). Anything thrown in the phases yields a fixed fallback
    species instead. */
module SpeciesGeneration {
  import opened JsValues
  import opened Strings
  import opened Config
  import opened Seeds
  import opened RollTables
  import opened ContextEngine
  import opened SwadeIntegration

  /** The result of the three core rolls: each key with the entry it came from. */
  datatype CoreProfile = CoreProfile(
    archetype: string, biologicalData: Entry,
    culture: string, culturalData: Entry,
    status: string, statusData: Entry)

  /** The cultural details; the no-data case has only an interaction style. */
  datatype CulturalTraits = CulturalTraits(
    values: Option<seq<string>>,
    structure: Option<string>,
    interactionStyle: string,
    commonRoles: Option<seq<string>>)

  /** A narrative hook; `summary` is undefined when the chosen list is empty. */
  datatype Hook = Hook(summary: Option<string>, detailed: Option<string>, category: Option<string>)

  /** The one-glance summary a game master reads mid-session. */
  datatype QuickRef = QuickRef(
    elevatorPitch: string,
    keyTraits: seq<string>,
    storyHook: Option<string>,
    swadeNotes: string,
    roleplayNotes: string)

  /** A generated species. The fallback species carries no roll entries. */
  datatype Species = Species(
    name: string,
    archetype: string, culture: string, status: string,
    biologicalData: Option<Entry>, culturalData: Option<Entry>, statusData: Option<Entry>,
    physicalTraits: seq<string>,
    culturalTraits: CulturalTraits,
    narrativeHook: Hook,
    swadeTraits: Mechanics,
    quickRef: QuickRef)

  /** The Math.random() results one generation consumes, call by call: the
      three core rolls, the name (one draw for the numbered fallback, two for
      prefix and suffix), the trait count, one draw per trait pick, and the
      hook category and pick. */
  datatype Draws = Draws(
    biology: Unit, culture: Unit, status: Unit,
    namePrefix: Unit, nameSuffix: Unit,
    traitCount: Unit, traitPicks: seq<Unit>,
    hookCategory: Unit, hookPick: Unit)

  /** Enough trait draws for the largest trait count. */
  predicate EnoughDraws(d: Draws) {
    |d.traitPicks| >= 4
  }

  const TypeError: string := "TypeError"

  // ---------------------------------------------------------------- phase 2: core profile

  /** A core profile from the three roll results; reading `.key` of an
      undefined result throws. */
  function CoreProfileOf(b: Option<Entry>, c: Option<Entry>, s: Option<Entry>): Outcome<CoreProfile> {
    if b.None? || c.None? || s.None? then Thrown(TypeError)
    else Ok(CoreProfile(b.value.key, b.value, c.value.key, c.value, s.value.key, s.value))
  }

  /** What `generateCoreProfile(context)` yields: one roll per dimension, each
      with its own weight map. */
  function CoreProfileSpec(tables: map<string, Table>, weights: WeightMaps, d: Draws): Outcome<CoreProfile> {
    CoreProfileOf(
      RollSpec(tables, "biology", weights.biology, d.biology),
      RollSpec(tables, "culture", weights.culture, d.culture),
      RollSpec(tables, "status", weights.status, d.status))
  }

  /** The profile keys are the roll keys and the full entries are kept; it
      throws exactly when one of the rolls came back undefined, which only an
      empty entries list causes. */
  lemma CoreProfileKeepsRolls(tables: map<string, Table>, weights: WeightMaps, d: Draws)
    ensures var b := RollSpec(tables, "biology", weights.biology, d.biology);
      var c := RollSpec(tables, "culture", weights.culture, d.culture);
      var s := RollSpec(tables, "status", weights.status, d.status);
      && (CoreProfileSpec(tables, weights, d).Ok? <==> b.Some? && c.Some? && s.Some?)
      && (CoreProfileSpec(tables, weights, d).Ok? ==>
            var p := CoreProfileSpec(tables, weights, d).value;
            p.archetype == b.value.key && p.biologicalData == b.value &&
            p.culture == c.value.key && p.culturalData == c.value &&
            p.status == s.value.key && p.statusData == s.value)
    ensures CoreProfileSpec(tables, weights, d).Thrown? ==>
      exists n :: n in ["biology", "culture", "status"] && n in tables &&
        tables[n].entries == Some([])
  {
    var b := RollSpec(tables, "biology", weights.biology, d.biology);
    var c := RollSpec(tables, "culture", weights.culture, d.culture);
    var s := RollSpec(tables, "status", weights.status, d.status);
    RollWithoutEntries(tables, "biology", weights.biology, d.biology);
    RollWithoutEntries(tables, "culture", weights.culture, d.culture);
    RollWithoutEntries(tables, "status", weights.status, d.status);
    if b.None? {
      assert "biology" in ["biology", "culture", "status"];
    } else if c.None? {
      assert "culture" in ["biology", "culture", "status"];
    } else if s.None? {
      assert "status" in ["biology", "culture", "status"];
    }
  }

  // ---------------------------------------------------------------- phase 3: details

  /** `prefix + suffix` drawn from a naming pattern. */
  function NameFrom(p: Pattern, u1: Unit, u2: Unit): string {
    Plus(PickFrom(p.prefixes, u1), PickFrom(p.suffixes, u2))
  }

  /** What `generateSpeciesName(profile)` yields given the naming table: the
      archetype and a number below 1000 when there is no table or no
      `patterns`; otherwise a name from the archetype's pattern, or from the
      default pattern; with neither, reading `prefixes` of undefined throws. */
  function NameSpec(naming: Option<Table>, archetype: string, u1: Unit, u2: Unit): Outcome<string> {
    if naming.None? || naming.value.patterns.None? then
      Ok(archetype + NatToString(PickIndex(u1, 1000)))
    else
      var patterns := naming.value.patterns.value;
      if archetype in patterns then Ok(NameFrom(patterns[archetype], u1, u2))
      else if "default" in patterns then Ok(NameFrom(patterns["default"], u1, u2))
      else Thrown(TypeError)
  }

  /** Without a naming pattern the name is the archetype followed by the
      decimal digits of a number in 0..999; with one, it is a listed prefix
      followed by a listed suffix when both lists are non-empty. */
  lemma NameShape(naming: Option<Table>, archetype: string, u1: Unit, u2: Unit)
    ensures naming.None? || naming.value.patterns.None? ==>
      var name := NameSpec(naming, archetype, u1, u2);
      && name.Ok? && StartsWith(name.value, archetype)
      && var digits := name.value[|archetype|..];
         |digits| >= 1 && (forall i :: 0 <= i < |digits| ==> '0' <= digits[i] <= '9') &&
         DecimalValue(digits) < 1000
    ensures naming.Some? && naming.value.patterns.Some? ==>
      var patterns := naming.value.patterns.value;
      var k := if archetype in patterns then archetype else "default";
      (NameSpec(naming, archetype, u1, u2).Thrown? <==> k !in patterns) &&
      (k in patterns && patterns[k].prefixes != [] && patterns[k].suffixes != [] ==>
        exists p, s :: p in patterns[k].prefixes && s in patterns[k].suffixes &&
          NameSpec(naming, archetype, u1, u2) == Ok(p + s))
  {
    if naming.None? || naming.value.patterns.None? {
      var n := PickIndex(u1, 1000);
      var name := archetype + NatToString(n);
      assert name[|archetype|..] == NatToString(n);
      DecimalRoundTrip(n);
    } else {
      var patterns := naming.value.patterns.value;
      var k := if archetype in patterns then archetype else "default";
      if k in patterns && patterns[k].prefixes != [] && patterns[k].suffixes != [] {
        var p := PickFrom(patterns[k].prefixes, u1).value;
        var s := PickFrom(patterns[k].suffixes, u2).value;
        assert NameSpec(naming, archetype, u1, u2) == Ok(p + s);
      }
    }
  }

  /** `Standard ${archetype} appearance`, the single trait used when there is
      no list to draw from. */
  function Placeholder(archetype: string): string {
    "Standard " + archetype + " appearance"
  }

  /** `2 + Math.floor(Math.random() * 3)` */
  function NumTraits(u: Unit): (n: nat)
    ensures 2 <= n <= 4
  {
    2 + PickIndex(u, 3)
  }

  /** The trait-picking loop from iteration `i` on: it runs while fewer than
      `numTraits` iterations have run and not every listed trait is already
      chosen, and keeps a pick only if it is new. */
  function SelectTraits(list: seq<string>, numTraits: nat, picks: seq<Unit>, i: nat, selected: seq<string>): seq<string>
    requires numTraits <= |picks|
    decreases numTraits - i
  {
    if i < numTraits && |selected| < |list| then
      var t := list[PickIndex(picks[i], |list|)];
      SelectTraits(list, numTraits, picks, i + 1, if t in selected then selected else selected + [t])
    else selected
  }

  predicate NoDuplicates(xs: seq<string>) {
    forall i, j :: 0 <= i < j < |xs| ==> xs[i] != xs[j]
  }

  /** Picking keeps the selection free of duplicates and within the list, and
      adds at most one trait per remaining iteration. */
  lemma {:induction false} SelectTraitsSound(list: seq<string>, numTraits: nat, picks: seq<Unit>, i: nat, selected: seq<string>)
    requires numTraits <= |picks|
    requires NoDuplicates(selected) && (forall t :: t in selected ==> t in list)
    ensures var r := SelectTraits(list, numTraits, picks, i, selected);
      && selected <= r
      && NoDuplicates(r) && (forall t :: t in r ==> t in list)
      && |r| <= |selected| + (if i < numTraits then numTraits - i else 0)
    decreases numTraits - i
  {
    if i < numTraits && |selected| < |list| {
      var t := list[PickIndex(picks[i], |list|)];
      var next := if t in selected then selected else selected + [t];
      assert forall x :: x in next ==> x in list;
      SelectTraitsSound(list, numTraits, picks, i + 1, next);
    }
  }

  /** A duplicate-free list drawn from `list` is no longer than `list`. */
  lemma {:induction false} DistinctSubsetBound(xs: seq<string>, list: seq<string>)
    requires NoDuplicates(xs) && (forall t :: t in xs ==> t in list)
    ensures |xs| <= |list|
  {
    var xset := set t | t in xs;
    var lset := set t | t in list;
    assert xset <= lset;
    DistinctCardinality(xs);
    SetOfSeqBound(list);
    SubsetCardinality(xset, lset);
  }

  lemma {:induction false} SubsetCardinality(a: set<string>, b: set<string>)
    requires a <= b
    ensures |a| <= |b|
    decreases a
  {
    if a != {} {
      var x :| x in a;
      SubsetCardinality(a - {x}, b - {x});
    }
  }

  lemma {:induction false} DistinctCardinality(xs: seq<string>)
    requires NoDuplicates(xs)
    ensures |set t | t in xs| == |xs|
  {
    if xs != [] {
      var last := xs[|xs| - 1];
      var init := xs[..|xs| - 1];
      assert NoDuplicates(init);
      DistinctCardinality(init);
      assert (set t | t in xs) == (set t | t in init) + {last};
      assert last !in init;
    }
  }

  lemma {:induction false} SetOfSeqBound(xs: seq<string>)
    ensures |set t | t in xs| <= |xs|
  {
    if xs != [] {
      var init := xs[..|xs| - 1];
      SetOfSeqBound(init);
      assert (set t | t in xs) == (set t | t in init) + {xs[|xs| - 1]};
    }
  }

  /** What `generatePhysicalTraits(coreProfile)` yields given the traits table. */
  function PhysicalTraitsSpec(traits: Option<Table>, archetype: string, count: Unit, picks: seq<Unit>): seq<string>
    requires |picks| >= 4
  {
    if traits.None? || archetype !in traits.value.lists then [Placeholder(archetype)]
    else SelectTraits(traits.value.lists[archetype], NumTraits(count), picks, 0, [])
  }

  /** Without a table or a list for the archetype the result is the single
      placeholder; otherwise the traits are distinct members of the list, at
      most the drawn trait count (2..4) and at most the list's length, and
      at least one when the list is not empty. */
  lemma PhysicalTraitsShape(traits: Option<Table>, archetype: string, count: Unit, picks: seq<Unit>)
    requires |picks| >= 4
    ensures traits.None? || archetype !in traits.value.lists ==>
      PhysicalTraitsSpec(traits, archetype, count, picks) == ["Standard " + archetype + " appearance"]
    ensures traits.Some? && archetype in traits.value.lists ==>
      var list := traits.value.lists[archetype];
      var r := PhysicalTraitsSpec(traits, archetype, count, picks);
      NoDuplicates(r) && (forall t :: t in r ==> t in list) &&
      |r| <= NumTraits(count) && |r| <= |list| &&
      (list != [] ==> |r| >= 1)
  {
    if traits.Some? && archetype in traits.value.lists {
      var list := traits.value.lists[archetype];
      SelectTraitsSound(list, NumTraits(count), picks, 0, []);
      DistinctSubsetBound(PhysicalTraitsSpec(traits, archetype, count, picks), list);
      if list != [] {
        FirstPickKept(list, NumTraits(count), picks);
      }
    }
  }

  /** The first iteration always keeps its pick, since nothing is selected
      yet, so a non-empty list yields at least one trait. */
  lemma FirstPickKept(list: seq<string>, numTraits: nat, picks: seq<Unit>)
    requires numTraits <= |picks| && 1 <= numTraits && list != []
    ensures |SelectTraits(list, numTraits, picks, 0, [])| >= 1
  {
    var t := list[PickIndex(picks[0], |list|)];
    assert t !in [] && [] + [t] == [t];
    assert SelectTraits(list, numTraits, picks, 0, []) == SelectTraits(list, numTraits, picks, 1, [t]);
    assert NoDuplicates([t]);
    SelectTraitsSound(list, numTraits, picks, 1, [t]);
  }

  /** The trait-picking loop of `generatePhysicalTraits`. */
  method PickTraits(traitList: seq<string>, numTraits: nat, picks: seq<Unit>) returns (selectedTraits: seq<string>)
    requires numTraits <= |picks|
    ensures selectedTraits == SelectTraits(traitList, numTraits, picks, 0, [])
    ensures NoDuplicates(selectedTraits) && (forall t :: t in selectedTraits ==> t in traitList)
    ensures |selectedTraits| <= numTraits
  {
    selectedTraits := [];
    var i := 0;
    while i < numTraits && |selectedTraits| < |traitList|
      invariant 0 <= i <= numTraits
      invariant SelectTraits(traitList, numTraits, picks, i, selectedTraits) == SelectTraits(traitList, numTraits, picks, 0, [])
      decreases numTraits - i
    {
      var randomTrait := traitList[PickIndex(picks[i], |traitList|)];
      if randomTrait !in selectedTraits {
        selectedTraits := selectedTraits + [randomTrait];
      }
      i := i + 1;
    }
    SelectTraitsSound(traitList, numTraits, picks, 0, []);
  }

  /** What `generateCulturalTraitsBasic(coreProfile)` returns for the culture
      roll's entry. An array field, even an empty one, is kept; a string field
      is kept unless it is missing or empty. */
  function CulturalTraitsBasic(cultureData: Option<Entry>): CulturalTraits {
    if cultureData.None? then CulturalTraits(None, None, "Unknown cultural patterns", None)
    else
      var e := cultureData.value;
      CulturalTraits(
        Some(if e.values.Some? then e.values.value else ["Unknown values"]),
        Some(OrElse(e.structure, "Unknown structure")),
        OrElse(e.interactionStyle, "Unknown interaction style"),
        Some(if e.commonRoles.Some? then e.commonRoles.value else ["Unknown roles"]))
  }

  /** With culture data all four fields are present, each the entry's own
      value or its named default; without, only the interaction style is. */
  lemma CulturalTraitsFields(cultureData: Option<Entry>)
    ensures var c := CulturalTraitsBasic(cultureData);
      (c.values.Some? && c.structure.Some? && c.commonRoles.Some?) <==> cultureData.Some?
    ensures cultureData.None? ==> CulturalTraitsBasic(cultureData).interactionStyle == "Unknown cultural patterns"
    ensures cultureData.Some? ==>
      var e := cultureData.value;
      var c := CulturalTraitsBasic(cultureData);
      && (e.values.Some? ==> c.values == e.values) && (e.values.None? ==> c.values == Some(["Unknown values"]))
      && (Truthy(e.structure) ==> c.structure == e.structure) && (!Truthy(e.structure) ==> c.structure == Some("Unknown structure"))
      && (Truthy(e.interactionStyle) ==> c.interactionStyle == e.interactionStyle.value)
      && (!Truthy(e.interactionStyle) ==> c.interactionStyle == "Unknown interaction style")
      && (e.commonRoles.Some? ==> c.commonRoles == e.commonRoles) && (e.commonRoles.None? ==> c.commonRoles == Some(["Unknown roles"]))
  {
  }

  /** The hook category of `generateNarrativeHookBasic`: a coin flip
      (`Math.random() > 0.5`) between two categories for enemy, ally and
      mysterious, political for any other role. */
  function HookCategory(role: string, u: Unit): string {
    if role == Enemy then (if u > 0.5 then Political else Resource)
    else if role == Ally then (if u > 0.5 then Personal else Resource)
    else if role == Mysterious then (if u > 0.5 then MysteriousHooks else Temporal)
    else Political
  }

  lemma HookCategoryChoices(role: string, u: Unit)
    ensures role == Enemy ==> HookCategory(role, u) in [Political, Resource]
    ensures role == Ally ==> HookCategory(role, u) in [Personal, Resource]
    ensures role == Mysterious ==> HookCategory(role, u) in [MysteriousHooks, Temporal]
    ensures role != Enemy && role != Ally && role != Mysterious ==> HookCategory(role, u) == Political
    ensures role in [Enemy, Ally, Mysterious] ==> (HookCategory(role, u) == Resource || HookCategory(role, u) == Temporal <==> u <= 0.5)
    ensures HookCategory(role, u) in HookCategories
  {
  }

  /** `hooksTable[category] || hooksTable.political || ['Unknown motivations']`;
      an empty list is truthy and is kept. */
  function HookList(hooks: Table, category: string): seq<string> {
    if category in hooks.lists then hooks.lists[category]
    else if Political in hooks.lists then hooks.lists[Political]
    else ["Unknown motivations"]
  }

  /** What `generateNarrativeHookBasic(coreProfile, context)` returns given the hooks table. */
  function NarrativeHookSpec(hooks: Option<Table>, role: string, uCategory: Unit, uPick: Unit): Hook {
    if hooks.None? then
      Hook(Some("Mysterious origins"), Some("This species has unknown origins and unclear motivations."), None)
    else
      var category := HookCategory(role, uCategory);
      var selectedHook := PickFrom(HookList(hooks.value, category), uPick);
      Hook(selectedHook, selectedHook, Some(category))
  }

  /** With a hooks table the summary equals the detailed text, the category is
      recorded, and the hook comes from the category's list, else the
      political list, else the single 'Unknown motivations'. */
  lemma NarrativeHookShape(hooks: Option<Table>, role: string, uCategory: Unit, uPick: Unit)
    ensures hooks.Some? ==>
      var h := NarrativeHookSpec(hooks, role, uCategory, uPick);
      var category := HookCategory(role, uCategory);
      && h.summary == h.detailed && h.category == Some(category)
      && (category in hooks.value.lists ==>
            (h.summary.Some? <==> hooks.value.lists[category] != []) &&
            (h.summary.Some? ==> h.summary.value in hooks.value.lists[category]))
      && (category !in hooks.value.lists && Political in hooks.value.lists ==>
            (h.summary.Some? <==> hooks.value.lists[Political] != []) &&
            (h.summary.Some? ==> h.summary.value in hooks.value.lists[Political]))
      && (category !in hooks.value.lists && Political !in hooks.value.lists ==>
            h.summary == Some("Unknown motivations"))
    ensures hooks.None? ==> NarrativeHookSpec(hooks, role, uCategory, uPick).category.None?
  {
  }

  // The texts of the basic mechanical bundle.
  const BasicAdaptable: string := "Adaptable (+2 to one attribute during creation)"
  const BasicFlight: string := "Flight (12\" flying pace)"
  const StandardRacialTraits: string := "Standard racial traits"

  /** What `generateSWADETraitsBasic(coreProfile)` returns: one switch on the
      archetype, then the abilities joined with ', '. */
  function BasicMechanics(archetype: string): Mechanics {
    var abilities :=
      if archetype == Humanoid then [BasicAdaptable]
      else if archetype == Avian then [BasicFlight]
      else if archetype == Reptilian then [NaturalArmor, InfraredVision]
      else [StandardRacialTraits];
    var hindrances := if archetype == Reptilian then [ColdBlooded] else [];
    var attributes :=
      if archetype == Avian then [("agility", "+1")]
      else if archetype == Reptilian then [("vigor", "+1")]
      else [];
    Mechanics(abilities, hindrances, attributes, [], [], Join(abilities, ", "))
  }

  /** Every archetype, listed or not, gets at least one racial ability, so the
      summary, the abilities joined with ', ', is never empty. */
  lemma BasicSummaryNonEmpty(archetype: string)
    ensures BasicMechanics(archetype).racialAbilities != []
    ensures BasicMechanics(archetype).mechanicalSummary == Join(BasicMechanics(archetype).racialAbilities, ", ")
    ensures BasicMechanics(archetype).mechanicalSummary != ""
  {
    var m := BasicMechanics(archetype);
    JoinEmptyIff(m.racialAbilities, ", ");
    assert m.racialAbilities != [""] by {
      if |m.racialAbilities| == 1 {
        assert m.racialAbilities[0] != "";
      }
    }
  }

  /** `generateSWADETraitsBasic(coreProfile)`, pushing onto a fresh trait object. */
  method GenerateSwadeTraitsBasic(archetype: string) returns (traits: SwadeTraits)
    ensures fresh(traits)
    ensures traits.Value() == BasicMechanics(archetype)
  {
    traits := new SwadeTraits();
    if archetype == Humanoid {
      traits.racialAbilities := traits.racialAbilities + [BasicAdaptable];
    } else if archetype == Avian {
      traits.racialAbilities := traits.racialAbilities + [BasicFlight];
      traits.attributes := SetAttribute(traits.attributes, "agility", "+1");
    } else if archetype == Reptilian {
      traits.racialAbilities := traits.racialAbilities + [NaturalArmor];
      traits.racialAbilities := traits.racialAbilities + [InfraredVision];
      traits.hindrances := traits.hindrances + [ColdBlooded];
      traits.attributes := SetAttribute(traits.attributes, "vigor", "+1");
    } else {
      traits.racialAbilities := traits.racialAbilities + [StandardRacialTraits];
    }
    traits.mechanicalSummary := Join(traits.racialAbilities, ", ");
  }

  /** `generateQuickReference(species)` */
  function QuickReference(archetype: string, culture: string, status: string, statusData: Option<Entry>,
                          physicalTraits: seq<string>, hook: Hook, mechanics: Mechanics, cultural: CulturalTraits): QuickRef
  {
    var statusName := if statusData.Some? then statusData.value.name else None;
    QuickRef(
      archetype + " " + culture + " from " + OrElse(statusName, status),
      Take(physicalTraits, 3),
      hook.summary,
      mechanics.mechanicalSummary,
      cultural.interactionStyle)
  }

  /** The pitch names archetype, culture and the status's display name (or
      its key), the key traits are the first three physical traits, and the
      other fields repeat the hook summary, the mechanical summary and the
      interaction style. */
  lemma QuickReferenceShape(archetype: string, culture: string, status: string, statusData: Option<Entry>,
                            physicalTraits: seq<string>, hook: Hook, mechanics: Mechanics, cultural: CulturalTraits)
    ensures var q := QuickReference(archetype, culture, status, statusData, physicalTraits, hook, mechanics, cultural);
      && StartsWith(q.elevatorPitch, archetype + " " + culture + " from ")
      && (statusData.Some? && Truthy(statusData.value.name) ==>
            q.elevatorPitch == archetype + " " + culture + " from " + statusData.value.name.value)
      && (statusData.None? || !Truthy(statusData.value.name) ==>
            q.elevatorPitch == archetype + " " + culture + " from " + status)
      && q.keyTraits <= physicalTraits && |q.keyTraits| == (if |physicalTraits| < 3 then |physicalTraits| else 3)
      && q.storyHook == hook.summary && q.swadeNotes == mechanics.mechanicalSummary
      && q.roleplayNotes == cultural.interactionStyle
  {
    var q := QuickReference(archetype, culture, status, statusData, physicalTraits, hook, mechanics, cultural);
    var prefix := archetype + " " + culture + " from ";
    var statusName := if statusData.Some? then statusData.value.name else None;
    assert q.elevatorPitch == prefix + OrElse(statusName, status);
    assert q.elevatorPitch[..|prefix|] == prefix;
  }

  // The texts of the fallback species.
  const VoidbornTraits: seq<string> := ["Pale skin adapted to low light", "Large eyes for void navigation", "Silent movement"]
  const VoidbornStyle: string := "Speak softly, avoid crowds, obsessed with star charts"
  const VoidbornHook: string := "They know something about the void between stars"
  const VoidbornDetail: string :=
    "The Voidborn possess knowledge of navigation routes and phenomena that exist in the empty spaces between star systems."
  const VoidbornSummary: string := "Low Light Vision, Space Adaptation, Outsider hindrance"
  const VoidbornPitch: string := "Space-adapted humans with mysterious origins"

  /** `getFallbackSpecies()`. Its mechanics have no attribute, skill or edge
      fields; they are empty lists here. */
  const FallbackSpecies: Species := Species(
    "Voidborn", Humanoid, Nomadic, Independent, None, None, None,
    VoidbornTraits,
    CulturalTraits(Some(["Freedom", "Knowledge", "Survival"]), None, VoidbornStyle, None),
    Hook(Some(VoidbornHook), Some(VoidbornDetail), None),
    Mechanics(["Low Light Vision", "Space Adaptation"], ["Outsider (Strange mannerisms)"], [], [], [], VoidbornSummary),
    QuickRef(VoidbornPitch, ["Pale skin", "Large eyes", "Silent movement"], Some(VoidbornHook), VoidbornSummary, VoidbornStyle))

  /** The fallback is a humanoid nomadic independent species whose quick
      reference repeats its own hook, mechanical summary and interaction
      style, though its pitch and key traits are written out separately. */
  lemma FallbackSpeciesShape()
    ensures var f := FallbackSpecies;
      && f.name == "Voidborn" && f.archetype == Humanoid && f.culture == Nomadic && f.status == Independent
      && f.quickRef.storyHook == f.narrativeHook.summary
      && f.quickRef.swadeNotes == f.swadeTraits.mechanicalSummary
      && f.quickRef.roleplayNotes == f.culturalTraits.interactionStyle
      && f.swadeTraits.mechanicalSummary != "" && |f.physicalTraits| == 3
      && f.quickRef.keyTraits != Take(f.physicalTraits, 3)
  {
    assert FallbackSpecies.quickRef.keyTraits[0] != FallbackSpecies.physicalTraits[0];
  }

  /** What `synthesizeDetails(coreProfile, context)` yields given the tables;
      only naming can throw. */
  function SynthesizeSpec(tables: map<string, Table>, core: CoreProfile, role: string, d: Draws): Outcome<Species>
    requires EnoughDraws(d)
  {
    var name := NameSpec(Lookup(tables, "naming"), core.archetype, d.namePrefix, d.nameSuffix);
    if name.Thrown? then Thrown(name.error)
    else
      var physicalTraits := PhysicalTraitsSpec(Lookup(tables, "traits"), core.archetype, d.traitCount, d.traitPicks);
      var culturalTraits := CulturalTraitsBasic(Some(core.culturalData));
      var hook := NarrativeHookSpec(Lookup(tables, "hooks"), role, d.hookCategory, d.hookPick);
      var mechanics := BasicMechanics(core.archetype);
      Ok(Species(name.value, core.archetype, core.culture, core.status,
        Some(core.biologicalData), Some(core.culturalData), Some(core.statusData),
        physicalTraits, culturalTraits, hook, mechanics,
        QuickReference(core.archetype, core.culture, core.status, Some(core.statusData),
          physicalTraits, hook, mechanics, culturalTraits)))
  }

  /** What `generateSpecies(seed)` returns once the tables are loaded: the
      synthesized species, or the fallback species if a phase threw. */
  function GenerateSpeciesSpec(tables: map<string, Table>, seed: Seed, activeScene: Option<Scene>, d: Draws): Species
    requires EnoughDraws(d)
  {
    var role := OrElse(seed.role, Neutral);
    var core := CoreProfileSpec(tables, AnalyzeWeights(seed.role, activeScene), d);
    if core.Thrown? then FallbackSpecies
    else
      var species := SynthesizeSpec(tables, core.value, role, d);
      if species.Thrown? then FallbackSpecies else species.value
  }

  /** A phase that throws yields exactly the fallback; a species that is not
      the fallback carries its three roll entries and a quick reference
      consistent with its own fields. */
  lemma GenerationFallsBack(tables: map<string, Table>, seed: Seed, activeScene: Option<Scene>, d: Draws)
    requires EnoughDraws(d)
    ensures var core := CoreProfileSpec(tables, AnalyzeWeights(seed.role, activeScene), d);
      core.Thrown? ==> GenerateSpeciesSpec(tables, seed, activeScene, d) == FallbackSpecies
    ensures var core := CoreProfileSpec(tables, AnalyzeWeights(seed.role, activeScene), d);
      core.Ok? && SynthesizeSpec(tables, core.value, OrElse(seed.role, Neutral), d).Thrown? ==>
        GenerateSpeciesSpec(tables, seed, activeScene, d) == FallbackSpecies
    ensures var s := GenerateSpeciesSpec(tables, seed, activeScene, d);
      s.biologicalData.Some? ==>
        && s.archetype == s.biologicalData.value.key
        && s.culturalData.Some? && s.culture == s.culturalData.value.key
        && s.statusData.Some? && s.status == s.statusData.value.key
        && s.quickRef.storyHook == s.narrativeHook.summary
        && s.quickRef.swadeNotes == s.swadeTraits.mechanicalSummary
        && s.quickRef.keyTraits <= s.physicalTraits
  {
    var weights := AnalyzeWeights(seed.role, activeScene);
    var core := CoreProfileSpec(tables, weights, d);
    if core.Ok? {
      CoreProfileKeepsRolls(tables, weights, d);
      var species := SynthesizeSpec(tables, core.value, OrElse(seed.role, Neutral), d);
      if species.Ok? {
        SynthesizedConsistent(tables, core.value, OrElse(seed.role, Neutral), d);
      }
    }
  }

  /** A synthesized species keeps the three roll entries beside their keys,
      and its quick reference quotes its own hook, summary and traits. */
  lemma SynthesizedConsistent(tables: map<string, Table>, core: CoreProfile, role: string, d: Draws)
    requires EnoughDraws(d)
    requires core.archetype == core.biologicalData.key && core.culture == core.culturalData.key
    requires core.status == core.statusData.key
    requires SynthesizeSpec(tables, core, role, d).Ok?
    ensures var s := SynthesizeSpec(tables, core, role, d).value;
      && s.biologicalData == Some(core.biologicalData) && s.archetype == s.biologicalData.value.key
      && s.culturalData.Some? && s.culture == s.culturalData.value.key
      && s.statusData.Some? && s.status == s.statusData.value.key
      && s.quickRef.storyHook == s.narrativeHook.summary
      && s.quickRef.swadeNotes == s.swadeTraits.mechanicalSummary
      && s.quickRef.keyTraits <= s.physicalTraits
  {
    var s := SynthesizeSpec(tables, core, role, d).value;
    QuickReferenceShape(s.archetype, s.culture, s.status, s.statusData, s.physicalTraits,
      s.narrativeHook, s.swadeTraits, s.culturalTraits);
  }

  /** Every species `generateSpecies` returns, generated or fallback, has a
      non-empty mechanical summary. */
  lemma GeneratedSummaryNonEmpty(tables: map<string, Table>, seed: Seed, activeScene: Option<Scene>, d: Draws)
    requires EnoughDraws(d)
    ensures GenerateSpeciesSpec(tables, seed, activeScene, d).swadeTraits.mechanicalSummary != ""
  {
    var core := CoreProfileSpec(tables, AnalyzeWeights(seed.role, activeScene), d);
    if core.Ok? {
      BasicSummaryNonEmpty(core.value.archetype);
    }
  }

  /** None of the six table files loaded. */
  predicate AllLoadsFailed(outcomes: map<string, Table>) {
    forall f :: f in TableFiles ==> f !in outcomes
  }

  /** A file that failed to load leaves its fallback under its name. */
  lemma FallbackStoreAt(outcomes: map<string, Table>, i: nat)
    requires i < 6 && TableFiles[i] !in outcomes
    ensures TableNames[i] in LoadAll(TableFiles, outcomes)
    ensures LoadAll(TableFiles, outcomes)[TableNames[i]] == CreateFallbackTable(TableFiles[i])
  {
    LoadedTablesComplete(outcomes);
  }

  /** A roll on the biology, culture or status fallback always yields its
      single entry, whatever the weights and the draw. */
  lemma FallbackRoll(outcomes: map<string, Table>, i: nat, weights: map<string, real>, u: Unit)
    requires i < 3 && TableFiles[i] !in outcomes
    ensures var r := RollSpec(LoadAll(TableFiles, outcomes), TableNames[i], weights, u);
      r.Some? && r.value.key == [Humanoid, Nomadic, Independent][i]
  {
    var tables := LoadAll(TableFiles, outcomes);
    FallbackStoreAt(outcomes, i);
    if i == 0 {
      BiologyStem();
      SingleUnitRoll(tables, "biology", weights, u, Humanoid);
    } else if i == 1 {
      CultureStem();
      SingleUnitRoll(tables, "culture", weights, u, Nomadic);
    } else {
      StatusStem();
      SingleUnitRoll(tables, "status", weights, u, Independent);
    }
  }

  /** When the biology, culture and status files fail, the core profile is
      humanoid, nomadic and independent. */
  lemma FallbackCoreProfile(outcomes: map<string, Table>, weights: WeightMaps, d: Draws)
    requires AllLoadsFailed(outcomes)
    ensures var core := CoreProfileSpec(LoadAll(TableFiles, outcomes), weights, d);
      core.Ok? && core.value.archetype == Humanoid &&
      core.value.culture == Nomadic && core.value.status == Independent
  {
    assert TableFiles[0] in TableFiles && TableFiles[1] in TableFiles && TableFiles[2] in TableFiles;
    FallbackRoll(outcomes, 0, weights.biology, d.biology);
    FallbackRoll(outcomes, 1, weights.culture, d.culture);
    FallbackRoll(outcomes, 2, weights.status, d.status);
    CoreProfileKeepsRolls(LoadAll(TableFiles, outcomes), weights, d);
  }

  /** The fallback naming table has only a default pattern, whose prefixes
      and suffixes are all non-empty, so a humanoid gets a non-empty name. */
  lemma FallbackName(outcomes: map<string, Table>, u1: Unit, u2: Unit)
    requires "naming.json" !in outcomes
    ensures var name := NameSpec(Lookup(LoadAll(TableFiles, outcomes), "naming"), Humanoid, u1, u2);
      name.Ok? && name.value != ""
  {
    FallbackStoreAt(outcomes, 5);
    NamingStem();
    var pattern := Pattern(["Gen", "Neo", "Zet"], ["ari", "ons", "ids"]);
    assert Lookup(LoadAll(TableFiles, outcomes), "naming") == Some(Table(None, None, map[], Some(map["default" := pattern])));
    var prefix := PickFrom(pattern.prefixes, u1);
    assert |prefix.value| == 3;
  }

  /** The fallback traits table lists two traits for a humanoid. */
  lemma FallbackTraits(outcomes: map<string, Table>, count: Unit, picks: seq<Unit>)
    requires |picks| >= 4 && "traits.json" !in outcomes
    ensures |PhysicalTraitsSpec(Lookup(LoadAll(TableFiles, outcomes), "traits"), Humanoid, count, picks)| >= 1
  {
    FallbackStoreAt(outcomes, 3);
    TraitsStem();
    var traits := Lookup(LoadAll(TableFiles, outcomes), "traits");
    assert traits.value.lists[Humanoid] == ["Standard appearance", "Typical proportions"];
    PhysicalTraitsShape(traits, Humanoid, count, picks);
  }

  /** When every one of the six table files fails to load, generation still
      succeeds on the fallback tables: it yields a generated humanoid nomadic
      independent species (not the fixed Voidborn entity) with a non-empty
      name, at least one physical trait and a non-empty mechanical summary. */
  lemma FallbackAvailability(outcomes: map<string, Table>, activeScene: Option<Scene>, d: Draws)
    requires AllLoadsFailed(outcomes) && EnoughDraws(d)
    ensures var s := GenerateSpeciesSpec(LoadAll(TableFiles, outcomes), EmptySeed, activeScene, d);
      && s.biologicalData.Some?
      && s.archetype == Humanoid && s.culture == Nomadic && s.status == Independent
      && s.name != "" && |s.physicalTraits| >= 1 && s.swadeTraits.mechanicalSummary != ""
  {
    var tables := LoadAll(TableFiles, outcomes);
    var weights := AnalyzeWeights(EmptySeed.role, activeScene);
    assert TableFiles[3] in TableFiles && TableFiles[5] in TableFiles;
    FallbackCoreProfile(outcomes, weights, d);
    FallbackName(outcomes, d.namePrefix, d.nameSuffix);
    FallbackTraits(outcomes, d.traitCount, d.traitPicks);
    GeneratedSummaryNonEmpty(tables, EmptySeed, activeScene, d);
  }

  /** The case where nothing at all was fetched. */
  lemma NothingFetched(activeScene: Option<Scene>, d: Draws)
    requires EnoughDraws(d)
    ensures var s := GenerateSpeciesSpec(LoadAll(TableFiles, map[]), EmptySeed, activeScene, d);
      s.name != "" && |s.physicalTraits| >= 1 && s.swadeTraits.mechanicalSummary != ""
  {
    FallbackAvailability(map[], activeScene, d);
  }

  // ---------------------------------------------------------------- the generator

  class SpeciesGenerator {
    const rollTableManager: RollTableManager
    var isInitialized: bool

    ghost predicate Valid()
      reads this, rollTableManager
    {
      rollTableManager.Valid() && (isInitialized ==> rollTableManager.loadStarted)
    }

    constructor ()
      ensures Valid() && !isInitialized && fresh(rollTableManager)
      ensures rollTableManager.tables == map[] && !rollTableManager.loadStarted
    {
      rollTableManager := new RollTableManager();
      isInitialized := false;
    }

    /** `initialize()`: load the tables once; later calls do nothing. */
    method Initialize(outcomes: map<string, Table>)
      requires Valid()
      modifies this`isInitialized, rollTableManager
      ensures Valid() && isInitialized && rollTableManager.loadStarted
      ensures old(rollTableManager.loadStarted) ==> rollTableManager.tables == old(rollTableManager.tables)
      ensures !old(rollTableManager.loadStarted) ==> rollTableManager.tables == LoadAll(TableFiles, outcomes)
    {
      if isInitialized {
        return;
      }
      rollTableManager.LoadTables(outcomes);
      isInitialized := true;
    }

    /** `generateCoreProfile(context)`: three weighted rolls. */
    method GenerateCoreProfile(weights: WeightMaps, d: Draws) returns (r: Outcome<CoreProfile>)
      ensures r == CoreProfileSpec(rollTableManager.tables, weights, d)
    {
      var biologyResult := rollTableManager.RollWeighted("biology", weights.biology, d.biology);
      if biologyResult.None? {
        return Thrown(TypeError);
      }
      var cultureResult := rollTableManager.RollWeighted("culture", weights.culture, d.culture);
      if cultureResult.None? {
        return Thrown(TypeError);
      }
      var statusResult := rollTableManager.RollWeighted("status", weights.status, d.status);
      if statusResult.None? {
        return Thrown(TypeError);
      }
      r := Ok(CoreProfile(biologyResult.value.key, biologyResult.value, cultureResult.value.key,
        cultureResult.value, statusResult.value.key, statusResult.value));
    }

    /** `generatePhysicalTraits(coreProfile)` */
    method GeneratePhysicalTraits(archetype: string, count: Unit, picks: seq<Unit>, outcomes: map<string, Table>)
      returns (traits: seq<string>)
      requires Valid() && |picks| >= 4
      modifies rollTableManager
      ensures Valid() && rollTableManager.loadStarted
      ensures old(rollTableManager.loadStarted) ==> rollTableManager.tables == old(rollTableManager.tables)
      ensures !old(rollTableManager.loadStarted) ==> rollTableManager.tables == LoadAll(TableFiles, outcomes)
      ensures traits == PhysicalTraitsSpec(Lookup(rollTableManager.tables, "traits"), archetype, count, picks)
    {
      var traitsTable := rollTableManager.GetTable("traits", outcomes);
      if traitsTable.None? || archetype !in traitsTable.value.lists {
        return [Placeholder(archetype)];
      }
      var traitList := traitsTable.value.lists[archetype];
      traits := PickTraits(traitList, NumTraits(count), picks);
    }

    /** `synthesizeDetails(coreProfile, context)`; each part looks its table up
        through `getTable`. */
    method SynthesizeDetails(core: CoreProfile, role: string, d: Draws, outcomes: map<string, Table>)
      returns (r: Outcome<Species>)
      requires Valid() && EnoughDraws(d)
      modifies rollTableManager
      ensures Valid() && rollTableManager.loadStarted
      ensures old(rollTableManager.loadStarted) ==> rollTableManager.tables == old(rollTableManager.tables)
      ensures !old(rollTableManager.loadStarted) ==> rollTableManager.tables == LoadAll(TableFiles, outcomes)
      ensures r == SynthesizeSpec(rollTableManager.tables, core, role, d)
    {
      var namingTable := rollTableManager.GetTable("naming", outcomes);
      var name := NameSpec(namingTable, core.archetype, d.namePrefix, d.nameSuffix);
      if name.Thrown? {
        return Thrown(name.error);
      }
      var physicalTraits := GeneratePhysicalTraits(core.archetype, d.traitCount, d.traitPicks, outcomes);
      var culturalTraits := CulturalTraitsBasic(Some(core.culturalData));
      var hooksTable := rollTableManager.GetTable("hooks", outcomes);
      var hook := NarrativeHookSpec(hooksTable, role, d.hookCategory, d.hookPick);
      var swadeTraits := GenerateSwadeTraitsBasic(core.archetype);
      var mechanics := swadeTraits.Value();
      r := Ok(Species(name.value, core.archetype, core.culture, core.status,
        Some(core.biologicalData), Some(core.culturalData), Some(core.statusData),
        physicalTraits, culturalTraits, hook, mechanics,
        QuickReference(core.archetype, core.culture, core.status, Some(core.statusData),
          physicalTraits, hook, mechanics, culturalTraits)));
    }

    /** `generateSpecies(seed)`: initialise if needed, then the three phases;
        anything thrown in them yields the fallback species. */
    method GenerateSpecies(seed: Seed, activeScene: Option<Scene>, d: Draws, outcomes: map<string, Table>)
      returns (species: Species)
      requires Valid() && EnoughDraws(d)
      modifies this`isInitialized, rollTableManager
      ensures Valid() && isInitialized
      ensures old(rollTableManager.loadStarted) ==> rollTableManager.tables == old(rollTableManager.tables)
      ensures !old(rollTableManager.loadStarted) ==> rollTableManager.tables == LoadAll(TableFiles, outcomes)
      ensures species == GenerateSpeciesSpec(rollTableManager.tables, seed, activeScene, d)
    {
      if !isInitialized {
        Initialize(outcomes);
      }
      var context := AnalyzeContext(seed, activeScene);
      var coreProfile := GenerateCoreProfile(context.Weights(), d);
      if coreProfile.Thrown? {
        return FallbackSpecies;
      }
      var detailedSpecies := SynthesizeDetails(coreProfile.value, context.narrativeRole, d, outcomes);
      if detailedSpecies.Thrown? {
        return FallbackSpecies;
      }
      species := detailedSpecies.value;
    }
  }
}
