/** The enhanced generation helpers: a first-match hook expansion, usage
    suggestions, planet names, and table-backed physical traits, cultural
    traits and narrative hooks. The table store is reached through an
    optional manager; `null` is the case where none is reachable. */
module EnhancedGeneration {
  import opened JsValues
  import opened Strings
  import opened Config
  import opened RollTables
  import opened SpeciesGeneration

  // ---------------------------------------------------------------- planet names

  const PlanetPrefixes: seq<string> := ["Ker", "Zep", "Nox", "Vel", "Tor", "Lyr", "Dax", "Rho"]
  const PlanetSuffixes: seq<string> := ["idos", "anta", "eron", "alis", "ux", "ara", "on", "eth"]

  /** `generatePlanetName()` with the two draws `u1`, `u2`. */
  function PlanetName(u1: Unit, u2: Unit): string {
    PlanetPrefixes[PickIndex(u1, |PlanetPrefixes|)] + PlanetSuffixes[PickIndex(u2, |PlanetSuffixes|)]
  }

  /** A planet name is one of the eight prefixes followed by one of the eight
      suffixes, so it is five to seven characters long. */
  lemma PlanetNameShape(u1: Unit, u2: Unit)
    ensures |PlanetPrefixes| == 8 && |PlanetSuffixes| == 8
    ensures exists p, s :: p in PlanetPrefixes && s in PlanetSuffixes && PlanetName(u1, u2) == p + s
    ensures 5 <= |PlanetName(u1, u2)| <= 7
  {
    var p := PlanetPrefixes[PickIndex(u1, 8)];
    var s := PlanetSuffixes[PickIndex(u2, 8)];
    assert PlanetName(u1, u2) == p + s;
  }

  // ---------------------------------------------------------------- hook expansion

  /** The patterns `expandHook` tries, in order. */
  const ExpansionPatterns: seq<string> := ["homeworld", "technology", "political", "resource"]

  /** The replacement text for each pattern, in the same order: the four
      openings name the planet, the archetype, the culture and the status,
      and each ends in a space ahead of the hook that follows it. */
  function Replacements(profile: CoreProfile, planet: string): (r: seq<string>)
    ensures |r| == |ExpansionPatterns|
    ensures Contains(r[0], planet) && Contains(r[1], profile.archetype)
    ensures Contains(r[2], profile.culture) && Contains(r[3], profile.status)
    ensures forall k :: 0 <= k < |r| ==> |r[k]| > 0 && r[k][|r[k]| - 1] == ' '
  {
    ContainsMiddle("Their homeworld of ", planet, " ");
    ContainsMiddle("Using their ", profile.archetype, " abilities, they have developed ");
    ContainsMiddle("Due to their ", profile.culture, " nature, they find themselves ");
    ContainsMiddle("The unique resources of their ", profile.status, " territory ");
    [ "Their homeworld of " + planet + " ",
      "Using their " + profile.archetype + " abilities, they have developed ",
      "Due to their " + profile.culture + " nature, they find themselves ",
      "The unique resources of their " + profile.status + " territory " ]
  }

  /** The first pattern from index `i` on that occurs in `text`. */
  function FirstPattern(text: string, i: nat): (k: Option<nat>)
    ensures k.Some? ==>
      && i <= k.value < |ExpansionPatterns| && Contains(text, ExpansionPatterns[k.value])
      && forall j :: i <= j < k.value ==> !Contains(text, ExpansionPatterns[j])
    ensures k.None? ==> forall j :: i <= j < |ExpansionPatterns| ==> !Contains(text, ExpansionPatterns[j])
    decreases |ExpansionPatterns| - i
  {
    if i >= |ExpansionPatterns| then None
    else if Contains(text, ExpansionPatterns[i]) then Some(i)
    else FirstPattern(text, i + 1)
  }

  /** What `expandHook(hook, profile)` returns, the planet name drawn beforehand. */
  function ExpandSpec(hook: string, profile: CoreProfile, planet: string): string {
    var lower := Lower(hook);
    match FirstPattern(lower, 0)
    case None => Capitalize(hook)
    case Some(k) => Capitalize(Replacements(profile, planet)[k] + lower)
  }

  /** The first pattern occurring in the lower-cased hook wins: the result is
      its replacement followed by the lower-cased hook; with no pattern, the
      hook itself. Either way only the first character is upper-cased. */
  lemma ExpandSpecFirstMatch(hook: string, profile: CoreProfile, planet: string)
    ensures forall k ::
      (0 <= k < |ExpansionPatterns| && Contains(Lower(hook), ExpansionPatterns[k]) &&
       forall j :: 0 <= j < k ==> !Contains(Lower(hook), ExpansionPatterns[j])) ==>
        ExpandSpec(hook, profile, planet) == Capitalize(Replacements(profile, planet)[k] + Lower(hook))
    ensures (forall k :: 0 <= k < |ExpansionPatterns| ==> !Contains(Lower(hook), ExpansionPatterns[k])) ==>
      ExpandSpec(hook, profile, planet) == Capitalize(hook)
    ensures Contains(Lower(hook), "homeworld") ==>
      ExpandSpec(hook, profile, planet) == Capitalize("Their homeworld of " + planet + " " + Lower(hook))
  {
    var lower := Lower(hook);
    forall k | 0 <= k < |ExpansionPatterns| && Contains(lower, ExpansionPatterns[k]) &&
      (forall j :: 0 <= j < k ==> !Contains(lower, ExpansionPatterns[j]))
      ensures ExpandSpec(hook, profile, planet) == Capitalize(Replacements(profile, planet)[k] + lower)
    {
      var f := FirstPattern(lower, 0);
      assert f.Some? && f.value == k;
    }
    if Contains(lower, "homeworld") {
      assert Contains(lower, ExpansionPatterns[0]);
    }
  }

  /** `expandHook(hook, profile)`: scan the patterns in order and stop at the
      first that occurs in the lower-cased hook. */
  method ExpandHook(hook: string, profile: CoreProfile, planet: string) returns (r: string)
    ensures r == ExpandSpec(hook, profile, planet)
    ensures |r| >= |hook|
  {
    var replacements := Replacements(profile, planet);
    var lower := Lower(hook);
    var expanded := hook;
    var i := 0;
    while i < |ExpansionPatterns|
      invariant 0 <= i <= |ExpansionPatterns|
      invariant FirstPattern(lower, 0) == FirstPattern(lower, i)
      invariant expanded == hook
    {
      if Contains(lower, ExpansionPatterns[i]) {
        expanded := replacements[i] + lower;
        break;
      }
      i := i + 1;
    }
    r := Capitalize(expanded);
  }

  // ---------------------------------------------------------------- usage suggestions

  const RescueSuggestion: string := "Great for rescue or mystery scenarios"
  const EconomicSuggestion: string := "Excellent for economic or exploration plots"

  /** The three base suggestions. */
  function BaseSuggestions(profile: CoreProfile): seq<string> {
    [ "Ideal for " + profile.culture + " encounters",
      "Can serve as recurring " + profile.status + " contacts",
      "Perfect for introducing " + profile.archetype + " elements to the story" ]
  }

  /** The list `generateUsageSuggestions(hook, profile)` draws from. The
      hook is matched case-sensitively. */
  function SuggestionsFor(hook: string, profile: CoreProfile): seq<string> {
    BaseSuggestions(profile) +
    (if Contains(hook, "missing") || Contains(hook, "lost") then [RescueSuggestion] else []) +
    (if Contains(hook, "trade") || Contains(hook, "resource") then [EconomicSuggestion] else [])
  }

  /** The base suggestions are always offered; the rescue one exactly when the
      hook mentions 'missing' or 'lost', the economic one exactly when it
      mentions 'trade' or 'resource'. */
  lemma SuggestionsContent(hook: string, profile: CoreProfile)
    ensures var s := SuggestionsFor(hook, profile);
      && 3 <= |s| <= 5 && s[..3] == BaseSuggestions(profile)
      && (RescueSuggestion in s <==> Contains(hook, "missing") || Contains(hook, "lost"))
      && (EconomicSuggestion in s <==> Contains(hook, "trade") || Contains(hook, "resource"))
  {
    var b := BaseSuggestions(profile);
    assert b[0][0] == 'I' && b[1][0] == 'C' && b[2][0] == 'P';
    assert RescueSuggestion[0] == 'G' && EconomicSuggestion[0] == 'E';
    assert RescueSuggestion !in b && EconomicSuggestion !in b;
  }

  /** `generateUsageSuggestions(hook, profile)` with the pick draw `u`. */
  method GenerateUsageSuggestions(hook: string, profile: CoreProfile, u: Unit) returns (r: string)
    ensures r == SuggestionsFor(hook, profile)[PickIndex(u, |SuggestionsFor(hook, profile)|)]
    ensures r in SuggestionsFor(hook, profile)
  {
    var suggestions := BaseSuggestions(profile);
    if Contains(hook, "missing") || Contains(hook, "lost") {
      suggestions := suggestions + [RescueSuggestion];
    }
    if Contains(hook, "trade") || Contains(hook, "resource") {
      suggestions := suggestions + [EconomicSuggestion];
    }
    r := suggestions[PickIndex(u, |suggestions|)];
  }

  // ---------------------------------------------------------------- table-backed helpers

  /** The store a possibly missing manager exposes. */
  function StoreOf(manager: RollTableManager?): Option<map<string, Table>>
    reads manager
  {
    if manager == null then None else Some(manager.tables)
  }

  /** `traitsTable[archetype] || traitsTable.humanoid` */
  function EnhancedTraitList(traits: Table, archetype: string): Option<seq<string>> {
    if archetype in traits.lists then Some(traits.lists[archetype])
    else Lookup(traits.lists, Humanoid)
  }

  /** What the enhanced `generatePhysicalTraits(coreProfile)` yields given the
      store: no traits without a manager; a missing table, or a missing list
      for both the archetype and humanoid, throws. */
  function EnhancedTraitsSpec(store: Option<map<string, Table>>, archetype: string, count: Unit, picks: seq<Unit>): Outcome<seq<string>>
    requires |picks| >= 4
  {
    if store.None? then Ok([])
    else match Lookup(store.value, "traits")
      case None => Thrown(TypeError)
      case Some(t) =>
        match EnhancedTraitList(t, archetype)
        case None => Thrown(TypeError)
        case Some(list) => Ok(SelectTraits(list, NumTraits(count), picks, 0, []))
  }

  /** The traits come from the archetype's list, or from the humanoid list
      when the archetype has none; they are distinct and at most the drawn
      count (2..4). */
  lemma EnhancedTraitsShape(store: Option<map<string, Table>>, archetype: string, count: Unit, picks: seq<Unit>)
    requires |picks| >= 4
    ensures store.None? ==> EnhancedTraitsSpec(store, archetype, count, picks) == Ok([])
    ensures store.Some? && "traits" in store.value ==>
      var t := store.value["traits"];
      var r := EnhancedTraitsSpec(store, archetype, count, picks);
      && (r.Thrown? <==> archetype !in t.lists && Humanoid !in t.lists)
      && (r.Ok? ==>
            var list := if archetype in t.lists then t.lists[archetype] else t.lists[Humanoid];
            NoDuplicates(r.value) && (forall x :: x in r.value ==> x in list) && |r.value| <= NumTraits(count))
  {
    if store.Some? && "traits" in store.value {
      var t := store.value["traits"];
      if archetype in t.lists || Humanoid in t.lists {
        var list := if archetype in t.lists then t.lists[archetype] else t.lists[Humanoid];
        SelectTraitsSound(list, NumTraits(count), picks, 0, []);
      }
    }
  }

  /** The enhanced `generatePhysicalTraits(coreProfile)`. */
  method EnhancedPhysicalTraits(manager: RollTableManager?, archetype: string, count: Unit, picks: seq<Unit>,
                                outcomes: map<string, Table>) returns (r: Outcome<seq<string>>)
    requires |picks| >= 4
    requires manager != null ==> manager.Valid()
    modifies manager
    ensures manager != null ==> manager.Valid() && manager.loadStarted
    ensures manager != null && old(manager.loadStarted) ==> manager.tables == old(manager.tables)
    ensures r == EnhancedTraitsSpec(StoreOf(manager), archetype, count, picks)
  {
    if manager == null {
      return Ok([]);
    }
    var archetypeTraits := manager.GetTable("traits", outcomes);
    if archetypeTraits.None? {
      return Thrown(TypeError);
    }
    var traitList := EnhancedTraitList(archetypeTraits.value, archetype);
    if traitList.None? {
      return Thrown(TypeError);
    }
    var selectedTraits := PickTraits(traitList.value, NumTraits(count), picks);
    r := Ok(selectedTraits);
  }

  /** `entries.find(e => e.key === key)`, as the index of the first match. */
  function FindKey(entries: seq<Entry>, key: string, i: nat): (k: Option<nat>)
    ensures k.Some? ==>
      && i <= k.value < |entries| && entries[k.value].key == key
      && forall j :: i <= j < k.value ==> entries[j].key != key
    ensures k.None? ==> forall j :: i <= j < |entries| ==> entries[j].key != key
    decreases |entries| - i
  {
    if i >= |entries| then None
    else if entries[i].key == key then Some(i)
    else FindKey(entries, key, i + 1)
  }

  /** The four cultural fields copied from a culture entry, any of them
      possibly undefined. */
  datatype CultureFields = CultureFields(
    values: Option<seq<string>>,
    structure: Option<string>,
    interactionStyle: Option<string>,
    commonRoles: Option<seq<string>>)

  /** What `generateCulturalTraits(coreProfile)` yields given the store: `{}`
      (None) without a manager or a matching entry; a culture table without
      `entries` throws. */
  function EnhancedCultureSpec(store: Option<map<string, Table>>, culture: string): Outcome<Option<CultureFields>> {
    if store.None? then Ok(None)
    else match Lookup(store.value, "culture")
      case None => Thrown(TypeError)
      case Some(t) =>
        if t.entries.None? then Thrown(TypeError)
        else match FindKey(t.entries.value, culture, 0)
          case None => Ok(None)
          case Some(k) =>
            var e := t.entries.value[k];
            Ok(Some(CultureFields(e.values, e.structure, e.interactionStyle, e.commonRoles)))
  }

  /** With a culture table that has entries, the result is the fields of the
      first entry whose key is the culture, and `{}` exactly when no entry has
      that key. */
  lemma EnhancedCultureShape(store: Option<map<string, Table>>, culture: string)
    ensures store.Some? && "culture" in store.value && store.value["culture"].entries.Some? ==>
      var entries := store.value["culture"].entries.value;
      var r := EnhancedCultureSpec(store, culture);
      && r.Ok?
      && (r.value.None? <==> forall e :: e in entries ==> e.key != culture)
      && (r.value.Some? ==>
            exists i ::
              && 0 <= i < |entries| && entries[i].key == culture
              && (forall j :: 0 <= j < i ==> entries[j].key != culture)
              && r.value.value == CultureFields(entries[i].values, entries[i].structure,
                   entries[i].interactionStyle, entries[i].commonRoles))
    ensures store.None? ==> EnhancedCultureSpec(store, culture) == Ok(None)
  {
    if store.Some? && "culture" in store.value && store.value["culture"].entries.Some? {
      var entries := store.value["culture"].entries.value;
      var f := FindKey(entries, culture, 0);
      if f.None? {
        forall e | e in entries ensures e.key != culture {
          var j :| 0 <= j < |entries| && entries[j] == e;
        }
      }
    }
  }

  /** The enhanced `generateCulturalTraits(coreProfile)`. */
  method EnhancedCulturalTraits(manager: RollTableManager?, culture: string, outcomes: map<string, Table>)
    returns (r: Outcome<Option<CultureFields>>)
    requires manager != null ==> manager.Valid()
    modifies manager
    ensures manager != null ==> manager.Valid() && manager.loadStarted
    ensures manager != null && old(manager.loadStarted) ==> manager.tables == old(manager.tables)
    ensures r == EnhancedCultureSpec(StoreOf(manager), culture)
  {
    if manager == null {
      return Ok(None);
    }
    var cultureData := manager.GetTable("culture", outcomes);
    if cultureData.None? || cultureData.value.entries.None? {
      return Thrown(TypeError);
    }
    var cultureEntry := FindKey(cultureData.value.entries.value, culture, 0);
    if cultureEntry.None? {
      return Ok(None);
    }
    var e := cultureData.value.entries.value[cultureEntry.value];
    r := Ok(Some(CultureFields(e.values, e.structure, e.interactionStyle, e.commonRoles)));
  }

  /** A hook from the enhanced generator, with its usage suggestion. */
  datatype EnhancedHook = EnhancedHook(
    summary: Option<string>,
    detailed: Option<string>,
    category: Option<string>,
    usageSuggestions: Option<string>)

  /** The draws of the enhanced `generateNarrativeHook`, in call order. */
  datatype HookDraws = HookDraws(category: Unit, pick: Unit, planetPrefix: Unit, planetSuffix: Unit, suggestion: Unit)

  const NoManagerHook: EnhancedHook :=
    EnhancedHook(Some("Unknown origins"), Some("This species has mysterious origins."), None, None)

  /** `hooksTable[category] || hooksTable.political` (no third fallback here). */
  function EnhancedHookList(hooks: Table, category: string): Option<seq<string>> {
    if category in hooks.lists then Some(hooks.lists[category]) else Lookup(hooks.lists, Political)
  }

  /** What the enhanced `generateNarrativeHook(coreProfile, context)` yields
      given the store. A missing list, or an empty one whose pick is
      undefined, throws when the hook is lower-cased. */
  function EnhancedHookSpec(store: Option<map<string, Table>>, profile: CoreProfile, role: string, d: HookDraws): Outcome<EnhancedHook> {
    if store.None? then Ok(NoManagerHook)
    else match Lookup(store.value, "hooks")
      case None => Thrown(TypeError)
      case Some(t) =>
        var category := HookCategory(role, d.category);
        match EnhancedHookList(t, category)
        case None => Thrown(TypeError)
        case Some(hooks) =>
          if hooks == [] then Thrown(TypeError)
          else
            var selectedHook := hooks[PickIndex(d.pick, |hooks|)];
            var suggestions := SuggestionsFor(selectedHook, profile);
            Ok(EnhancedHook(Some(selectedHook),
              Some(ExpandSpec(selectedHook, profile, PlanetName(d.planetPrefix, d.planetSuffix))),
              Some(category),
              Some(suggestions[PickIndex(d.suggestion, |suggestions|)])))
  }

  /** With a hooks table the hook is drawn from the category's list, else the
      political list; it throws exactly when that list is missing or empty.
      The detailed text is the expansion of the summary, not the summary. */
  lemma EnhancedHookShape(store: Option<map<string, Table>>, profile: CoreProfile, role: string, d: HookDraws)
    ensures store.None? ==> EnhancedHookSpec(store, profile, role, d) == Ok(NoManagerHook)
    ensures store.Some? && "hooks" in store.value ==>
      var t := store.value["hooks"];
      var category := HookCategory(role, d.category);
      var r := EnhancedHookSpec(store, profile, role, d);
      && (r.Thrown? <==> EnhancedHookList(t, category).None? || EnhancedHookList(t, category) == Some([]))
      && (r.Ok? ==>
            && r.value.category == Some(category)
            && r.value.summary.Some? && r.value.summary.value in EnhancedHookList(t, category).value
            && r.value.detailed == Some(ExpandSpec(r.value.summary.value, profile, PlanetName(d.planetPrefix, d.planetSuffix)))
            && r.value.usageSuggestions.Some?
            && r.value.usageSuggestions.value in SuggestionsFor(r.value.summary.value, profile))
  {
  }

  /** The enhanced `generateNarrativeHook(coreProfile, context)`. */
  method EnhancedNarrativeHook(manager: RollTableManager?, profile: CoreProfile, role: string, d: HookDraws,
                               outcomes: map<string, Table>) returns (r: Outcome<EnhancedHook>)
    requires manager != null ==> manager.Valid()
    modifies manager
    ensures manager != null ==> manager.Valid() && manager.loadStarted
    ensures manager != null && old(manager.loadStarted) ==> manager.tables == old(manager.tables)
    ensures r == EnhancedHookSpec(StoreOf(manager), profile, role, d)
  {
    if manager == null {
      return Ok(NoManagerHook);
    }
    var hooksTable := manager.GetTable("hooks", outcomes);
    if hooksTable.None? {
      return Thrown(TypeError);
    }
    var category := HookCategory(role, d.category);
    var hooks := EnhancedHookList(hooksTable.value, category);
    if hooks.None? || hooks.value == [] {
      return Thrown(TypeError);
    }
    var selectedHook := hooks.value[PickIndex(d.pick, |hooks.value|)];
    var planet := PlanetName(d.planetPrefix, d.planetSuffix);
    var detailed := ExpandHook(selectedHook, profile, planet);
    var usage := GenerateUsageSuggestions(selectedHook, profile, d.suggestion);
    r := Ok(EnhancedHook(Some(selectedHook), Some(detailed), Some(category), Some(usage)));
  }
}
