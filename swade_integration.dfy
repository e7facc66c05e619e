/** The Savage Worlds (Adventure Edition) trait mapper: three closed switches,
    applied in the order biology, culture, status, append racial abilities,
    hindrances, skills and edges to a shared trait object and set attribute
    modifiers; a summary then joins the non-empty parts with " | ". */
module SwadeIntegration {
  import opened JsValues
  import opened Strings
  import opened Config

  /** The trait object as a value: its lists, its attribute modifiers in
      insertion order, and its summary. */
  datatype Mechanics = Mechanics(
    racialAbilities: seq<string>,
    hindrances: seq<string>,
    attributes: seq<(string, string)>,
    skills: seq<string>,
    edges: seq<string>,
    mechanicalSummary: string)

  const NoMechanics: Mechanics := Mechanics([], [], [], [], [], "")

  /** What one switch case contributes. */
  datatype Additions = Additions(
    abilities: seq<string>,
    hindrances: seq<string>,
    skills: seq<string>,
    edges: seq<string>,
    attribute: Option<(string, string)>)

  const Nothing: Additions := Additions([], [], [], [], None)

  /** Which case of a closed `switch` over `labels` applies to `v`: the
      first label equal to it, or none. */
  function CaseIndex(labels: seq<string>, v: string): (r: Option<nat>)
    ensures r.None? <==> v !in labels
    ensures r.Some? ==> r.value < |labels| && labels[r.value] == v && v !in labels[..r.value]
  {
    if labels == [] then None
    else if labels[0] == v then Some(0)
    else match CaseIndex(labels[1..], v)
      case None => None
      case Some(i) =>
        assert labels[..i + 1] == [labels[0]] + labels[1..][..i];
        Some(i + 1)
  }

  /** With no label listed twice, a label selects its own case. */
  lemma CaseIndexOfLabel(labels: seq<string>, i: nat)
    requires Distinct(labels) && i < |labels|
    ensures CaseIndex(labels, labels[i]) == Some(i)
  {
  }

  // The texts the three switches append.
  const Adaptable: string := "Adaptable (+2 to one attribute during character creation)"
  const FreeSkillDie: string := "Free d4 in any skill during creation"
  const Flight: string := "Flight (12\" flying pace, requires room to maneuver)"
  const KeenEyes: string := "Keen Eyes (+2 to Notice rolls involving sight)"
  const HollowBones: string := "Hollow Bones (-1 Toughness vs. fall damage)"
  const NaturalArmor: string := "Armor +2 (Natural scales)"
  const InfraredVision: string := "Infrared Vision (Halve penalties for bad lighting vs. heat sources)"
  const ColdBlooded: string := "Cold Blooded (-2 to resist cold, sluggish in cold environments)"
  const ExtraLimbs: string := "Extra Limbs (Additional actions with limbs, +2 to climbing)"
  const HiveMind: string := "Hive Mind (Shared knowledge within community)"
  const InsectoidOutsider: string := "Outsider (-2 Charisma when dealing with non-insectoids)"
  const AquaticAbility: string := "Aquatic (Swimming pace equal to land pace, can breathe underwater)"
  const PressureResistance: string := "Pressure Resistance (Immune to pressure effects)"
  const WaterDependency: string := "Dependency (Must immerse in water at least once per day)"
  const EnergyBeing: string := "Energy Being (Immune to disease, poison, suffocation)"
  const Phase: string := "Phase (Can become incorporeal for one round, 1/day)"
  const ElectromagneticSensitivity: string := "Electromagnetic Sensitivity (-2 vs. EMP and electrical attacks)"
  const Construct: string := "Construct (Immune to disease, poison, suffocation)"
  const Interface: string := "Interface (Can directly connect to compatible technology)"
  const PowerDependency: string := "Dependency (Requires power source, daily maintenance)"
  const AdaptiveEvolution: string := "Adaptive Evolution (Can temporarily gain minor abilities)"
  const Versatile: string := "Versatile (Extra skill points during creation)"
  const GeneticInstability: string := "Genetic Instability (Occasional random mutations)"
  const PilotingD6: string := "Piloting d6"
  const SurvivalD6: string := "Survival d6"
  const NomadicEdges: string := "Suggested: Ace, Steady Hands"
  const PersuasionD6: string := "Persuasion d6"
  const CommonKnowledgeD6: string := "Common Knowledge d6"
  const CorporateEdges: string := "Suggested: Connections, Rich"
  const FightingD6: string := "Fighting d6"
  const TribalEdges: string := "Suggested: Warrior, Brave"
  const ResearchD6: string := "Research d6"
  const ScienceD6: string := "Science d6"
  const AcademicEdges: string := "Suggested: Scholar, Investigator"
  const ShootingD6: string := "Shooting d6"
  const MilitantEdges: string := "Suggested: Soldier, Combat Reflexes"
  const PsionicsD6: string := "Psionics d6"
  const HealingD6: string := "Healing d6"
  const MysticEdges: string := "Suggested: Mentalist, Mystic"
  const StealthD6: string := "Stealth d6"
  const HackingD6: string := "Hacking d6"
  const AnarchistEdges: string := "Suggested: Thief, Free Runner"
  const GalacticCitizenship: string := "Galactic Citizenship (Access to UC facilities)"
  const UcCoreEdges: string := "Suggested: Rich, Connections (UC)"
  const UcAdjacentEdges: string := "Suggested: Connections (Regional)"
  const IndependentEdges: string := "Suggested: Independent, Self-Reliant"
  const Wanted: string := "Wanted (By major authorities)"
  const RogueEdges: string := "Suggested: Streetwise, Danger Sense"
  const AncientKnowledge: string := "Ancient Knowledge (Access to lost technologies)"
  const LastOfKind: string := "Outsider (Last of their kind)"
  const Clueless: string := "Clueless (Unfamiliar with galactic customs)"
  const EmergingEdges: string := "Suggested: Luck, Quick"

  /** The cases of `applyBiologyTraits`, one per archetype in `Archetypes` order. */
  function BiologyCase(i: nat): Additions
    requires i < |Archetypes|
  {
    if i == 0 then
      Additions([Adaptable], [],
        [FreeSkillDie], [], None)
    else if i == 1 then
      Additions([Flight, KeenEyes],
        [HollowBones], [], [], Some(("agility", "+1")))
    else if i == 2 then
      Additions([NaturalArmor, InfraredVision],
        [ColdBlooded], [], [], Some(("vigor", "+1")))
    else if i == 3 then
      Additions([ExtraLimbs, HiveMind],
        [InsectoidOutsider], [], [], Some(("vigor", "+1")))
    else if i == 4 then
      Additions([AquaticAbility, PressureResistance],
        [WaterDependency], [], [], Some(("vigor", "+1")))
    else if i == 5 then
      Additions([EnergyBeing, Phase],
        [ElectromagneticSensitivity], [], [], Some(("spirit", "+2")))
    else if i == 6 then
      Additions([Construct, Interface],
        [PowerDependency], [], [], Some(("smarts", "+1")))
    else
      Additions([AdaptiveEvolution, Versatile],
        [GeneticInstability], [], [], None)
  }

  /** The cases of `applyCultureTraits`, in `Cultures` order: two skills and
      one suggested edge each. */
  function CultureCase(i: nat): Additions
    requires i < |Cultures|
  {
    if i == 0 then Additions([], [], [PilotingD6, SurvivalD6], [NomadicEdges], None)
    else if i == 1 then Additions([], [], [PersuasionD6, CommonKnowledgeD6], [CorporateEdges], None)
    else if i == 2 then Additions([], [], [FightingD6, SurvivalD6], [TribalEdges], None)
    else if i == 3 then Additions([], [], [ResearchD6, ScienceD6], [AcademicEdges], None)
    else if i == 4 then Additions([], [], [FightingD6, ShootingD6], [MilitantEdges], None)
    else if i == 5 then Additions([], [], [PsionicsD6, HealingD6], [MysticEdges], None)
    else Additions([], [], [StealthD6, HackingD6], [AnarchistEdges], None)
  }

  /** The cases of `applyStatusTraits`, in `Statuses` order. */
  function StatusCase(i: nat): Additions
    requires i < |Statuses|
  {
    if i == 0 then
      Additions([GalacticCitizenship], [], [], [UcCoreEdges], None)
    else if i == 1 then Additions([], [], [], [UcAdjacentEdges], None)
    else if i == 2 then Additions([], [], [], [IndependentEdges], None)
    else if i == 3 then
      Additions([], [Wanted], [], [RogueEdges], None)
    else if i == 4 then
      Additions([AncientKnowledge], [LastOfKind], [], [], None)
    else
      Additions([], [Clueless], [], [EmergingEdges], None)
  }

  /** `switch (archetype)` in `applyBiologyTraits`. */
  function BiologyAdditions(archetype: string): Additions {
    match CaseIndex(Archetypes, archetype)
    case None => Nothing
    case Some(i) => BiologyCase(i)
  }

  /** `switch (culture)` in `applyCultureTraits`. */
  function CultureAdditions(culture: string): Additions {
    match CaseIndex(Cultures, culture)
    case None => Nothing
    case Some(i) => CultureCase(i)
  }

  /** `switch (status)` in `applyStatusTraits`. */
  function StatusAdditions(status: string): Additions {
    match CaseIndex(Statuses, status)
    case None => Nothing
    case Some(i) => StatusCase(i)
  }

  /** Every archetype grants at least one racial ability, and every attribute
      a biology case sets is one of the five SWADE attributes. */
  lemma BiologyCasesWellFormed()
    ensures forall i :: 0 <= i < |Archetypes| ==> BiologyCase(i).abilities != []
    ensures forall i :: 0 <= i < |Archetypes| && BiologyCase(i).attribute.Some? ==>
      BiologyCase(i).attribute.value.0 in AttributeNames
  {
  }

  /** `attributes[k] = v` on an object: an existing key keeps its place, a new key goes last. */
  function SetAttribute(attrs: seq<(string, string)>, k: string, v: string): (r: seq<(string, string)>)
    ensures |r| == |attrs| || |r| == |attrs| + 1
    ensures forall i :: 0 <= i < |attrs| ==> r[i].0 == attrs[i].0
    ensures (k, v) in r
  {
    if attrs == [] then [(k, v)]
    else if attrs[0].0 == k then [(k, v)] + attrs[1..]
    else [attrs[0]] + SetAttribute(attrs[1..], k, v)
  }

  /** The trait object after one switch case. */
  function ApplyStage(m: Mechanics, add: Additions): Mechanics {
    var attributes := match add.attribute
      case None => m.attributes
      case Some(kv) => SetAttribute(m.attributes, kv.0, kv.1);
    m.(racialAbilities := m.racialAbilities + add.abilities,
       hindrances := m.hindrances + add.hindrances,
       skills := m.skills + add.skills,
       edges := m.edges + add.edges,
       attributes := attributes)
  }

  /** A stage only appends to the lists and never removes an attribute. */
  lemma StageOnlyAppends(m: Mechanics, add: Additions)
    ensures m.racialAbilities <= ApplyStage(m, add).racialAbilities
    ensures m.hindrances <= ApplyStage(m, add).hindrances
    ensures m.skills <= ApplyStage(m, add).skills
    ensures m.edges <= ApplyStage(m, add).edges
    ensures |m.attributes| <= |ApplyStage(m, add).attributes|
    ensures forall i :: 0 <= i < |m.attributes| ==> ApplyStage(m, add).attributes[i].0 == m.attributes[i].0
  {
  }

  /** `${Attr} ${mod}`: the capitalised attribute name and its modifier. */
  function AttributeText(kv: (string, string)): string {
    Capitalize(kv.0) + " " + kv.1
  }

  function AttributeTexts(attrs: seq<(string, string)>): (r: seq<string>)
    ensures |r| == |attrs|
    ensures forall i :: 0 <= i < |attrs| ==> r[i] == AttributeText(attrs[i])
  {
    seq(|attrs|, i requires 0 <= i < |attrs| => AttributeText(attrs[i]))
  }

  /** `xs.slice(0, n)` */
  function Take<T>(xs: seq<T>, n: nat): (r: seq<T>)
    ensures r <= xs && |r| == if |xs| < n then |xs| else n
  {
    if |xs| < n then xs else xs[..n]
  }

  /** The summary parts, each present only when its list is non-empty. */
  function SummaryParts(m: Mechanics): (parts: seq<string>)
    ensures |parts| <= 3
  {
    (if |m.attributes| > 0 then ["Attributes: " + Join(AttributeTexts(m.attributes), ", ")] else []) +
    (if |m.racialAbilities| > 0 then ["Abilities: " + Join(Take(m.racialAbilities, 2), "; ")] else []) +
    (if |m.hindrances| > 0 then ["Hindrances: " + m.hindrances[0]] else [])
  }

  /** What `generateMechanicalSummary(traits)` returns. */
  function MechanicalSummary(m: Mechanics): string {
    Join(SummaryParts(m), " | ")
  }

  lemma PartsNonEmpty(m: Mechanics)
    ensures forall i :: 0 <= i < |SummaryParts(m)| ==> SummaryParts(m)[i] != ""
  {
  }

  /** The summary is empty exactly when there are no attributes, no racial
      abilities and no hindrances. */
  lemma SummaryEmptyIff(m: Mechanics)
    ensures MechanicalSummary(m) == "" <==> m.attributes == [] && m.racialAbilities == [] && m.hindrances == []
  {
    PartsNonEmpty(m);
    JoinEmptyIff(SummaryParts(m), " | ");
    assert SummaryParts(m) != [""] by {
      if |SummaryParts(m)| == 1 {
        assert SummaryParts(m)[0] != "";
      }
    }
  }

  /** A summary with racial abilities opens with the attributes part if there
      is one, and otherwise with the abilities part, which names the first
      ability. */
  lemma SummaryOpensWithFirstPart(m: Mechanics)
    requires m.racialAbilities != []
    ensures m.attributes != [] ==> StartsWith(MechanicalSummary(m), "Attributes: ")
    ensures m.attributes == [] ==> StartsWith(MechanicalSummary(m), "Abilities: " + m.racialAbilities[0])
  {
    var parts := SummaryParts(m);
    assert |parts| >= 1;
    var first := if m.attributes != [] then "Attributes: " + Join(AttributeTexts(m.attributes), ", ")
      else "Abilities: " + Join(Take(m.racialAbilities, 2), "; ");
    assert parts[0] == first;
    JoinStartsWithFirst(parts, " | ");
    if m.attributes == [] {
      var taken := Take(m.racialAbilities, 2);
      JoinStartsWithFirst(taken, "; ");
      assert StartsWith(first, "Abilities: " + taken[0]);
    }
  }

  lemma JoinStartsWithFirst(xs: seq<string>, sep: string)
    requires xs != []
    ensures StartsWith(Join(xs, sep), xs[0])
  {
    if |xs| > 1 {
      assert Join(xs, sep) == xs[0] + (sep + Join(xs[1..], sep));
    }
  }

  /** What `generateSWADETraits(coreProfile)` returns. */
  function TraitsFor(archetype: string, culture: string, status: string): Mechanics {
    var m := ApplyStage(ApplyStage(ApplyStage(NoMechanics, BiologyAdditions(archetype)), CultureAdditions(culture)), StatusAdditions(status));
    m.(mechanicalSummary := MechanicalSummary(m))
  }

  /** The attribute each archetype sets: avian agility +1; reptilian,
      insectoid and aquatic vigor +1; energy spirit +2; synthetic smarts +1;
      humanoid and hybrid none. */
  lemma BiologyAttributes()
    ensures BiologyAdditions(Humanoid).attribute == None
    ensures BiologyAdditions(Avian).attribute == Some(("agility", "+1"))
    ensures BiologyAdditions(Reptilian).attribute == Some(("vigor", "+1"))
    ensures BiologyAdditions(Insectoid).attribute == Some(("vigor", "+1"))
    ensures BiologyAdditions(Aquatic).attribute == Some(("vigor", "+1"))
    ensures BiologyAdditions(Energy).attribute == Some(("spirit", "+2"))
    ensures BiologyAdditions(Synthetic).attribute == Some(("smarts", "+1"))
    ensures BiologyAdditions(Hybrid).attribute == None
  {
    EnumerationsDistinct();
    CaseIndexOfLabel(Archetypes, 0);
    CaseIndexOfLabel(Archetypes, 1);
    CaseIndexOfLabel(Archetypes, 2);
    CaseIndexOfLabel(Archetypes, 3);
    CaseIndexOfLabel(Archetypes, 4);
    CaseIndexOfLabel(Archetypes, 5);
    CaseIndexOfLabel(Archetypes, 6);
    CaseIndexOfLabel(Archetypes, 7);
  }

  /** No culture or status case sets an attribute, so a generated trait
      object holds at most the one attribute biology sets. */
  lemma AttributesComeFromBiology(archetype: string, culture: string, status: string)
    ensures CultureAdditions(culture).attribute == None && StatusAdditions(status).attribute == None
    ensures TraitsFor(archetype, culture, status).attributes ==
      match BiologyAdditions(archetype).attribute
      case None => []
      case Some(kv) => [kv]
  {
  }

  /** Every listed culture appends exactly two skills and one edge and nothing
      else; an unlisted culture appends nothing. */
  lemma CultureStageShape(culture: string)
    ensures culture in Cultures ==>
      |CultureAdditions(culture).skills| == 2 && |CultureAdditions(culture).edges| == 1 &&
      CultureAdditions(culture).abilities == [] && CultureAdditions(culture).hindrances == [] &&
      CultureAdditions(culture).attribute == None
    ensures culture !in Cultures ==> CultureAdditions(culture) == Nothing
  {
  }

  /** Rogue, extinct and emerging add one hindrance and the other statuses
      none; uc_core and extinct add one racial ability and the others none;
      no status adds a skill; an unlisted status adds nothing. */
  lemma StatusStageShape(status: string)
    ensures |StatusAdditions(status).hindrances| == (if status == Rogue || status == Extinct || status == Emerging then 1 else 0)
    ensures |StatusAdditions(status).abilities| == (if status == UcCore || status == Extinct then 1 else 0)
    ensures StatusAdditions(status).skills == []
    ensures status !in Statuses ==> StatusAdditions(status) == Nothing
  {
  }

  lemma BiologyAddsAbility(archetype: string)
    requires archetype in Archetypes
    ensures |BiologyAdditions(archetype).abilities| >= 1
  {
    BiologyCasesWellFormed();
  }

  /** Every one of the eight archetypes yields a non-empty summary, whatever
      the culture and status. */
  lemma EveryArchetypeHasSummary(archetype: string, culture: string, status: string)
    requires archetype in Archetypes
    ensures TraitsFor(archetype, culture, status).racialAbilities != []
    ensures TraitsFor(archetype, culture, status).mechanicalSummary != ""
  {
    BiologyAddsAbility(archetype);
    var m := ApplyStage(ApplyStage(ApplyStage(NoMechanics, BiologyAdditions(archetype)), CultureAdditions(culture)), StatusAdditions(status));
    assert m.racialAbilities != [];
    SummaryEmptyIff(m);
  }

  // ---------------------------------------------------------------- the trait object

  class SwadeTraits {
    var racialAbilities: seq<string>
    var hindrances: seq<string>
    var attributes: seq<(string, string)>
    var skills: seq<string>
    var edges: seq<string>
    var mechanicalSummary: string

    function Value(): Mechanics
      reads this
    {
      Mechanics(racialAbilities, hindrances, attributes, skills, edges, mechanicalSummary)
    }

    constructor ()
      ensures Value() == NoMechanics
    {
      racialAbilities := [];
      hindrances := [];
      attributes := [];
      skills := [];
      edges := [];
      mechanicalSummary := "";
    }
  }

  /** Appends one switch case's contributions to the trait object. */
  method Apply(traits: SwadeTraits, add: Additions)
    modifies traits
    ensures traits.Value() == ApplyStage(old(traits.Value()), add)
  {
    traits.racialAbilities := traits.racialAbilities + add.abilities;
    traits.hindrances := traits.hindrances + add.hindrances;
    traits.skills := traits.skills + add.skills;
    traits.edges := traits.edges + add.edges;
    if add.attribute.Some? {
      traits.attributes := SetAttribute(traits.attributes, add.attribute.value.0, add.attribute.value.1);
    }
  }

  /** `applyBiologyTraits(traits, archetype)` */
  method ApplyBiologyTraits(traits: SwadeTraits, archetype: string)
    modifies traits
    ensures traits.Value() == ApplyStage(old(traits.Value()), BiologyAdditions(archetype))
  {
    Apply(traits, BiologyAdditions(archetype));
  }

  /** `applyCultureTraits(traits, culture)` */
  method ApplyCultureTraits(traits: SwadeTraits, culture: string)
    modifies traits
    ensures traits.Value() == ApplyStage(old(traits.Value()), CultureAdditions(culture))
  {
    Apply(traits, CultureAdditions(culture));
  }

  /** `applyStatusTraits(traits, status)` */
  method ApplyStatusTraits(traits: SwadeTraits, status: string)
    modifies traits
    ensures traits.Value() == ApplyStage(old(traits.Value()), StatusAdditions(status))
  {
    Apply(traits, StatusAdditions(status));
  }

  /** `generateMechanicalSummary(traits)`, pushing the parts in order. */
  method GenerateMechanicalSummary(traits: SwadeTraits) returns (summary: string)
    ensures summary == MechanicalSummary(traits.Value())
    ensures summary == "" <==> traits.attributes == [] && traits.racialAbilities == [] && traits.hindrances == []
  {
    var parts: seq<string> := [];
    if |traits.attributes| > 0 {
      var attrStrings := AttributeTexts(traits.attributes);
      parts := parts + ["Attributes: " + Join(attrStrings, ", ")];
    }
    if |traits.racialAbilities| > 0 {
      parts := parts + ["Abilities: " + Join(Take(traits.racialAbilities, 2), "; ")];
    }
    if |traits.hindrances| > 0 {
      parts := parts + ["Hindrances: " + traits.hindrances[0]];
    }
    assert parts == SummaryParts(traits.Value());
    summary := Join(parts, " | ");
    SummaryEmptyIff(traits.Value());
  }

  /** `generateSWADETraits(coreProfile)`: the three stages in order, then the summary. */
  method GenerateSwadeTraits(archetype: string, culture: string, status: string) returns (traits: SwadeTraits)
    ensures fresh(traits)
    ensures traits.Value() == TraitsFor(archetype, culture, status)
  {
    traits := new SwadeTraits();
    ApplyBiologyTraits(traits, archetype);
    ApplyCultureTraits(traits, culture);
    ApplyStatusTraits(traits, status);
    var summary := GenerateMechanicalSummary(traits);
    traits.mechanicalSummary := summary;
  }
}
