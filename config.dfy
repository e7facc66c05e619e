/** The constant tables of the generator: the closed enumerations of
    archetypes, cultures, statuses, narrative roles and speeds, the context
    multipliers, the table file names and the export formats. */
module Config {

  // Species biological archetypes
  const Humanoid: string := "humanoid"
  const Avian: string := "avian"
  const Reptilian: string := "reptilian"
  const Insectoid: string := "insectoid"
  const Aquatic: string := "aquatic"
  const Energy: string := "energy"
  const Synthetic: string := "synthetic"
  const Hybrid: string := "hybrid"
  const Archetypes: seq<string> :=
    [Humanoid, Avian, Reptilian, Insectoid, Aquatic, Energy, Synthetic, Hybrid]

  // Cultural frameworks
  const Nomadic: string := "nomadic"
  const Corporate: string := "corporate"
  const Tribal: string := "tribal"
  const Academic: string := "academic"
  const Militant: string := "militant"
  const Mystic: string := "mystic"
  const Anarchist: string := "anarchist"
  const Cultures: seq<string> :=
    [Nomadic, Corporate, Tribal, Academic, Militant, Mystic, Anarchist]

  // Galactic political status
  const UcCore: string := "uc_core"
  const UcAdjacent: string := "uc_adjacent"
  const Independent: string := "independent"
  const Rogue: string := "rogue"
  const Extinct: string := "extinct"
  const Emerging: string := "emerging"
  const Statuses: seq<string> :=
    [UcCore, UcAdjacent, Independent, Rogue, Extinct, Emerging]

  // Narrative roles
  const Neutral: string := "neutral"
  const Ally: string := "ally"
  const Enemy: string := "enemy"
  const Mysterious: string := "mysterious"
  const Roles: seq<string> := [Neutral, Ally, Enemy, Mysterious]

  // Generation speeds
  const Fast: string := "fast"
  const Detailed: string := "detailed"
  const Speeds: seq<string> := [Fast, Detailed]

  /** The data files the table store loads, in load order. */
  const TableFiles: seq<string> :=
    ["biology.json", "culture.json", "status.json", "traits.json", "hooks.json", "naming.json"]

  // Hook categories
  const Political: string := "political"
  const MysteriousHooks: string := "mysterious"
  const Personal: string := "personal"
  const Resource: string := "resource"
  const Temporal: string := "temporal"
  const HookCategories: seq<string> := [Political, MysteriousHooks, Personal, Resource, Temporal]

  /** Role multipliers, key by key in declaration order. */
  const RoleMultipliers: map<string, seq<(string, real)>> := map[
    Enemy := [(Militant, 2.0), (Rogue, 1.5)],
    Ally := [(Academic, 1.5), (UcAdjacent, 1.5)],
    Mysterious := [(Energy, 2.0), (Mystic, 2.0)]
  ]

  /** Environment multipliers, key by key in declaration order. */
  const EnvironmentMultipliers: map<string, seq<(string, real)>> := map[
    "space" := [(Energy, 1.5), (Nomadic, 1.3)],
    "urban" := [(Corporate, 1.5), (UcCore, 1.3)],
    "planetary" := [(Humanoid, 1.2), (Tribal, 1.3)]
  ]

  // SWADE attribute names
  const AttributeNames: seq<string> := ["agility", "smarts", "spirit", "strength", "vigor"]

  // Export formats
  const Journal: string := "journal"
  const Csv: string := "csv"
  const Json: string := "json"
  const Handout: string := "handout"
  const ExportFormats: seq<string> := [Journal, Csv, Json, Handout]

  /** The number of the three value enumerations `k` belongs to. */
  function Memberships(k: string): nat {
    (if k in Archetypes then 1 else 0) + (if k in Cultures then 1 else 0) + (if k in Statuses then 1 else 0)
  }

  /** The archetype, culture and status values are pairwise disjoint. */
  lemma EnumerationsDisjoint()
    ensures forall k :: Memberships(k) <= 1
  {
  }

  predicate Distinct(xs: seq<string>) {
    forall i, j :: 0 <= i < j < |xs| ==> xs[i] != xs[j]
  }

  /** No enumeration lists a value twice. */
  lemma EnumerationsDistinct()
    ensures Distinct(Archetypes) && Distinct(Cultures) && Distinct(Statuses) && Distinct(Roles) && Distinct(Speeds)
  {
  }

  predicate WellFormedMultipliers(pairs: seq<(string, real)>) {
    && (forall i :: 0 <= i < |pairs| ==> Memberships(pairs[i].0) == 1 && pairs[i].1 > 1.0)
    && (forall i, j :: 0 <= i < j < |pairs| ==> pairs[i].0 != pairs[j].0)
  }

  lemma PairsWellFormed(k1: string, w1: real, k2: string, w2: real)
    requires Memberships(k1) == 1 && Memberships(k2) == 1 && w1 > 1.0 && w2 > 1.0 && k1 != k2
    ensures WellFormedMultipliers([(k1, w1), (k2, w2)])
  {
  }

  lemma RoleListWellFormed(r: string)
    requires r in RoleMultipliers
    ensures WellFormedMultipliers(RoleMultipliers[r])
  {
    if r == Enemy {
      PairsWellFormed(Militant, 2.0, Rogue, 1.5);
    } else if r == Ally {
      PairsWellFormed(Academic, 1.5, UcAdjacent, 1.5);
    } else {
      PairsWellFormed(Energy, 2.0, Mystic, 2.0);
    }
  }

  lemma EnvironmentListWellFormed(e: string)
    requires e in EnvironmentMultipliers
    ensures WellFormedMultipliers(EnvironmentMultipliers[e])
  {
    if e == "space" {
      PairsWellFormed(Energy, 1.5, Nomadic, 1.3);
    } else if e == "urban" {
      PairsWellFormed(Corporate, 1.5, UcCore, 1.3);
    } else {
      PairsWellFormed(Humanoid, 1.2, Tribal, 1.3);
    }
  }

  /** Every multiplier key is exactly one archetype, culture or status, every
      multiplier exceeds 1, and no list names a key twice. */
  lemma MultipliersWellFormed()
    ensures forall r :: r in RoleMultipliers ==> WellFormedMultipliers(RoleMultipliers[r])
    ensures forall e :: e in EnvironmentMultipliers ==> WellFormedMultipliers(EnvironmentMultipliers[e])
  {
    forall r | r in RoleMultipliers
      ensures WellFormedMultipliers(RoleMultipliers[r])
    {
      RoleListWellFormed(r);
    }
    forall e | e in EnvironmentMultipliers
      ensures WellFormedMultipliers(EnvironmentMultipliers[e])
    {
      EnvironmentListWellFormed(e);
    }
  }

  /** The neutral role and the vessel environment carry no multipliers. */
  lemma NeutralAndVesselContributeNothing()
    ensures Neutral !in RoleMultipliers && "vessel" !in EnvironmentMultipliers
    ensures RoleMultipliers.Keys == {Enemy, Ally, Mysterious}
  {
  }

  /** Exactly one of the four export formats is one the exporter rejects. */
  lemma HandoutIsListed()
    ensures Handout in ExportFormats && |ExportFormats| == 4
  {
  }
}
