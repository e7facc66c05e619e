/** The context analyser: it turns the requested narrative role and the
    active scene into three weight maps (biology, culture, status). Role
    multipliers are assigned, environment multipliers multiply the prior
    value, and two campaign nudges always multiply last. */
module ContextEngine {
  import opened JsValues
  import opened Strings
  import opened Config
  import opened Seeds

  // ---------------------------------------------------------------- weight maps

  /** The three weight maps a key can be routed to. */
  datatype Dim = Biology | Culture | Status

  /** The biology, culture and status multiplier maps. */
  datatype WeightMaps = WeightMaps(biology: map<string, real>, culture: map<string, real>, status: map<string, real>)

  const NoWeights: WeightMaps := WeightMaps(map[], map[], map[])

  /** The map a key belongs to: culture, then status, then archetype membership. */
  function Route(key: string): Option<Dim> {
    if key in Cultures then Some(Culture)
    else if key in Statuses then Some(Status)
    else if key in Archetypes then Some(Biology)
    else None
  }

  /** Because the three enumerations are disjoint, the routing order does not
      matter: a key goes to a map exactly when it belongs to that map's enumeration. */
  lemma RouteByMembership(key: string)
    ensures Route(key) == Some(Biology) <==> key in Archetypes
    ensures Route(key) == Some(Culture) <==> key in Cultures
    ensures Route(key) == Some(Status) <==> key in Statuses
  {
    EnumerationsDisjoint();
    assert Memberships(key) <= 1;
  }

  function MapOf(m: WeightMaps, d: Dim): map<string, real> {
    match d
    case Biology => m.biology
    case Culture => m.culture
    case Status => m.status
  }

  function WithMap(m: WeightMaps, d: Dim, v: map<string, real>): WeightMaps {
    match d
    case Biology => m.(biology := v)
    case Culture => m.(culture := v)
    case Status => m.(status := v)
  }

  /** `map[key] = weight` in the map the key routes to; an unrouted key is ignored. */
  function SetWeight(m: WeightMaps, pair: (string, real)): WeightMaps {
    match Route(pair.0)
    case None => m
    case Some(d) => WithMap(m, d, MapOf(m, d)[pair.0 := pair.1])
  }

  /** `(prior || 1) * weight` */
  function Multiplied(prior: Option<real>, weight: real): real {
    NumberOrOne(prior) * weight
  }

  /** `map[key] = (map[key] || 1) * weight` in the map the key routes to. */
  function MulWeight(m: WeightMaps, pair: (string, real)): WeightMaps {
    match Route(pair.0)
    case None => m
    case Some(d) => WithMap(m, d, MapOf(m, d)[pair.0 := Multiplied(Lookup(MapOf(m, d), pair.0), pair.1)])
  }

  /** `SetWeight` over the pairs in order. */
  function SetAll(m: WeightMaps, pairs: seq<(string, real)>): WeightMaps {
    if pairs == [] then m else SetWeight(SetAll(m, pairs[..|pairs| - 1]), pairs[|pairs| - 1])
  }

  /** `MulWeight` over the pairs in order. */
  function MulAll(m: WeightMaps, pairs: seq<(string, real)>): WeightMaps {
    if pairs == [] then m else MulWeight(MulAll(m, pairs[..|pairs| - 1]), pairs[|pairs| - 1])
  }

  lemma SetAllSnoc(m: WeightMaps, pairs: seq<(string, real)>, i: nat)
    requires i < |pairs|
    ensures SetAll(m, pairs[..i + 1]) == SetWeight(SetAll(m, pairs[..i]), pairs[i])
  {
    assert pairs[..i + 1][..i] == pairs[..i];
  }

  lemma MulAllSnoc(m: WeightMaps, pairs: seq<(string, real)>, i: nat)
    requires i < |pairs|
    ensures MulAll(m, pairs[..i + 1]) == MulWeight(MulAll(m, pairs[..i]), pairs[i])
  {
    assert pairs[..i + 1][..i] == pairs[..i];
  }

  /** Every key of every map belongs to that map's enumeration. */
  predicate Routed(m: WeightMaps) {
    && (forall k :: k in m.biology ==> k in Archetypes)
    && (forall k :: k in m.culture ==> k in Cultures)
    && (forall k :: k in m.status ==> k in Statuses)
  }

  predicate KeyOf(pairs: seq<(string, real)>, k: string) {
    exists i :: 0 <= i < |pairs| && pairs[i].0 == k
  }

  /** Assigning keeps the maps routed, and touches no key outside the pairs. */
  lemma {:induction false} SetAllRouted(m: WeightMaps, pairs: seq<(string, real)>)
    requires Routed(m)
    ensures Routed(SetAll(m, pairs))
    ensures forall d, k :: !KeyOf(pairs, k) ==> Lookup(MapOf(SetAll(m, pairs), d), k) == Lookup(MapOf(m, d), k)
  {
    if pairs != [] {
      var init := pairs[..|pairs| - 1];
      SetAllRouted(m, init);
      RouteByMembership(pairs[|pairs| - 1].0);
      forall k | KeyOf(init, k) ensures KeyOf(pairs, k) {
        var i :| 0 <= i < |init| && init[i].0 == k;
        assert pairs[i].0 == k;
      }
    }
  }

  /** Multiplying keeps the maps routed, and touches no key outside the pairs. */
  lemma {:induction false} MulAllRouted(m: WeightMaps, pairs: seq<(string, real)>)
    requires Routed(m)
    ensures Routed(MulAll(m, pairs))
    ensures forall d, k :: !KeyOf(pairs, k) ==> Lookup(MapOf(MulAll(m, pairs), d), k) == Lookup(MapOf(m, d), k)
  {
    if pairs != [] {
      var init := pairs[..|pairs| - 1];
      MulAllRouted(m, init);
      RouteByMembership(pairs[|pairs| - 1].0);
      forall k | KeyOf(init, k) ensures KeyOf(pairs, k) {
        var i :| 0 <= i < |init| && init[i].0 == k;
        assert pairs[i].0 == k;
      }
    }
  }

  /** With distinct keys, each pair's key ends up holding exactly its weight. */
  lemma {:induction false} SetAllAt(m: WeightMaps, pairs: seq<(string, real)>, i: nat)
    requires i < |pairs| && Route(pairs[i].0).Some?
    requires forall a, b :: 0 <= a < b < |pairs| ==> pairs[a].0 != pairs[b].0
    ensures Lookup(MapOf(SetAll(m, pairs), Route(pairs[i].0).value), pairs[i].0) == Some(pairs[i].1)
  {
    var n := |pairs| - 1;
    if i < n {
      SetAllAt(m, pairs[..n], i);
    }
  }

  /** With distinct keys, each pair's key ends up holding its prior value (or 1) times its weight. */
  lemma {:induction false} MulAllAt(m: WeightMaps, pairs: seq<(string, real)>, i: nat)
    requires i < |pairs| && Route(pairs[i].0).Some?
    requires forall a, b :: 0 <= a < b < |pairs| ==> pairs[a].0 != pairs[b].0
    ensures var d := Route(pairs[i].0).value;
      Lookup(MapOf(MulAll(m, pairs), d), pairs[i].0) == Some(Multiplied(Lookup(MapOf(m, d), pairs[i].0), pairs[i].1))
  {
    var n := |pairs| - 1;
    var d := Route(pairs[i].0).value;
    if i < n {
      MulAllAt(m, pairs[..n], i);
      assert MapOf(MulAll(m, pairs), d)[pairs[i].0] == MapOf(MulAll(m, pairs[..n]), d)[pairs[i].0];
    } else {
      var init := pairs[..n];
      forall a | 0 <= a < |init| ensures init[a].0 != pairs[i].0 {
        assert init[a] == pairs[a];
      }
      assert !KeyOf(init, pairs[i].0);
      LookupUntouched(m, init, d, pairs[i].0);
      var prev := MulAll(m, init);
      assert MulAll(m, pairs) == MulWeight(prev, pairs[n]);
      assert MapOf(MulWeight(prev, pairs[n]), d) ==
        MapOf(prev, d)[pairs[n].0 := Multiplied(Lookup(MapOf(prev, d), pairs[n].0), pairs[n].1)];
    }
  }

  lemma {:induction false} LookupUntouched(m: WeightMaps, pairs: seq<(string, real)>, d: Dim, k: string)
    requires !KeyOf(pairs, k)
    ensures Lookup(MapOf(MulAll(m, pairs), d), k) == Lookup(MapOf(m, d), k)
  {
    if pairs != [] {
      var init := pairs[..|pairs| - 1];
      LookupUntouched(m, init, d, k);
    }
  }

  // ---------------------------------------------------------------- the three passes

  /** The maps after `applyRoleWeights(context, role)`: an absent or empty
      role, or one without multipliers, leaves them as they were. */
  function RoleSpec(m: WeightMaps, role: Option<string>): WeightMaps {
    if !Truthy(role) || role.value !in RoleMultipliers then m else SetAll(m, RoleMultipliers[role.value])
  }

  /** The maps after `applyEnvironmentWeights(context, environment)`. */
  function EnvironmentSpec(m: WeightMaps, environment: string): WeightMaps {
    if environment !in EnvironmentMultipliers then m else MulAll(m, EnvironmentMultipliers[environment])
  }

  /** The maps after `applyCampaignWeights(context)`. */
  function CampaignSpec(m: WeightMaps): WeightMaps {
    MulAll(m, [(UcAdjacent, 1.2), (Nomadic, 1.1)])
  }

  /** Role multipliers are assigned: after the pass each configured key holds
      exactly its multiplier, and nothing else changes. */
  lemma RolePassAssigns(m: WeightMaps, role: string, i: nat)
    requires role in RoleMultipliers && i < |RoleMultipliers[role]|
    ensures var (k, w) := RoleMultipliers[role][i];
      Route(k).Some? && Lookup(MapOf(RoleSpec(m, Some(role)), Route(k).value), k) == Some(w)
  {
    RoleListWellFormed(role);
    var pairs := RoleMultipliers[role];
    RouteByMembership(pairs[i].0);
    SetAllAt(m, pairs, i);
  }

  /** Environment multipliers multiply: after the pass each configured key
      holds its prior value (1 when absent or 0) times its multiplier. */
  lemma EnvironmentPassMultiplies(m: WeightMaps, environment: string, i: nat)
    requires environment in EnvironmentMultipliers && i < |EnvironmentMultipliers[environment]|
    ensures var (k, w) := EnvironmentMultipliers[environment][i];
      Route(k).Some? &&
      Lookup(MapOf(EnvironmentSpec(m, environment), Route(k).value), k) ==
        Some(Multiplied(Lookup(MapOf(m, Route(k).value), k), w))
  {
    EnvironmentListWellFormed(environment);
    var pairs := EnvironmentMultipliers[environment];
    RouteByMembership(pairs[i].0);
    MulAllAt(m, pairs, i);
  }

  /** The campaign pass multiplies uc_adjacent by 1.2 and nomadic by 1.1 and
      changes no other key. */
  lemma CampaignPassEffect(m: WeightMaps)
    ensures CampaignSpec(m).status == m.status[UcAdjacent := Multiplied(Lookup(m.status, UcAdjacent), 1.2)]
    ensures CampaignSpec(m).culture == m.culture[Nomadic := Multiplied(Lookup(m.culture, Nomadic), 1.1)]
    ensures CampaignSpec(m).biology == m.biology
  {
    var p: seq<(string, real)> := [(UcAdjacent, 1.2), (Nomadic, 1.1)];
    RouteByMembership(UcAdjacent);
    RouteByMembership(Nomadic);
    assert |p[..1][..0]| == 0 && p[..1] == [p[0]];
    var first := MulWeight(m, p[0]);
    assert MulAll(m, p[..1]) == first;
    assert first == m.(status := m.status[UcAdjacent := Multiplied(Lookup(m.status, UcAdjacent), 1.2)]);
    assert MulAll(m, p) == MulWeight(first, p[1]);
  }

  /** Every pass keeps the maps routed: the biology map only ever receives
      archetype keys, and likewise for culture and status. */
  lemma PassesKeepRouting(m: WeightMaps, role: Option<string>, environment: string)
    requires Routed(m)
    ensures Routed(RoleSpec(m, role))
    ensures Routed(EnvironmentSpec(m, environment))
    ensures Routed(CampaignSpec(m))
  {
    if Truthy(role) && role.value in RoleMultipliers {
      SetAllRouted(m, RoleMultipliers[role.value]);
    }
    if environment in EnvironmentMultipliers {
      MulAllRouted(m, EnvironmentMultipliers[environment]);
    }
    MulAllRouted(m, [(UcAdjacent, 1.2), (Nomadic, 1.1)]);
  }

  // ---------------------------------------------------------------- scenes

  /** A scene field as the host holds it: missing (null or undefined), a
      string, or another value together with its `String(value)` rendering. */
  datatype SceneField = Missing | Text(s: string) | Other(rendered: string)

  datatype Scene = Scene(name: SceneField, notes: SceneField)

  /** `{type, tags, implications}` */
  datatype SceneEnvironment = SceneEnvironment(kind: string, tags: seq<string>, implications: seq<string>)

  const UnknownEnvironment: SceneEnvironment := SceneEnvironment("unknown", [], [])

  /** `safeStringify(value)`: missing gives '', anything else its lower-cased rendering. */
  function SafeStringify(v: SceneField): (r: string)
    ensures IsLower(r)
    ensures v.Missing? ==> r == ""
    ensures v.Text? ==> r == Lower(v.s)
  {
    match v
    case Missing => ""
    case Text(s) => Lower(s)
    case Other(rendered) => Lower(rendered)
  }

  /** `matchesKeywords(text, keywords)`: some keyword occurs in the text. */
  function MatchesKeywords(text: string, keywords: seq<string>): (b: bool)
    ensures b <==> exists i :: 0 <= i < |keywords| && Contains(text, keywords[i])
  {
    if keywords == [] then false
    else if Contains(text, keywords[0]) then true
    else
      var rest := MatchesKeywords(text, keywords[1..]);
      assert forall i :: 1 <= i < |keywords| ==> keywords[i] == keywords[1..][i - 1];
      rest
  }

  /** The environment groups in the order they are tried: type, keywords, tags. */
  const EnvironmentGroups: seq<(string, seq<string>, seq<string>)> := [
    ("space", ["space", "void", "vacuum", "orbit"], ["zero-g", "vacuum", "artificial"]),
    ("urban", ["city", "station", "urban", "colony"], ["civilized", "crowded", "technological"]),
    ("planetary", ["planet", "surface", "world", "ground"], ["natural", "varied", "territorial"]),
    ("vessel", ["ship", "vessel", "craft", "bridge"], ["confined", "mobile", "crew-based"])
  ]

  /** The first group from `i` on whose keywords occur in the text. */
  function FirstGroup(text: string, i: nat): (g: Option<nat>)
    ensures g.Some? ==> i <= g.value < |EnvironmentGroups| && MatchesKeywords(text, EnvironmentGroups[g.value].1)
    ensures g.Some? ==> forall j :: i <= j < g.value ==> !MatchesKeywords(text, EnvironmentGroups[j].1)
    ensures g.None? ==> forall j :: i <= j < |EnvironmentGroups| ==> !MatchesKeywords(text, EnvironmentGroups[j].1)
    decreases |EnvironmentGroups| - i
  {
    if i >= |EnvironmentGroups| then None
    else if MatchesKeywords(text, EnvironmentGroups[i].1) then Some(i)
    else FirstGroup(text, i + 1)
  }

  /** The combined text the keywords are searched in: `${name} ${notes}`. */
  function SceneText(scene: Scene): (t: string)
    ensures IsLower(t)
  {
    SafeStringify(scene.name) + " " + SafeStringify(scene.notes)
  }

  /** What `analyzeSceneEnvironment(scene)` returns. */
  function SceneSpec(scene: Option<Scene>): SceneEnvironment {
    if scene.None? then UnknownEnvironment
    else
      match FirstGroup(SceneText(scene.value), 0)
      case None => UnknownEnvironment
      case Some(g) => SceneEnvironment(EnvironmentGroups[g].0, EnvironmentGroups[g].2, [])
  }

  /** The four group names differ from each other and from 'unknown'. */
  lemma GroupKindsDistinct()
    ensures forall i, j :: 0 <= i < j < |EnvironmentGroups| ==> EnvironmentGroups[i].0 != EnvironmentGroups[j].0
    ensures forall i :: 0 <= i < |EnvironmentGroups| ==> EnvironmentGroups[i].0 != "unknown"
  {
    assert EnvironmentGroups[0].0 == "space" && EnvironmentGroups[1].0 == "urban";
    assert EnvironmentGroups[2].0 == "planetary" && EnvironmentGroups[3].0 == "vessel";
  }

  /** The scene type is the first group, in the order space, urban, planetary,
      vessel, with a keyword in the scene's text, and 'unknown' when none has
      one (or there is no scene); the tags are that group's three tags. */
  lemma SceneTypeIsFirstMatch(scene: Scene, g: nat)
    requires g < |EnvironmentGroups|
    ensures SceneSpec(Some(scene)).kind == EnvironmentGroups[g].0 <==>
      MatchesKeywords(SceneText(scene), EnvironmentGroups[g].1) &&
      forall j :: 0 <= j < g ==> !MatchesKeywords(SceneText(scene), EnvironmentGroups[j].1)
    ensures SceneSpec(Some(scene)).kind == "unknown" <==>
      forall j :: 0 <= j < |EnvironmentGroups| ==> !MatchesKeywords(SceneText(scene), EnvironmentGroups[j].1)
  {
    GroupKindsDistinct();
    var t := SceneText(scene);
    match FirstGroup(t, 0)
    case None =>
    case Some(c) =>
      if MatchesKeywords(t, EnvironmentGroups[g].1) && forall j :: 0 <= j < g ==> !MatchesKeywords(t, EnvironmentGroups[j].1) {
        assert c == g;
      }
  }

  /** Matching ignores case: a scene named in capitals or in lower case is
      classified the same. */
  lemma SceneMatchingIgnoresCase(name: string, notes: SceneField)
    ensures SceneSpec(Some(Scene(Text(name), notes))) == SceneSpec(Some(Scene(Text(Lower(name)), notes)))
  {
    LowerOfLower(Lower(name));
  }

  lemma FirstGroupUnrolled(t: string)
    ensures FirstGroup(t, 0) ==
      if MatchesKeywords(t, EnvironmentGroups[0].1) then Some(0)
      else if MatchesKeywords(t, EnvironmentGroups[1].1) then Some(1)
      else if MatchesKeywords(t, EnvironmentGroups[2].1) then Some(2)
      else if MatchesKeywords(t, EnvironmentGroups[3].1) then Some(3)
      else None
  {
    assert FirstGroup(t, 4) == None;
  }

  lemma SceneOfGroup(scene: Scene, g: Option<nat>)
    requires FirstGroup(SceneText(scene), 0) == g
    ensures g.None? ==> SceneSpec(Some(scene)) == UnknownEnvironment
    ensures g.Some? ==> SceneSpec(Some(scene)) == SceneEnvironment(EnvironmentGroups[g.value].0, [] + EnvironmentGroups[g.value].2, [])
  {
  }

  /** `analyzeSceneEnvironment(scene)`, trying the four groups in order. */
  method AnalyzeSceneEnvironment(scene: Option<Scene>) returns (environment: SceneEnvironment)
    ensures environment == SceneSpec(scene)
  {
    environment := UnknownEnvironment;
    if scene.None? {
      return;
    }
    var sceneName := SafeStringify(scene.value.name);
    var sceneNotes := SafeStringify(scene.value.notes);
    var combinedText := sceneName + " " + sceneNotes;
    assert combinedText == SceneText(scene.value);
    FirstGroupUnrolled(combinedText);
    SceneOfGroup(scene.value, FirstGroup(combinedText, 0));
    if MatchesKeywords(combinedText, EnvironmentGroups[0].1) {
      environment := environment.(kind := EnvironmentGroups[0].0);
      environment := environment.(tags := environment.tags + EnvironmentGroups[0].2);
    } else if MatchesKeywords(combinedText, EnvironmentGroups[1].1) {
      environment := environment.(kind := EnvironmentGroups[1].0);
      environment := environment.(tags := environment.tags + EnvironmentGroups[1].2);
    } else if MatchesKeywords(combinedText, EnvironmentGroups[2].1) {
      environment := environment.(kind := EnvironmentGroups[2].0);
      environment := environment.(tags := environment.tags + EnvironmentGroups[2].2);
    } else if MatchesKeywords(combinedText, EnvironmentGroups[3].1) {
      environment := environment.(kind := EnvironmentGroups[3].0);
      environment := environment.(tags := environment.tags + EnvironmentGroups[3].2);
    }
  }

  // ---------------------------------------------------------------- the analysis

  /** The weight maps `analyzeContext(seed)` produces with `activeScene` as `game.scenes.active`. */
  function AnalyzeWeights(role: Option<string>, activeScene: Option<Scene>): WeightMaps {
    var afterRole := RoleSpec(NoWeights, role);
    var afterEnvironment := if activeScene.Some? then EnvironmentSpec(afterRole, SceneSpec(activeScene).kind) else afterRole;
    CampaignSpec(afterEnvironment)
  }

  /** The analysed maps are always routed. */
  lemma AnalyzedWeightsRouted(role: Option<string>, activeScene: Option<Scene>)
    ensures Routed(AnalyzeWeights(role, activeScene))
  {
    var afterRole := RoleSpec(NoWeights, role);
    PassesKeepRouting(NoWeights, role, "");
    PassesKeepRouting(afterRole, None, SceneSpec(activeScene).kind);
    var afterEnvironment := if activeScene.Some? then EnvironmentSpec(afterRole, SceneSpec(activeScene).kind) else afterRole;
    PassesKeepRouting(afterEnvironment, None, "");
  }

  /** With no role and no scene only the campaign nudges remain. */
  lemma NeutralWithoutScene(role: Option<string>)
    requires role == None || role == Some(Neutral)
    ensures AnalyzeWeights(role, None) == WeightMaps(map[], map[Nomadic := 1.1], map[UcAdjacent := 1.2])
  {
    NeutralAndVesselContributeNothing();
    CampaignPassEffect(NoWeights);
  }

  /** The ally role sets uc_adjacent to 1.5, which the campaign nudge raises to 1.8. */
  lemma AllyRaisesUcAdjacent()
    ensures Lookup(AnalyzeWeights(Some(Ally), None).status, UcAdjacent) == Some(1.8)
    ensures Lookup(AnalyzeWeights(Some(Ally), None).culture, Academic) == Some(1.5)
  {
    var afterRole := RoleSpec(NoWeights, Some(Ally));
    RolePassAssigns(NoWeights, Ally, 0);
    RolePassAssigns(NoWeights, Ally, 1);
    RouteByMembership(Academic);
    RouteByMembership(UcAdjacent);
    CampaignPassEffect(afterRole);
  }

  /** In a space scene the mysterious role's energy multiplier 2.0 is
      multiplied by the environment's 1.5, giving 3.0. */
  lemma MysteriousInSpace(scene: Scene)
    requires SceneSpec(Some(scene)).kind == "space"
    ensures Lookup(AnalyzeWeights(Some(Mysterious), Some(scene)).biology, Energy) == Some(3.0)
  {
    var afterRole := RoleSpec(NoWeights, Some(Mysterious));
    RolePassAssigns(NoWeights, Mysterious, 0);
    RouteByMembership(Energy);
    EnvironmentPassMultiplies(afterRole, "space", 0);
    CampaignPassEffect(EnvironmentSpec(afterRole, "space"));
  }

  // ---------------------------------------------------------------- the context object

  /** The context object the generator reads its weights from. */
  class Context {
    var biologyWeights: map<string, real>
    var cultureWeights: map<string, real>
    var statusWeights: map<string, real>
    var narrativeRole: string
    var environment: Option<string>
    var sceneContext: Option<SceneEnvironment>

    function Weights(): WeightMaps
      reads this
    {
      WeightMaps(biologyWeights, cultureWeights, statusWeights)
    }

    /** Every weight is filed under the map of its key's enumeration. */
    ghost predicate Valid()
      reads this
    {
      Routed(Weights())
    }

    constructor (role: string)
      ensures Valid() && Weights() == NoWeights
      ensures narrativeRole == role && environment == None && sceneContext == None
    {
      biologyWeights := map[];
      cultureWeights := map[];
      statusWeights := map[];
      narrativeRole := role;
      environment := None;
      sceneContext := None;
    }
  }

  /** `applyRoleWeights(context, role)` */
  method ApplyRoleWeights(context: Context, role: Option<string>)
    requires context.Valid()
    modifies context`biologyWeights, context`cultureWeights, context`statusWeights
    ensures context.Valid()
    ensures context.Weights() == RoleSpec(old(context.Weights()), role)
  {
    PassesKeepRouting(context.Weights(), role, "");
    if !Truthy(role) || role.value !in RoleMultipliers {
      return;
    }
    var roleWeights := RoleMultipliers[role.value];
    var i := 0;
    while i < |roleWeights|
      invariant 0 <= i <= |roleWeights|
      invariant context.Weights() == SetAll(old(context.Weights()), roleWeights[..i])
    {
      var (key, weight) := roleWeights[i];
      SetAllSnoc(old(context.Weights()), roleWeights, i);
      if key in Cultures {
        context.cultureWeights := context.cultureWeights[key := weight];
      } else if key in Statuses {
        context.statusWeights := context.statusWeights[key := weight];
      } else if key in Archetypes {
        context.biologyWeights := context.biologyWeights[key := weight];
      }
      i := i + 1;
    }
    assert roleWeights[..i] == roleWeights;
  }

  /** `applyEnvironmentWeights(context, environment)` */
  method ApplyEnvironmentWeights(context: Context, environment: string)
    requires context.Valid()
    modifies context`biologyWeights, context`cultureWeights, context`statusWeights
    ensures context.Valid()
    ensures context.Weights() == EnvironmentSpec(old(context.Weights()), environment)
  {
    PassesKeepRouting(context.Weights(), None, environment);
    if environment !in EnvironmentMultipliers {
      return;
    }
    var envWeights := EnvironmentMultipliers[environment];
    var i := 0;
    while i < |envWeights|
      invariant 0 <= i <= |envWeights|
      invariant context.Weights() == MulAll(old(context.Weights()), envWeights[..i])
    {
      var (key, weight) := envWeights[i];
      MulAllSnoc(old(context.Weights()), envWeights, i);
      if key in Cultures {
        context.cultureWeights := context.cultureWeights[key := Multiplied(Lookup(context.cultureWeights, key), weight)];
      } else if key in Statuses {
        context.statusWeights := context.statusWeights[key := Multiplied(Lookup(context.statusWeights, key), weight)];
      } else if key in Archetypes {
        context.biologyWeights := context.biologyWeights[key := Multiplied(Lookup(context.biologyWeights, key), weight)];
      }
      i := i + 1;
    }
    assert envWeights[..i] == envWeights;
  }

  /** `applyCampaignWeights(context)` */
  method ApplyCampaignWeights(context: Context)
    requires context.Valid()
    modifies context`cultureWeights, context`statusWeights
    ensures context.Valid()
    ensures context.Weights() == CampaignSpec(old(context.Weights()))
  {
    PassesKeepRouting(context.Weights(), None, "");
    CampaignPassEffect(context.Weights());
    context.statusWeights := context.statusWeights[UcAdjacent := Multiplied(Lookup(context.statusWeights, UcAdjacent), 1.2)];
    context.cultureWeights := context.cultureWeights[Nomadic := Multiplied(Lookup(context.cultureWeights, Nomadic), 1.1)];
  }

  /** `analyzeContext(seed)` with `activeScene` as `game.scenes.active`. */
  method AnalyzeContext(seed: Seed, activeScene: Option<Scene>) returns (context: Context)
    ensures fresh(context) && context.Valid()
    ensures context.narrativeRole == OrElse(seed.role, Neutral)
    ensures context.sceneContext == (if activeScene.Some? then Some(SceneSpec(activeScene)) else None)
    ensures context.environment == (if activeScene.Some? then Some(SceneSpec(activeScene).kind) else None)
    ensures context.Weights() == AnalyzeWeights(seed.role, activeScene)
  {
    context := new Context(OrElse(seed.role, Neutral));
    if activeScene.Some? {
      var sceneContext := AnalyzeSceneEnvironment(activeScene);
      context.sceneContext := Some(sceneContext);
      context.environment := Some(sceneContext.kind);
    }
    ApplyRoleWeights(context, seed.role);
    if context.environment.Some? && context.environment.value != "" {
      ApplyEnvironmentWeights(context, context.environment.value);
    }
    ApplyCampaignWeights(context);
  }
}
