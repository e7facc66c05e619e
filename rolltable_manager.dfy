/** The weighted table store: a name-to-table map filled once by a latched
    load (with a synthesized fallback for each table that fails to load), a
    weighted roll by running totals, and a multiple roll that drops repeated keys. */
module RollTables {
  import opened JsValues
  import opened Strings
  import opened Config

  /** One entry of an entries table. Every field but `key` may be missing. */
  datatype Entry = Entry(
    key: string,
    name: Option<string>,
    weight: Option<real>,
    description: Option<string>,
    values: Option<seq<string>>,
    structure: Option<string>,
    interactionStyle: Option<string>,
    commonRoles: Option<seq<string>>)

  /** A naming pattern: the prefix and suffix lists a name is drawn from. */
  datatype Pattern = Pattern(prefixes: seq<string>, suffixes: seq<string>)

  /** A loaded table document: its display name, its `entries` array if it
      has one, its fields that hold lists of strings (the shape of the traits
      and hooks tables, keyed by archetype or hook category) and its
      `patterns` object if it has one (the naming table). */
  datatype Table = Table(
    title: Option<string>,
    entries: Option<seq<Entry>>,
    lists: map<string, seq<string>>,
    patterns: Option<map<string, Pattern>>)

  /** The entry a roll on a missing or entry-less table yields. */
  const Sentinel: Entry := Entry("unknown", Some("Unknown"), Some(1.0), None, None, None, None, None)

  /** The names the six table files are stored under. */
  const TableNames: seq<string> := ["biology", "culture", "status", "traits", "hooks", "naming"]

  /** `file.replace('.json', '')` */
  function Stem(file: string): string {
    ReplaceFirst(file, ".json", "")
  }

  lemma StemOf(base: string)
    requires '.' !in base
    ensures Stem(base + ".json") == base
  {
    ReplaceFirstSkips(base, ".json", ".json", "");
    assert ".json"[5..] == "";
  }

  lemma BiologyStem() ensures Stem("biology.json") == "biology" {
    StemOf("biology");
    assert "biology" + ".json" == "biology.json";
  }

  lemma CultureStem() ensures Stem("culture.json") == "culture" {
    StemOf("culture");
    assert "culture" + ".json" == "culture.json";
  }

  lemma StatusStem() ensures Stem("status.json") == "status" {
    StemOf("status");
    assert "status" + ".json" == "status.json";
  }

  lemma TraitsStem() ensures Stem("traits.json") == "traits" {
    StemOf("traits");
    assert "traits" + ".json" == "traits.json";
  }

  lemma HooksStem() ensures Stem("hooks.json") == "hooks" {
    StemOf("hooks");
    assert "hooks" + ".json" == "hooks.json";
  }

  lemma NamingStem() ensures Stem("naming.json") == "naming" {
    StemOf("naming");
    assert "naming" + ".json" == "naming.json";
  }

  /** The six table files are stored under the six distinct table names. */
  lemma TableFileStems()
    ensures |TableFiles| == |TableNames| == 6
    ensures forall i :: 0 <= i < 6 ==> Stem(TableFiles[i]) == TableNames[i]
    ensures forall i, j :: 0 <= i < j < 6 ==> TableNames[i] != TableNames[j]
  {
    forall i | 0 <= i < 6
      ensures Stem(TableFiles[i]) == TableNames[i]
    {
      if i == 0 {
        BiologyStem();
      } else if i == 1 {
        CultureStem();
      } else if i == 2 {
        StatusStem();
      } else if i == 3 {
        TraitsStem();
      } else if i == 4 {
        HooksStem();
      } else {
        NamingStem();
      }
    }
  }

  function EntriesTable(title: string, entries: seq<Entry>): Table {
    Table(Some(title), Some(entries), map[], None)
  }

  /** The minimal table that stands in for a table file that failed to load. */
  function CreateFallbackTable(filename: string): Table {
    var name := Stem(filename);
    if name == "biology" then
      EntriesTable("Biology Fallback",
        [Entry(Humanoid, Some("Humanoid"), Some(1.0), Some("Basic humanoid form"), None, None, None, None)])
    else if name == "culture" then
      EntriesTable("Culture Fallback",
        [Entry(Nomadic, Some("Nomadic"), Some(1.0), None, Some(["freedom"]), None, Some("friendly"), None)])
    else if name == "status" then
      EntriesTable("Status Fallback",
        [Entry(Independent, Some("Independent"), Some(1.0), Some("Self-governing"), None, None, None, None)])
    else if name == "traits" then
      Table(None, None, map[
        Humanoid := ["Standard appearance", "Typical proportions"],
        Avian := ["Feathered", "Sharp eyes"],
        Reptilian := ["Scaled skin", "Cold-blooded"]], None)
    else if name == "hooks" then
      Table(None, None, map[
        Political := ["Unknown political situation"],
        MysteriousHooks := ["Mysterious origins"],
        Personal := ["Unknown personal motivations"]], None)
    else if name == "naming" then
      Table(None, None, map[], Some(map["default" := Pattern(["Gen", "Neo", "Zet"], ["ari", "ons", "ids"])]))
    else
      Table(None, Some([]), map[], None)
  }

  predicate SingleUnitEntry(t: Table, key: string) {
    t.entries.Some? && |t.entries.value| == 1 &&
    t.entries.value[0].key == key && t.entries.value[0].weight == Some(1.0)
  }

  /** The biology, culture and status fallbacks hold one entry of weight 1
      (humanoid, nomadic, independent); a name outside the six gives an
      empty entries list and nothing else. */
  lemma FallbackShapes(base: string)
    requires '.' !in base
    ensures base == "biology" ==> SingleUnitEntry(CreateFallbackTable(base + ".json"), Humanoid)
    ensures base == "culture" ==> SingleUnitEntry(CreateFallbackTable(base + ".json"), Nomadic)
    ensures base == "status" ==> SingleUnitEntry(CreateFallbackTable(base + ".json"), Independent)
    ensures base !in TableNames ==> CreateFallbackTable(base + ".json") == Table(None, Some([]), map[], None)
  {
    StemOf(base);
  }

  /** What one table file contributes to the store: its fetched data, or its fallback. */
  function LoadOne(file: string, outcomes: map<string, Table>): Table {
    if file in outcomes then outcomes[file] else CreateFallbackTable(file)
  }

  /** The tables stored after loading `files` in order. */
  function LoadAll(files: seq<string>, outcomes: map<string, Table>): map<string, Table> {
    if files == [] then map[]
    else LoadAll(files[..|files| - 1], outcomes)[Stem(files[|files| - 1]) := LoadOne(files[|files| - 1], outcomes)]
  }

  lemma LoadAllSnoc(files: seq<string>, outcomes: map<string, Table>, n: nat)
    requires n < |files|
    ensures LoadAll(files[..n + 1], outcomes) == LoadAll(files[..n], outcomes)[Stem(files[n]) := LoadOne(files[n], outcomes)]
  {
    assert files[..n + 1][..n] == files[..n];
  }

  lemma MergeIntoEmpty(m: map<string, Table>)
    ensures map[] + m == m
  {
  }

  lemma UpdateAfterMerge(a: map<string, Table>, b: map<string, Table>, k: string, v: Table)
    ensures (a + b)[k := v] == a + b[k := v]
  {
  }

  lemma {:induction false} LoadAllAt(files: seq<string>, outcomes: map<string, Table>, i: nat)
    requires i < |files|
    requires forall a, b :: 0 <= a < b < |files| ==> Stem(files[a]) != Stem(files[b])
    ensures Stem(files[i]) in LoadAll(files, outcomes)
    ensures LoadAll(files, outcomes)[Stem(files[i])] == LoadOne(files[i], outcomes)
  {
    if i < |files| - 1 {
      LoadAllAt(files[..|files| - 1], outcomes, i);
    }
  }

  lemma {:induction false} LoadAllKeys(files: seq<string>, outcomes: map<string, Table>, k: string)
    ensures k in LoadAll(files, outcomes) <==> exists i :: 0 <= i < |files| && Stem(files[i]) == k
  {
    if files != [] {
      var init := files[..|files| - 1];
      LoadAllKeys(init, outcomes, k);
      if k in LoadAll(init, outcomes) {
        var i :| 0 <= i < |init| && Stem(init[i]) == k;
        assert Stem(files[i]) == k;
      }
    }
  }

  /** After a load exactly the six table names are present, each holding the
      fetched data when the fetch succeeded and the fallback table otherwise. */
  lemma LoadedTablesComplete(outcomes: map<string, Table>)
    ensures forall k :: k in LoadAll(TableFiles, outcomes) <==> k in TableNames
    ensures forall i :: 0 <= i < 6 ==>
      TableNames[i] in LoadAll(TableFiles, outcomes) &&
      LoadAll(TableFiles, outcomes)[TableNames[i]] == LoadOne(TableFiles[i], outcomes)
  {
    TableFileStems();
    forall k ensures k in LoadAll(TableFiles, outcomes) <==> k in TableNames {
      LoadAllKeys(TableFiles, outcomes, k);
    }
    forall i | 0 <= i < 6
      ensures TableNames[i] in LoadAll(TableFiles, outcomes) &&
        LoadAll(TableFiles, outcomes)[TableNames[i]] == LoadOne(TableFiles[i], outcomes)
    {
      LoadAllAt(TableFiles, outcomes, i);
    }
  }

  // ---------------------------------------------------------------- weighted roll

  /** `(entry.weight || 1) * (weights[entry.key] || 1)` */
  function EffectiveWeight(e: Entry, weights: map<string, real>): real {
    NumberOrOne(e.weight) * NumberOrOne(Lookup(weights, e.key))
  }

  /** The entries with every field but the weight kept; the new weight is
      the base weight times the multiplier for the key, either of them
      counting as 1 when it is missing or 0. */
  function Reweighted(entries: seq<Entry>, weights: map<string, real>): (ws: seq<Entry>)
    ensures |ws| == |entries|
    ensures forall i :: 0 <= i < |ws| ==> ws[i].(weight := entries[i].weight) == entries[i]
    ensures forall i :: 0 <= i < |ws| ==>
      (var base := entries[i].weight;
       var key := entries[i].key;
       ws[i].weight.Some? &&
       ws[i].weight.value ==
         (if base.None? || base.value == 0.0 then 1.0 else base.value) *
         (if key !in weights || weights[key] == 0.0 then 1.0 else weights[key]))
  {
    seq(|entries|, i requires 0 <= i < |entries| => entries[i].(weight := Some(EffectiveWeight(entries[i], weights))))
  }

  function WeightsOf(entries: seq<Entry>, weights: map<string, real>): (w: seq<real>)
    ensures |w| == |entries|
    ensures forall i :: 0 <= i < |w| ==> w[i] == EffectiveWeight(entries[i], weights)
  {
    seq(|entries|, i requires 0 <= i < |entries| => EffectiveWeight(entries[i], weights))
  }

  function Sum(w: seq<real>): real {
    if w == [] then 0.0 else Sum(w[..|w| - 1]) + w[|w| - 1]
  }

  /** The running total through entry `j`. */
  function Upto(w: seq<real>, j: nat): real
    requires j < |w|
  {
    Sum(w[..j + 1])
  }

  lemma UptoStep(w: seq<real>, j: nat)
    requires j < |w|
    ensures Upto(w, j) == Sum(w[..j]) + w[j]
  {
    assert w[..j + 1][..j] == w[..j];
  }

  lemma UptoLast(w: seq<real>)
    requires |w| > 0
    ensures Upto(w, |w| - 1) == Sum(w)
  {
    assert w[..|w|] == w;
  }

  /** The first index `j >= i` whose running total reaches `roll`: the entry
      the walk `currentWeight += weight; if (roll <= currentWeight)` stops at. */
  function Covering(w: seq<real>, roll: real, i: nat): (r: Option<nat>)
    ensures r.Some? ==> i <= r.value < |w| && roll <= Upto(w, r.value)
    ensures r.Some? ==> forall j :: i <= j < r.value ==> roll > Upto(w, j)
    ensures r.None? ==> forall j :: i <= j < |w| ==> roll > Upto(w, j)
    decreases |w| - i
  {
    if i >= |w| then None
    else if roll <= Upto(w, i) then Some(i)
    else Covering(w, roll, i + 1)
  }

  lemma CoveringStep(w: seq<real>, roll: real, i: nat)
    requires i < |w|
    ensures roll <= Upto(w, i) ==> Covering(w, roll, i) == Some(i)
    ensures roll > Upto(w, i) ==> Covering(w, roll, i) == Covering(w, roll, i + 1)
  {
  }

  /** The index the roll returns: the covering index, or the last entry. */
  function ChosenIndex(w: seq<real>, roll: real): (i: nat)
    requires |w| > 0
    ensures i < |w|
  {
    match Covering(w, roll, 0)
    case Some(i) => i
    case None => |w| - 1
  }

  /** `Math.random() * totalWeight` */
  function RollPoint(u: Unit, total: real): real {
    u * total
  }

  lemma RollPointInRange(u: Unit, total: real)
    requires total >= 0.0
    ensures 0.0 <= RollPoint(u, total) <= total
  {
    if total > 0.0 {
      assert u * total < 1.0 * total;
    }
  }

  /** What `rollWeighted(name, weights)` returns when Math.random() yields `u`;
      None is `undefined`, the result of an empty entries list. */
  function RollSpec(tables: map<string, Table>, name: string, weights: map<string, real>, u: Unit): Option<Entry> {
    if name !in tables || tables[name].entries.None? then Some(Sentinel)
    else
      var entries := tables[name].entries.value;
      if entries == [] then None
      else
        var w := WeightsOf(entries, weights);
        Some(Reweighted(entries, weights)[ChosenIndex(w, RollPoint(u, Sum(w)))])
  }

  lemma RollSpecStops(tables: map<string, Table>, name: string, weights: map<string, real>, u: Unit, i: nat)
    requires name in tables && tables[name].entries.Some? && tables[name].entries.value != []
    requires var w := WeightsOf(tables[name].entries.value, weights);
      Covering(w, RollPoint(u, Sum(w)), 0) == Some(i)
    ensures i < |tables[name].entries.value|
    ensures RollSpec(tables, name, weights, u) == Some(Reweighted(tables[name].entries.value, weights)[i])
  {
    var entries := tables[name].entries.value;
    var w := WeightsOf(entries, weights);
  }

  lemma RollSpecRunsOut(tables: map<string, Table>, name: string, weights: map<string, real>, u: Unit)
    requires name in tables && tables[name].entries.Some? && tables[name].entries.value != []
    requires var w := WeightsOf(tables[name].entries.value, weights);
      Covering(w, RollPoint(u, Sum(w)), 0) == None
    ensures var entries := tables[name].entries.value;
      RollSpec(tables, name, weights, u) == Some(Reweighted(entries, weights)[|entries| - 1])
  {
  }

  /** A missing table, or one without entries, yields the sentinel; an empty
      entries list yields undefined. */
  lemma RollWithoutEntries(tables: map<string, Table>, name: string, weights: map<string, real>, u: Unit)
    ensures name !in tables || tables[name].entries.None? ==> RollSpec(tables, name, weights, u) == Some(Sentinel)
    ensures name in tables && tables[name].entries == Some([]) ==> RollSpec(tables, name, weights, u) == None
  {
  }

  /** Otherwise the result is one of the table's entries, carrying its effective weight. */
  lemma RollIsTableEntry(tables: map<string, Table>, name: string, weights: map<string, real>, u: Unit)
    requires name in tables && tables[name].entries.Some? && tables[name].entries.value != []
    ensures var entries := tables[name].entries.value;
      exists i :: 0 <= i < |entries| &&
        RollSpec(tables, name, weights, u) == Some(entries[i].(weight := Some(EffectiveWeight(entries[i], weights))))
  {
    var entries := tables[name].entries.value;
    var w := WeightsOf(entries, weights);
    var i := ChosenIndex(w, RollPoint(u, Sum(w)));
    assert Reweighted(entries, weights)[i] == entries[i].(weight := Some(EffectiveWeight(entries[i], weights)));
  }

  /** The roll `u * total` never exceeds the total when the weights are not
      negative, so the walk always stops and the last-entry fallback is dead. */
  lemma {:induction false} SumNonNegative(w: seq<real>)
    requires forall k :: 0 <= k < |w| ==> w[k] >= 0.0
    ensures Sum(w) >= 0.0
  {
    if w != [] {
      SumNonNegative(w[..|w| - 1]);
    }
  }

  /** The chosen index `i` satisfies prefix(i-1) < roll <= prefix(i) whenever
      the roll is at most the total: the last-entry fallback is not taken. */
  lemma ChosenBracket(w: seq<real>, roll: real)
    requires |w| > 0 && roll <= Sum(w)
    ensures Covering(w, roll, 0).Some?
    ensures var i := ChosenIndex(w, roll);
      roll <= Upto(w, i) && (i > 0 ==> Upto(w, i - 1) < roll)
  {
    UptoLast(w);
  }

  /** With non-negative effective weights the walk over `Math.random() * total`
      always stops inside the list, at the entry whose bracket holds the roll:
      the last-entry fallback is unreachable. */
  lemma WalkStopsInside(w: seq<real>, u: Unit)
    requires |w| > 0
    requires forall k :: 0 <= k < |w| ==> w[k] >= 0.0
    ensures Covering(w, RollPoint(u, Sum(w)), 0).Some?
    ensures var roll := RollPoint(u, Sum(w));
      var i := ChosenIndex(w, roll);
      roll <= Upto(w, i) && (i > 0 ==> Upto(w, i - 1) < roll)
  {
    SumNonNegative(w);
    RollPointInRange(u, Sum(w));
    ChosenBracket(w, RollPoint(u, Sum(w)));
  }

  lemma {:induction false} UptoMonotone(w: seq<real>, a: nat, b: nat)
    requires a <= b < |w|
    requires forall k :: 0 <= k < |w| ==> w[k] > 0.0
    ensures a < b ==> Upto(w, a) < Upto(w, b)
    decreases b - a
  {
    if a < b {
      UptoMonotone(w, a, b - 1);
      UptoStep(w, b);
      assert Sum(w[..b]) == Upto(w, b - 1);
    }
  }

  /** With positive weights the bracket determines the index: the roll picks
      exactly the `i` with prefix(i-1) < roll <= prefix(i). */
  lemma BracketDeterminesChoice(w: seq<real>, roll: real, i: nat)
    requires i < |w|
    requires forall k :: 0 <= k < |w| ==> w[k] > 0.0
    requires roll <= Upto(w, i) && (i > 0 ==> Upto(w, i - 1) < roll)
    ensures ChosenIndex(w, roll) == i
  {
    assert Covering(w, roll, 0).Some?;
    var c := ChosenIndex(w, roll);
    if c < i {
      UptoMonotone(w, c, i - 1);
    }
  }

  /** A draw of 0 picks the first entry when its effective weight is not negative. */
  lemma ZeroDrawPicksFirst(w: seq<real>)
    requires |w| > 0 && w[0] >= 0.0
    ensures ChosenIndex(w, 0.0) == 0
  {
    UptoStep(w, 0);
  }

  /** A one-entry table yields its entry whatever the draw. */
  lemma SingleEntryAlwaysChosen(tables: map<string, Table>, name: string, weights: map<string, real>, u: Unit)
    requires name in tables && tables[name].entries.Some? && |tables[name].entries.value| == 1
    ensures var e := tables[name].entries.value[0];
      RollSpec(tables, name, weights, u) == Some(e.(weight := Some(EffectiveWeight(e, weights))))
  {
  }

  /** A table of one unit-weight entry always rolls that entry's key. */
  lemma SingleUnitRoll(tables: map<string, Table>, name: string, weights: map<string, real>, u: Unit, key: string)
    requires name in tables && SingleUnitEntry(tables[name], key)
    ensures RollSpec(tables, name, weights, u).Some? && RollSpec(tables, name, weights, u).value.key == key
  {
    SingleEntryAlwaysChosen(tables, name, weights, u);
  }

  /** As written, a multiplier of 0 counts as 1: an entry whose multiplier is
      0 keeps its base weight and can still be chosen. */
  lemma ZeroMultiplierCountsAsOne(e: Entry, weights: map<string, real>)
    requires e.key in weights && weights[e.key] == 0.0
    ensures EffectiveWeight(e, weights) == NumberOrOne(e.weight) && EffectiveWeight(e, weights) != 0.0
  {
  }

  // ---------------------------------------------------------------- multiple roll

  predicate HasKey(es: seq<Entry>, k: string) {
    exists i :: 0 <= i < |es| && es[i].key == k
  }

  /** The results a sequence of rolls leaves: each defined roll whose key has
      not been seen yet, in draw order. */
  function Dedup(rolls: seq<Option<Entry>>): seq<Entry> {
    if rolls == [] then []
    else
      var kept := Dedup(rolls[..|rolls| - 1]);
      var last := rolls[|rolls| - 1];
      if last.Some? && !HasKey(kept, last.value.key) then kept + [last.value] else kept
  }

  lemma DedupSnoc(rolls: seq<Option<Entry>>, x: Option<Entry>)
    ensures Dedup(rolls + [x]) ==
      if x.Some? && !HasKey(Dedup(rolls), x.value.key) then Dedup(rolls) + [x.value] else Dedup(rolls)
  {
    assert (rolls + [x])[..|rolls|] == rolls;
  }

  /** No two results share a key, there are no more results than draws, and
      every result is one of the rolls. */
  lemma {:induction false} DedupSound(rolls: seq<Option<Entry>>)
    ensures forall i, j :: 0 <= i < j < |Dedup(rolls)| ==> Dedup(rolls)[i].key != Dedup(rolls)[j].key
    ensures |Dedup(rolls)| <= |rolls|
    ensures forall i :: 0 <= i < |Dedup(rolls)| ==> Some(Dedup(rolls)[i]) in rolls
  {
    if rolls != [] {
      var init := rolls[..|rolls| - 1];
      DedupSound(init);
      assert forall x :: x in init ==> x in rolls;
    }
  }

  /** A key is among the results exactly when some roll produced it. */
  lemma {:induction false} DedupKeepsEveryKey(rolls: seq<Option<Entry>>, k: string)
    ensures HasKey(Dedup(rolls), k) <==> exists i :: 0 <= i < |rolls| && rolls[i].Some? && rolls[i].value.key == k
  {
    if rolls != [] {
      var init := rolls[..|rolls| - 1];
      DedupKeepsEveryKey(init, k);
      var kept := Dedup(init);
      var last := rolls[|rolls| - 1];
      var d := Dedup(rolls);
      assert forall i :: 0 <= i < |init| ==> rolls[i] == init[i];
      if last.Some? && !HasKey(kept, last.value.key) {
        assert d == kept + [last.value];
        if HasKey(kept, k) {
          var i :| 0 <= i < |kept| && kept[i].key == k;
          assert d[i] == kept[i];
        }
        if last.value.key == k {
          assert d[|kept|] == last.value;
        }
        if HasKey(d, k) {
          var i :| 0 <= i < |d| && d[i].key == k;
          if i < |kept| {
            assert kept[i] == d[i];
          }
        }
      }
    }
  }

  /** Later draws only add results after the earlier ones: the results of a
      prefix of the draws are a prefix of the results. */
  lemma {:induction false} DedupPrefix(rolls: seq<Option<Entry>>, n: nat)
    requires n <= |rolls|
    ensures Dedup(rolls[..n]) <= Dedup(rolls)
    decreases |rolls| - n
  {
    if n < |rolls| {
      var init := rolls[..|rolls| - 1];
      assert rolls[..n] == init[..n];
      DedupPrefix(init, n);
    } else {
      assert rolls[..n] == rolls;
    }
  }

  function RollsFor(tables: map<string, Table>, name: string, weights: map<string, real>, draws: seq<Unit>): (rs: seq<Option<Entry>>)
    ensures |rs| == |draws|
    ensures forall i :: 0 <= i < |draws| ==> rs[i] == RollSpec(tables, name, weights, draws[i])
  {
    seq(|draws|, i requires 0 <= i < |draws| => RollSpec(tables, name, weights, draws[i]))
  }

  lemma RollsForSnoc(tables: map<string, Table>, name: string, weights: map<string, real>, draws: seq<Unit>, n: nat)
    requires n < |draws|
    ensures RollsFor(tables, name, weights, draws[..n + 1]) ==
      RollsFor(tables, name, weights, draws[..n]) + [RollSpec(tables, name, weights, draws[n])]
  {
  }

  // ---------------------------------------------------------------- the store

  class RollTableManager {
    var tables: map<string, Table>
    var loadStarted: bool
    /** How many loads have been started. */
    ghost var loadCount: nat

    /** The latch and the store agree: a load has started at most once;
        before it the store is empty, and once it has, every table name is
        present. */
    ghost predicate Valid()
      reads this
    {
      && loadCount == (if loadStarted then 1 else 0)
      && (!loadStarted ==> tables == map[])
      && (loadStarted ==> forall n :: n in TableNames ==> n in tables)
    }

    constructor ()
      ensures Valid() && tables == map[] && !loadStarted && loadCount == 0
    {
      tables := map[];
      loadStarted := false;
      loadCount := 0;
    }

    /** `loadTables()`: the first call starts the load, later calls return the
        pending (here: finished) load without starting another. A fetch that
        succeeded is an entry of `outcomes`, keyed by file name. */
    method LoadTables(outcomes: map<string, Table>)
      requires Valid()
      modifies this
      ensures Valid() && loadStarted
      ensures old(loadStarted) ==> tables == old(tables) && loadCount == old(loadCount)
      ensures !old(loadStarted) ==> tables == LoadAll(TableFiles, outcomes)
    {
      if loadStarted {
        return;
      }
      loadStarted := true;
      loadCount := loadCount + 1;
      LoadTablesInternal(outcomes);
      MergeIntoEmpty(LoadAll(TableFiles, outcomes));
      LoadedTablesComplete(outcomes);
    }

    /** `_loadTablesInternal()`: store every file's data under its name, or its fallback. */
    method LoadTablesInternal(outcomes: map<string, Table>)
      modifies this`tables
      ensures tables == old(tables) + LoadAll(TableFiles, outcomes)
    {
      var files := TableFiles;
      var i := 0;
      while i < |files|
        invariant 0 <= i <= |files|
        invariant tables == old(tables) + LoadAll(files[..i], outcomes)
      {
        var file := files[i];
        var tableData := LoadOne(file, outcomes);
        LoadAllSnoc(files, outcomes, i);
        UpdateAfterMerge(old(tables), LoadAll(files[..i], outcomes), Stem(file), tableData);
        tables := tables[Stem(file) := tableData];
        i := i + 1;
      }
      assert files[..i] == files;
    }

    /** `rollWeighted(tableName, weights)` with Math.random() yielding `u`. */
    method RollWeighted(tableName: string, weights: map<string, real>, u: Unit) returns (r: Option<Entry>)
      ensures r == RollSpec(tables, tableName, weights, u)
    {
      if tableName !in tables || tables[tableName].entries.None? {
        return Some(Sentinel);
      }
      var entries := tables[tableName].entries.value;
      var weightedEntries := Reweighted(entries, weights);
      var w := WeightsOf(entries, weights);
      var totalWeight := Sum(w);
      var roll := RollPoint(u, totalWeight);
      var currentWeight := 0.0;
      var i := 0;
      while i < |weightedEntries|
        invariant 0 <= i <= |weightedEntries|
        invariant currentWeight == Sum(w[..i])
        invariant Covering(w, roll, 0) == Covering(w, roll, i)
      {
        UptoStep(w, i);
        CoveringStep(w, roll, i);
        assert weightedEntries[i].weight.value == w[i];
        currentWeight := currentWeight + weightedEntries[i].weight.value;
        if roll <= currentWeight {
          RollSpecStops(tables, tableName, weights, u, i);
          return Some(weightedEntries[i]);
        }
        i := i + 1;
      }
      if |weightedEntries| == 0 {
        return None;
      }
      RollSpecRunsOut(tables, tableName, weights, u);
      return Some(weightedEntries[|weightedEntries| - 1]);
    }

    /** `rollMultiple(tableName, count, weights)`: `count` draws, each result
        kept only if its key is new. Draw `i` is `draws[i]`. */
    method RollMultiple(tableName: string, count: int, weights: map<string, real>, draws: seq<Unit>)
      returns (results: seq<Entry>)
      requires count <= |draws|
      ensures results == Dedup(RollsFor(tables, tableName, weights, draws[..if count < 0 then 0 else count]))
    {
      results := [];
      var i := 0;
      while i < count
        invariant 0 <= i <= |draws| && (count >= 0 ==> i <= count) && (count < 0 ==> i == 0)
        invariant results == Dedup(RollsFor(tables, tableName, weights, draws[..i]))
      {
        var result := RollWeighted(tableName, weights, draws[i]);
        RollsForSnoc(tables, tableName, weights, draws, i);
        DedupSnoc(RollsFor(tables, tableName, weights, draws[..i]), result);
        if result.Some? && !HasKey(results, result.value.key) {
          results := results + [result.value];
        }
        i := i + 1;
      }
    }

    /** `rollSingle(tableName, weights)`: one weighted roll. */
    method RollSingle(tableName: string, weights: map<string, real>, u: Unit) returns (r: Option<Entry>)
      ensures r == RollSpec(tables, tableName, weights, u)
    {
      r := RollWeighted(tableName, weights, u);
    }

    /** `getTable(tableName)`: a name not yet present triggers the (latched) load. */
    method GetTable(tableName: string, outcomes: map<string, Table>) returns (t: Option<Table>)
      requires Valid()
      modifies this
      ensures Valid() && loadStarted
      ensures t == Lookup(tables, tableName)
      ensures old(loadStarted) ==> tables == old(tables) && loadCount == old(loadCount)
      ensures !old(loadStarted) ==> tables == LoadAll(TableFiles, outcomes)
    {
      if tableName !in tables {
        LoadTables(outcomes);
      }
      t := Lookup(tables, tableName);
    }
  }
}
