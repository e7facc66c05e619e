/** Export dispatch, the CSV content, and the mechanics HTML of the journal
    export. The download itself and the journal page are not modelled. */
module ExportManager {
  import opened JsValues
  import opened Strings
  import opened Config
  import opened Html
  import opened SwadeIntegration
  import opened SpeciesGeneration

  // ---------------------------------------------------------------- dispatch

  /** What `exportSpecies(species, format)` goes on to do. */
  datatype ExportAction =
    | ToJournal
    | ToCsv(filename: string, content: string)
    | ToJson(filename: string)

  /** `exportSpecies(species, format = EXPORT_FORMATS.JOURNAL)`; an undefined
      format takes the default. Any other format throws. */
  function ExportSpecies(species: Species, format: Option<string>): Outcome<ExportAction> {
    var f := if format.None? then Journal else format.value;
    if f == Journal then Ok(ToJournal)
    else if f == Csv then Ok(ToCsv(species.name + "_species.csv", CsvContent(species)))
    else if f == Json then Ok(ToJson(species.name + "_species.json"))
    else Thrown("Unsupported export format: " + f)
  }

  /** Exactly journal, csv and json are accepted; the listed handout format is
      rejected like any unknown one. */
  lemma ExportDispatch(species: Species, format: Option<string>)
    ensures ExportSpecies(species, format).Ok? <==> format.None? || format.value in [Journal, Csv, Json]
    ensures format.None? ==> ExportSpecies(species, format) == Ok(ToJournal)
    ensures format == Some(Csv) ==> ExportSpecies(species, format).value.ToCsv?
    ensures Handout in ExportFormats && ExportSpecies(species, Some(Handout)).Thrown?
  {
  }

  // ---------------------------------------------------------------- CSV

  /** The eight rows of `exportToCSV(species)`. */
  function CsvRows(species: Species): (rows: seq<seq<string>>)
    ensures |rows| == 8 && forall k :: 0 <= k < 8 ==> |rows[k]| == 2
  {
    [ ["Field", "Value"],
      ["Name", species.name],
      ["Archetype", species.archetype],
      ["Culture", species.culture],
      ["Status", species.status],
      ["Physical Traits", Join(species.physicalTraits, "; ")],
      ["Story Hook", OrElse(species.narrativeHook.summary, "")],
      ["SWADE Summary", species.swadeTraits.mechanicalSummary] ]
  }

  /** `"${field}"`, with no escaping of a quote inside. */
  function Quoted(field: string): string {
    "\"" + field + "\""
  }

  /** A row: every cell quoted, joined with commas. */
  function CsvLine(row: seq<string>): string {
    Join(seq(|row|, i requires 0 <= i < |row| => Quoted(row[i])), ",")
  }

  /** One line per row, in row order: the row's field name and value, each
      wrapped in double quotes, with a comma between them. */
  function CsvLines(species: Species): (lines: seq<string>)
    ensures |lines| == 8
    ensures forall k :: 0 <= k < 8 ==>
      lines[k] == "\"" + CsvRows(species)[k][0] + "\",\"" + CsvRows(species)[k][1] + "\""
  {
    var rows := CsvRows(species);
    PairLines(rows);
    seq(|rows|, i requires 0 <= i < |rows| => CsvLine(rows[i]))
  }

  /** Every two-cell row becomes its two fields quoted around a comma. */
  lemma PairLines(rows: seq<seq<string>>)
    requires forall k :: 0 <= k < |rows| ==> |rows[k]| == 2
    ensures forall k :: 0 <= k < |rows| ==> CsvLine(rows[k]) == "\"" + rows[k][0] + "\",\"" + rows[k][1] + "\""
  {
    forall k | 0 <= k < |rows|
      ensures CsvLine(rows[k]) == "\"" + rows[k][0] + "\",\"" + rows[k][1] + "\""
    {
      assert rows[k] == [rows[k][0], rows[k][1]];
      CsvLineOfPair(rows[k][0], rows[k][1]);
    }
  }

  /** The CSV text: the rows joined with newlines, no trailing newline. */
  function CsvContent(species: Species): string {
    Join(CsvLines(species), "\n")
  }

  /** A two-cell line is the two fields quoted verbatim around a comma. */
  lemma CsvLineOfPair(a: string, b: string)
    ensures CsvLine([a, b]) == "\"" + a + "\",\"" + b + "\""
  {
    var q := seq(2, i requires 0 <= i < 2 => Quoted([a, b][i]));
    assert q == [Quoted(a), Quoted(b)];
    assert q[1..] == [Quoted(b)];
    assert Join(q, ",") == Quoted(a) + "," + Quoted(b);
    assert "\"" + a + "\"" + "," + ("\"" + b + "\"") == "\"" + a + "\",\"" + b + "\"";
  }

  /** No cell of the species holds a newline. */
  predicate NoNewlines(species: Species) {
    forall k :: 0 <= k < 8 ==> '\n' !in CsvRows(species)[k][0] && '\n' !in CsvRows(species)[k][1]
  }

  /** Every line of a species without newlines in its cells is newline-free. */
  lemma CsvLinesNewlineFree(species: Species)
    requires NoNewlines(species)
    ensures forall k :: 0 <= k < |CsvLines(species)| ==> '\n' !in CsvLines(species)[k]
  {
    forall k | 0 <= k < 8 ensures '\n' !in CsvLines(species)[k] {
      NewlineFree(CsvRows(species)[k][0], CsvRows(species)[k][1]);
    }
  }

  /** The first line is the quoted header. */
  lemma CsvHeaderLine(species: Species)
    ensures CsvLines(species)[0] == "\"Field\",\"Value\""
  {
    assert CsvRows(species)[0] == ["Field", "Value"];
    assert "\"" + "Field" + "\",\"" + "Value" + "\"" == "\"Field\",\"Value\"";
  }

  /** Splitting the CSV text at newlines gives back exactly its eight lines,
      the first being the quoted header, whenever no field has a newline. */
  lemma CsvHasEightRows(species: Species)
    requires NoNewlines(species)
    ensures Split(CsvContent(species), '\n') == CsvLines(species)
    ensures |Split(CsvContent(species), '\n')| == 8
    ensures Split(CsvContent(species), '\n')[0] == "\"Field\",\"Value\""
  {
    CsvLinesNewlineFree(species);
    SplitJoin(CsvLines(species), '\n');
    CsvHeaderLine(species);
  }

  lemma NewlineFree(a: string, b: string)
    requires '\n' !in a && '\n' !in b
    ensures '\n' !in "\"" + a + "\",\"" + b + "\""
  {
  }

  // ---------------------------------------------------------------- mechanics HTML

  const NoTraitsAvailable: string := "<p>No mechanical traits available.</p>"
  const NoSpecificTraits: string := "<p>No specific mechanical traits.</p>"
  const AbilitiesHeading3: string := "<h3>Racial Abilities</h3>"
  const HindrancesHeading3: string := "<h3>Typical Hindrances</h3>"
  const SkillsHeading3: string := "<h3>Cultural Skills</h3>"

  /** The three sections of the journal export; edges are not shown. */
  function JournalSections(m: Mechanics): string {
    Section(AbilitiesHeading3, m.racialAbilities) + Section(HindrancesHeading3, m.hindrances) +
    Section(SkillsHeading3, m.skills)
  }

  /** What `formatSWADEDetailsHTML(swadeTraits)` returns. */
  function SwadeDetailsHtml(traits: Option<Mechanics>): string {
    if traits.None? then NoTraitsAvailable else OrFallback(JournalSections(traits.value), NoSpecificTraits)
  }

  /** Missing traits give the 'not available' paragraph; otherwise the
      'no specific traits' paragraph appears exactly when abilities,
      hindrances and skills are all empty, the abilities section comes first,
      and edges never matter. */
  lemma SwadeDetailsHtmlShape(traits: Option<Mechanics>, edges: seq<string>)
    ensures traits.None? ==> SwadeDetailsHtml(traits) == NoTraitsAvailable
    ensures traits.Some? ==>
      var m := traits.value;
      && (SwadeDetailsHtml(traits) == NoSpecificTraits <==> m.racialAbilities == [] && m.hindrances == [] && m.skills == [])
      && SwadeDetailsHtml(Some(m.(edges := edges))) == SwadeDetailsHtml(traits)
      && (m.racialAbilities != [] ==> SwadeDetailsHtml(traits)[..|AbilitiesHeading3|] == AbilitiesHeading3)
  {
    if traits.Some? {
      var m := traits.value;
      var html := JournalSections(m);
      assert html == html + Section(SkillsHeading3, []);
      FourSections(AbilitiesHeading3, HindrancesHeading3, SkillsHeading3, SkillsHeading3,
        m.racialAbilities, m.hindrances, m.skills, [], NoSpecificTraits);
    }
  }

  /** `formatSWADEDetailsHTML(swadeTraits)`, appending section by section. */
  method FormatSwadeDetailsHtml(traits: Option<Mechanics>) returns (html: string)
    ensures html == SwadeDetailsHtml(traits)
  {
    if traits.None? {
      return NoTraitsAvailable;
    }
    var m := traits.value;
    ghost var a, h, s := Section(AbilitiesHeading3, m.racialAbilities),
      Section(HindrancesHeading3, m.hindrances), Section(SkillsHeading3, m.skills);
    html := "";
    html := AppendSection(html, AbilitiesHeading3, m.racialAbilities);
    assert html == a;
    html := AppendSection(html, HindrancesHeading3, m.hindrances);
    assert html == a + h;
    html := AppendSection(html, SkillsHeading3, m.skills);
    assert html == a + h + s;
    html := OrFallback(html, NoSpecificTraits);
  }
}
