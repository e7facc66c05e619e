/** The mechanics block of the species display dialog. */
module SpeciesDisplay {
  import opened JsValues
  import opened Html
  import opened SwadeIntegration
  import ExportManager

  const AbilitiesHeading: string := "<h4>Racial Abilities</h4>"
  const HindrancesHeading: string := "<h4>Typical Hindrances</h4>"
  const SkillsHeading: string := "<h4>Cultural Skills</h4>"
  const EdgesHeading: string := "<h4>Suggested Edges</h4>"

  /** The four sections, in display order. */
  function DisplaySections(m: Mechanics): string {
    Section(AbilitiesHeading, m.racialAbilities) + Section(HindrancesHeading, m.hindrances) +
    Section(SkillsHeading, m.skills) + Section(EdgesHeading, m.edges)
  }

  /** What `formatSWADEDetails(swadeTraits)` returns. */
  function SwadeDetails(traits: Option<Mechanics>): string {
    if traits.None? then ExportManager.NoTraitsAvailable
    else OrFallback(DisplaySections(traits.value), ExportManager.NoSpecificTraits)
  }

  /** Missing traits give the 'not available' paragraph; the 'no specific
      traits' paragraph appears exactly when all four lists are empty; the
      abilities section, when present, comes first, and the edges section,
      when present, is last. */
  lemma SwadeDetailsShape(traits: Option<Mechanics>)
    ensures traits.None? ==> SwadeDetails(traits) == "<p>No mechanical traits available.</p>"
    ensures traits.Some? ==>
      var m := traits.value;
      && (SwadeDetails(traits) == "<p>No specific mechanical traits.</p>" <==>
            m.racialAbilities == [] && m.hindrances == [] && m.skills == [] && m.edges == [])
      && (m.racialAbilities != [] ==> SwadeDetails(traits)[..|AbilitiesHeading|] == AbilitiesHeading)
      && (m.edges != [] ==>
            var html := DisplaySections(m);
            var e := Section(EdgesHeading, m.edges);
            |e| <= |html| && SwadeDetails(traits)[|html| - |e|..] == e)
  {
    if traits.Some? {
      var m := traits.value;
      FourSections(AbilitiesHeading, HindrancesHeading, SkillsHeading, EdgesHeading,
        m.racialAbilities, m.hindrances, m.skills, m.edges, ExportManager.NoSpecificTraits);
    }
  }

  /** `formatSWADEDetails(swadeTraits)`, appending section by section. */
  method FormatSwadeDetails(traits: Option<Mechanics>) returns (html: string)
    ensures html == SwadeDetails(traits)
  {
    if traits.None? {
      return ExportManager.NoTraitsAvailable;
    }
    var m := traits.value;
    ghost var a, h, s, e := Section(AbilitiesHeading, m.racialAbilities), Section(HindrancesHeading, m.hindrances),
      Section(SkillsHeading, m.skills), Section(EdgesHeading, m.edges);
    html := "";
    html := AppendSection(html, AbilitiesHeading, m.racialAbilities);
    assert html == a;
    html := AppendSection(html, HindrancesHeading, m.hindrances);
    assert html == a + h;
    html := AppendSection(html, SkillsHeading, m.skills);
    assert html == a + h + s;
    html := AppendSection(html, EdgesHeading, m.edges);
    assert html == a + h + s + e;
    html := OrFallback(html, ExportManager.NoSpecificTraits);
  }
}
