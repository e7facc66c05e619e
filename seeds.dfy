/** The generation request every entry point builds: the narrative role, the
    setting, the generation speed, free-form notes and the auto-export flag.
    Any field may be absent. */
module Seeds {
  import opened JsValues

  datatype Seed = Seed(
    role: Option<string>,
    setting: Option<string>,
    speed: Option<string>,
    notes: Option<string>,
    autoExport: Option<bool>)

  const EmptySeed: Seed := Seed(None, None, None, None, None)
}
