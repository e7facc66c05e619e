/** The generation dialog's seed handling: form defaults, the quick-generate
    overrides and seed validation. Form fields are optional strings; the
    current scene's name is a parameter. */
module SpeciesDialog {
  import opened JsValues
  import opened Config
  import opened Seeds

  /** The form's fields as `FormData.get` returns them, and the checkbox. */
  datatype FormInput = FormInput(
    role: Option<string>,
    setting: Option<string>,
    speed: Option<string>,
    notes: Option<string>,
    autoExportChecked: bool)

  /** `extractFormData(html)`; the timestamp is not modelled. */
  function ExtractFormData(form: FormInput, sceneName: Option<string>): Seed {
    Seed(
      Some(OrElse(form.role, Neutral)),
      Some(if Truthy(form.setting) then form.setting.value else OrElse(sceneName, "Unknown location")),
      Some(OrElse(form.speed, Fast)),
      Some(OrElse(form.notes, "")),
      Some(form.autoExportChecked))
  }

  /** Every field is present; a blank field takes its default: neutral, the
      scene's name then 'Unknown location', fast, and ''. */
  lemma ExtractFormDataDefaults(form: FormInput, sceneName: Option<string>)
    ensures var s := ExtractFormData(form, sceneName);
      && s.role.Some? && s.setting.Some? && s.speed.Some? && s.notes.Some?
      && s.autoExport == Some(form.autoExportChecked)
      && (!Truthy(form.role) ==> s.role == Some(Neutral))
      && (Truthy(form.role) ==> s.role == form.role)
      && (!Truthy(form.setting) && Truthy(sceneName) ==> s.setting == sceneName)
      && (!Truthy(form.setting) && !Truthy(sceneName) ==> s.setting == Some("Unknown location"))
      && (!Truthy(form.speed) ==> s.speed == Some(Fast))
      && (!Truthy(form.notes) ==> s.notes == Some(""))
  {
  }

  /** The seed `quickGenerate(html)` generates from. */
  function QuickGenerateSeed(form: FormInput, sceneName: Option<string>): Seed {
    ExtractFormData(form, sceneName).(speed := Some(Fast), autoExport := Some(true))
  }

  /** Quick generation is fast and auto-exports whatever the form says, and
      otherwise keeps the form's seed. */
  lemma QuickGenerateOverrides(form: FormInput, sceneName: Option<string>)
    ensures var q := QuickGenerateSeed(form, sceneName);
      var s := ExtractFormData(form, sceneName);
      q.speed == Some(Fast) && q.autoExport == Some(true) &&
      q.role == s.role && q.setting == s.setting && q.notes == s.notes
  {
  }

  /** The outcome of `validateSeed(seed)`: the warning shown on rejection. */
  datatype SeedCheck = Accepted | Rejected(warning: string)

  const InvalidRole: string := "Invalid narrative role selected"
  const InvalidSpeed: string := "Invalid generation speed selected"

  /** `validateSeed(seed)`: the role is checked before the speed. */
  function ValidateSeed(seed: Seed): SeedCheck {
    if !(seed.role.Some? && seed.role.value in Roles) then Rejected(InvalidRole)
    else if !(seed.speed.Some? && seed.speed.value in Speeds) then Rejected(InvalidSpeed)
    else Accepted
  }

  /** A seed is accepted exactly when its role is one of the four roles and
      its speed one of the two speeds, whatever its setting and notes; a bad
      role is reported even when the speed is bad too. */
  lemma ValidateSeedMeaning(seed: Seed, setting: Option<string>, notes: Option<string>)
    ensures ValidateSeed(seed).Accepted? <==>
      seed.role.Some? && seed.role.value in [Neutral, Ally, Enemy, Mysterious] &&
      seed.speed.Some? && seed.speed.value in [Fast, Detailed]
    ensures ValidateSeed(seed) == Rejected(InvalidRole) <==> !(seed.role.Some? && seed.role.value in Roles)
    ensures ValidateSeed(seed.(setting := setting, notes := notes)) == ValidateSeed(seed)
  {
  }

  /** A form whose role and speed are blank or valid yields an accepted seed,
      and so does its quick-generate seed. */
  lemma DefaultsValidate(form: FormInput, sceneName: Option<string>)
    requires !Truthy(form.role) || form.role.value in Roles
    requires !Truthy(form.speed) || form.speed.value in Speeds
    ensures ValidateSeed(ExtractFormData(form, sceneName)) == Accepted
    ensures ValidateSeed(QuickGenerateSeed(form, sceneName)) == Accepted
  {
  }
}
