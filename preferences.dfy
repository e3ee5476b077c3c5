/**
 * The user's preferences and the two controls they are shown in.
 *
 * A saved preferences record is used as it was parsed, so either field may
 * be missing (None) or hold any JSON value.
 */
module Preferences {
  import opened Wrappers
  import opened JsonValue

  datatype Prefs = Prefs(matchThreshold: Option<Val>, emailNotifications: Option<Val>)

  /** What the threshold slider and the e-mail checkbox show. */
  datatype PrefsControls = PrefsControls(slider: Val, emailChecked: bool)

  /** The preferences used when nothing is saved. */
  const DefaultPrefs: Prefs := Prefs(Some(JNum(75)), Some(JBool(true)))

  /** Loading: the saved record as it is (no field-by-field merge with the
      defaults), or the defaults when nothing is saved. */
  function LoadPreferences(saved: Option<Prefs>): (r: Prefs)
    ensures saved.Some? ==> r == saved.value
    ensures saved.None? ==> r.matchThreshold == Some(JNum(75))
    ensures saved.None? ==> r.emailNotifications == Some(JBool(true))
  {
    match saved
    case Some(p) => p
    case None => DefaultPrefs
  }

  /** The threshold is shown only when it is present and truthy. */
  predicate ThresholdApplies(p: Prefs)
  {
    p.matchThreshold.Some? && Truthy(p.matchThreshold.value)
  }

  /** The e-mail box is checked unless the stored value is exactly `false`;
      a missing field counts as enabled. */
  predicate EmailEnabled(p: Prefs)
  {
    p.emailNotifications != Some(JBool(false))
  }

  /** Reflecting preferences into the controls: the slider keeps its value
      unless the threshold applies; the checkbox follows EmailEnabled. */
  function LoadPreferencesUI(p: Prefs, ui: PrefsControls): (r: PrefsControls)
    ensures ThresholdApplies(p) ==> r.slider == p.matchThreshold.value
    ensures !ThresholdApplies(p) ==> r.slider == ui.slider
    ensures !r.emailChecked <==> p.emailNotifications == Some(JBool(false))
  {
    PrefsControls(
      if ThresholdApplies(p) then p.matchThreshold.value else ui.slider,
      EmailEnabled(p))
  }

  /** With nothing saved, the controls show 75 and a checked box. */
  lemma DefaultControls(ui: PrefsControls)
    ensures LoadPreferencesUI(LoadPreferences(None), ui) == PrefsControls(JNum(75), true)
  {
  }

  /** A saved record that lacks the e-mail field is not merged with the
      default, yet the box still shows enabled; a threshold of 0, or a missing
      one, leaves the slider as it was. */
  lemma PartialRecordQuirks(p: Prefs, ui: PrefsControls)
    requires p.emailNotifications.None? || p.emailNotifications == Some(JNum(0))
    requires p.matchThreshold.None? || p.matchThreshold == Some(JNum(0))
    ensures LoadPreferences(Some(p)) == p
    ensures LoadPreferencesUI(LoadPreferences(Some(p)), ui) == PrefsControls(ui.slider, true)
  {
  }
}
