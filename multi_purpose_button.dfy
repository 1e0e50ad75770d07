/**
 * The multi-purpose button (src/components/MultiPurposeButton.js): the label,
 * icon and colour each status draws, and when the button is disabled.
 */
module MultiPurposeButton {
  import opened Wrappers
  import opened Attendance

  /** The translation keys 'multi_purpose_button.*'. */
  datatype ButtonLabel = GoWorkLabel | CheckInLabel | CheckOutLabel | CompleteLabel

  /** The Ionicons names. */
  datatype ButtonIcon = WalkOutline | LogInOutline | LogOutOutline | CheckmarkDoneOutline | CheckmarkCircleOutline

  /** The theme colours used as backgrounds. */
  datatype ThemeColor = Secondary | Primary | Accent

  datatype ButtonConfig = ButtonConfig(text: ButtonLabel, icon: ButtonIcon, bgColor: ThemeColor)

  /** `getButtonConfig()` for `status`. */
  function GetButtonConfig(status: Status): ButtonConfig {
    match status
    case NotStarted => ButtonConfig(GoWorkLabel, WalkOutline, Secondary)
    case GoWork => ButtonConfig(CheckInLabel, LogInOutline, Primary)
    case CheckIn => ButtonConfig(CheckOutLabel, LogOutOutline, Accent)
    case CheckOut => ButtonConfig(CompleteLabel, CheckmarkDoneOutline, Primary)
    case Complete => ButtonConfig(CompleteLabel, CheckmarkCircleOutline, Secondary)
    case _ => ButtonConfig(GoWorkLabel, WalkOutline, Secondary)
  }

  /** `isDisabled`. */
  predicate IsDisabled(status: Status) {
    status == Complete
  }

  /** The label that names the action leading to status `target`. */
  function ActionLabel(target: Status): Option<ButtonLabel> {
    match target
    case GoWork => Some(GoWorkLabel)
    case CheckIn => Some(CheckInLabel)
    case CheckOut => Some(CheckOutLabel)
    case Complete => Some(CompleteLabel)
    case _ => None
  }

  /** Whenever a press advances the day, the label shown before it names that step. */
  lemma LabelNamesNextAction(r: Record, now: int)
    requires ButtonStep(r, now).Some?
    ensures ButtonStep(r, now).value.status.Some?
    ensures ActionLabel(ButtonStep(r, now).value.status.value) == Some(GetButtonConfig(r.status).text)
  {
  }

  /** CHECK_OUT and COMPLETE share the complete label, with different icons. */
  lemma CompleteLabelShared()
    ensures GetButtonConfig(CheckOut).text == GetButtonConfig(Complete).text == CompleteLabel
    ensures GetButtonConfig(CheckOut).icon != GetButtonConfig(Complete).icon
  {
  }

  /** Every day-type status draws the NOT_STARTED configuration, yet a press on it does nothing. */
  lemma DayTypesFallBack(r: Record, now: int)
    requires r.status in {Absent, Leave, Sick, Holiday, LateOrEarly}
    ensures GetButtonConfig(r.status) == GetButtonConfig(NotStarted)
    ensures !IsDisabled(r.status) && ButtonStep(r, now).None?
  {
  }

  /** The button is disabled exactly at COMPLETE, where a press could not advance anyway. */
  lemma DisabledIffComplete(r: Record, now: int)
    ensures IsDisabled(r.status) <==> r.status == Complete
    ensures IsDisabled(r.status) ==> ButtonStep(r, now).None?
  {
  }
}
