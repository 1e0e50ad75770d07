/**
 * The home screen (src/screens/HomeScreen.js): the dwell-time warning in
 * front of the multi-purpose button, the reset flow and its visibility, and
 * the timeline's time formatting.
 */
module HomeScreen {
  import opened Wrappers
  import opened Calendar
  import opened Attendance

  /**
   * The condition under which `handleButtonPress` shows the warning instead
   * of pressing: GO_WORK within 5 minutes of a recorded go-work time, or
   * CHECK_IN within 2 hours of a recorded check-in time.
   */
  predicate NeedsConfirmation(r: Record, now: int) {
    || (r.status == GoWork && r.goWorkTime.Some? && now - r.goWorkTime.value < 300000)
    || (r.status == CheckIn && r.checkInTime.Some? && now - r.checkInTime.value < 7200000)
  }

  /**
   * The screen warns exactly when the context's button would refuse a
   * GO_WORK or CHECK_IN record; in particular, inside the window the
   * context never advances, confirmed or not.
   */
  lemma ConfirmationIffRefused(r: Record, now: int)
    ensures NeedsConfirmation(r, now) <==> (r.status in {GoWork, CheckIn} && ButtonStep(r, now).None?)
    ensures NeedsConfirmation(r, now) ==> ButtonStep(r, now).None?
  {
  }

  /** The reset button is shown exactly when the button is not at NOT_STARTED. */
  predicate ResetButtonVisible(buttonState: Status) {
    buttonState != NotStarted
  }

  /** The screen's own state. */
  class HomeScreenState {
    /** The status the multi-purpose button is drawn for. */
    var buttonState: Status
    /** The dwell-time warning is on screen. */
    var warningVisible: bool
    /** The reset confirmation is on screen. */
    var resetPromptVisible: bool

    /** `useState(todayStatus.status)`. */
    constructor (initial: Status)
      ensures buttonState == initial && !warningVisible && !resetPromptVisible
    {
      buttonState := initial;
      warningVisible := false;
      resetPromptVisible := false;
    }

    /**
     * `handleButtonPress` at instant `now`: inside a dwell window it only
     * raises the warning; otherwise it presses the context's button and,
     * on success, shows the new status.
     */
    method HandleButtonPress(provider: AttendanceProvider, now: int, firstWrite: bool, secondWrite: bool)
      returns (pressed: bool, success: bool)
      modifies this, provider, provider.medium
      ensures pressed == !NeedsConfirmation(old(provider.todayStatus), now)
      ensures !pressed ==>
        warningVisible && !success && buttonState == old(buttonState)
        && provider.todayStatus == old(provider.todayStatus)
        && provider.attendanceRecords == old(provider.attendanceRecords)
        && provider.medium.entries == old(provider.medium.entries)
      ensures pressed ==> warningVisible == old(warningVisible)
      ensures pressed ==>
        success == (ButtonStep(old(provider.todayStatus), now).Some? && firstWrite && secondWrite)
      ensures pressed && ButtonStep(old(provider.todayStatus), now).None? ==>
        buttonState == old(buttonState)
        && provider.todayStatus == old(provider.todayStatus)
        && provider.attendanceRecords == old(provider.attendanceRecords)
        && provider.medium.entries == old(provider.medium.entries)
      ensures pressed && ButtonStep(old(provider.todayStatus), now).Some? ==>
        && TodayWritten(Merge(old(provider.todayStatus), ButtonStep(old(provider.todayStatus), now).value),
                        DayOf(now), firstWrite, secondWrite,
                        old(provider.todayStatus), old(provider.attendanceRecords), old(provider.medium.entries),
                        provider.todayStatus, provider.attendanceRecords, provider.medium.entries)
        && buttonState == (if firstWrite then provider.todayStatus.status else old(buttonState))
      ensures success ==> CanTransition(old(provider.todayStatus).status, buttonState)
      ensures resetPromptVisible == old(resetPromptVisible)
    {
      if NeedsConfirmation(provider.todayStatus, now) {
        warningVisible := true;
        return false, false;
      }
      pressed := true;
      var stepTaken := ButtonStep(provider.todayStatus, now).Some?;
      success := provider.HandleMultiPurposeButton(now, firstWrite, secondWrite);
      if stepTaken && firstWrite {
        // The [todayStatus] effect: `setTodayStatus` ran, even if the second write then failed.
        buttonState := provider.todayStatus.status;
      }
    }

    /**
     * The warning's confirm action at instant `now`: it presses the
     * context's button again, with no bypass. If the window has not
     * elapsed the press is refused and nothing changes.
     */
    method ConfirmWarning(provider: AttendanceProvider, now: int, firstWrite: bool, secondWrite: bool)
      returns (success: bool)
      modifies this, provider, provider.medium
      ensures !warningVisible && resetPromptVisible == old(resetPromptVisible)
      ensures NeedsConfirmation(old(provider.todayStatus), now) ==>
        !success && buttonState == old(buttonState)
        && provider.todayStatus == old(provider.todayStatus)
        && provider.attendanceRecords == old(provider.attendanceRecords)
        && provider.medium.entries == old(provider.medium.entries)
      ensures success == (ButtonStep(old(provider.todayStatus), now).Some? && firstWrite && secondWrite)
      ensures ButtonStep(old(provider.todayStatus), now).None? ==>
        buttonState == old(buttonState)
        && provider.todayStatus == old(provider.todayStatus)
        && provider.attendanceRecords == old(provider.attendanceRecords)
        && provider.medium.entries == old(provider.medium.entries)
      ensures ButtonStep(old(provider.todayStatus), now).Some? ==>
        && TodayWritten(Merge(old(provider.todayStatus), ButtonStep(old(provider.todayStatus), now).value),
                        DayOf(now), firstWrite, secondWrite,
                        old(provider.todayStatus), old(provider.attendanceRecords), old(provider.medium.entries),
                        provider.todayStatus, provider.attendanceRecords, provider.medium.entries)
        && buttonState == (if firstWrite then provider.todayStatus.status else old(buttonState))
    {
      warningVisible := false;
      ConfirmationIffRefused(provider.todayStatus, now);
      var stepTaken := ButtonStep(provider.todayStatus, now).Some?;
      success := provider.HandleMultiPurposeButton(now, firstWrite, secondWrite);
      if stepTaken && firstWrite {
        // The [todayStatus] effect, as in `HandleButtonPress`.
        buttonState := provider.todayStatus.status;
      }
    }

    /** The warning's cancel action. */
    method CancelWarning()
      modifies this
      ensures !warningVisible && buttonState == old(buttonState) && resetPromptVisible == old(resetPromptVisible)
    {
      warningVisible := false;
    }

    /** `handleResetPress`: asks for confirmation. */
    method HandleResetPress()
      modifies this
      ensures resetPromptVisible && buttonState == old(buttonState) && warningVisible == old(warningVisible)
    {
      resetPromptVisible := true;
    }

    /**
     * The reset confirmation's confirm action: once the first write has
     * gone through, `todayStatus` is the reset record and the button is
     * back at NOT_STARTED (by the [todayStatus] effect, and by the explicit
     * `setButtonState` on success), which hides the reset button.
     */
    method ConfirmReset(provider: AttendanceProvider, today: int, firstWrite: bool, secondWrite: bool)
      returns (success: bool)
      modifies this, provider, provider.medium
      ensures !resetPromptVisible && warningVisible == old(warningVisible)
      ensures success == (firstWrite && secondWrite)
      ensures TodayWritten(ResetRecord, today, firstWrite, secondWrite,
                           old(provider.todayStatus), old(provider.attendanceRecords), old(provider.medium.entries),
                           provider.todayStatus, provider.attendanceRecords, provider.medium.entries)
      ensures buttonState == (if firstWrite then NotStarted else old(buttonState))
      ensures firstWrite ==> !ResetButtonVisible(buttonState) && buttonState == provider.todayStatus.status
    {
      resetPromptVisible := false;
      success := provider.ResetTodayStatus(today, firstWrite, secondWrite);
      if firstWrite {
        // The [todayStatus] effect; on success `setButtonState(NOT_STARTED)` sets the same value.
        buttonState := provider.todayStatus.status;
      }
      if success {
        buttonState := NotStarted;
      }
    }
  }

  /** The placeholder the timeline shows for a missing time. */
  const NoTime: string := "--:--"

  function DigitChar(n: int): char
    requires 0 <= n < 10
  {
    "0123456789"[n]
  }

  function DigitValue(c: char): int {
    c as int - '0' as int
  }

  /** The hour and minute of the local day at instant `t`. */
  function HourOf(t: int): int { (t / 3600000) % 24 }
  function MinuteOf(t: int): int { (t / 60000) % 60 }

  /** `formatTime(iso)`: '--:--' for a missing time, otherwise `format(t, 'HH:mm')`. */
  function FormatTime(t: Option<int>): (s: string)
    ensures |s| == 5 && s[2] == ':'
  {
    if t.None? then NoTime
    else
      var h, m := HourOf(t.value), MinuteOf(t.value);
      [DigitChar(h / 10), DigitChar(h % 10), ':', DigitChar(m / 10), DigitChar(m % 10)]
  }

  /** Reading 'HH:mm' back as hours and minutes. */
  function ParseTime(s: string): (int, int)
    requires |s| == 5
  {
    (DigitValue(s[0]) * 10 + DigitValue(s[1]), DigitValue(s[3]) * 10 + DigitValue(s[4]))
  }

  lemma DigitRoundTrip(n: int)
    requires 0 <= n < 10
    ensures DigitValue(DigitChar(n)) == n
  {
  }

  /**
   * A formatted time reads back as the hour and minute of the day at `t`,
   * and a missing time is the placeholder.
   */
  lemma FormatTimeRoundTrip(t: Option<int>)
    ensures t.None? ==> FormatTime(t) == "--:--"
    ensures t.Some? ==> ParseTime(FormatTime(t)) == (HourOf(t.value), MinuteOf(t.value))
    ensures t.Some? ==> FormatTime(t) != "--:--"
  {
    if t.Some? {
      var h, m := HourOf(t.value), MinuteOf(t.value);
      DigitRoundTrip(h / 10);
      DigitRoundTrip(h % 10);
      DigitRoundTrip(m / 10);
      DigitRoundTrip(m % 10);
      assert FormatTime(t)[0] != '-';
    }
  }
}
