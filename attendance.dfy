/**
 * The attendance context (src/context/AttendanceContext.js): the status set,
 * the transition table, the multi-purpose button's state machine, the
 * date-keyed record store with its "today" shortcut, and the weekly view.
 */
module Attendance {
  import opened Wrappers
  import opened Calendar
  import Storage

  /** STATUS_TYPES. */
  datatype Status =
    | NotStarted | GoWork | CheckIn | CheckOut | Complete
    | Absent | Leave | Sick | Holiday | LateOrEarly

  /** The string each status is stored and translated under. */
  function StatusName(s: Status): string {
    match s
    case NotStarted => "not_started"
    case GoWork => "go_work"
    case CheckIn => "check_in"
    case CheckOut => "check_out"
    case Complete => "complete"
    case Absent => "absent"
    case Leave => "leave"
    case Sick => "sick"
    case Holiday => "holiday"
    case LateOrEarly => "late_or_early"
  }

  /** Distinct statuses are stored under distinct strings. */
  lemma StatusNameInjective(s1: Status, s2: Status)
    ensures StatusName(s1) == StatusName(s2) <==> s1 == s2
  {
  }

  /**
   * One day's attendance record. The four timestamps are instants in
   * milliseconds; `None` stands for both `null` and an absent field.
   */
  datatype Record = Record(
    status: Status,
    goWorkTime: Option<int>,
    checkInTime: Option<int>,
    checkOutTime: Option<int>,
    completeTime: Option<int>)

  /** A record carrying a status and no timestamps: `{ status }`. */
  function OnlyStatus(s: Status): Record {
    Record(s, None, None, None, None)
  }

  predicate NoTimestamps(r: Record) {
    r.goWorkTime.None? && r.checkInTime.None? && r.checkOutTime.None? && r.completeTime.None?
  }

  /** The record written by a reset, and the initial `todayStatus`. */
  const ResetRecord: Record := OnlyStatus(NotStarted)

  /** The object spread over `todayStatus`: `None` marks a field the patch does not carry. */
  datatype Patch = Patch(
    status: Option<Status>,
    goWorkTime: Option<int>,
    checkInTime: Option<int>,
    checkOutTime: Option<int>,
    completeTime: Option<int>)

  /** A patched field: the patch's value when it carries one, otherwise the kept one. */
  function Over<T>(patched: Option<T>, kept: Option<T>): Option<T> {
    if patched.Some? then patched else kept
  }

  /** `{ ...r, ...p }`. */
  function Merge(r: Record, p: Patch): Record {
    Record(
      Over(p.status, Some(r.status)).GetOr(r.status),
      Over(p.goWorkTime, r.goWorkTime),
      Over(p.checkInTime, r.checkInTime),
      Over(p.checkOutTime, r.checkOutTime),
      Over(p.completeTime, r.completeTime))
  }

  /**
   * The merge takes every field the patch carries and keeps every other
   * field of the old record, so earlier timestamps survive.
   */
  lemma MergeFields(r: Record, p: Patch)
    ensures Merge(r, p).status == (if p.status.Some? then p.status.value else r.status)
    ensures p.goWorkTime.Some? ==> Merge(r, p).goWorkTime == p.goWorkTime
    ensures p.goWorkTime.None? ==> Merge(r, p).goWorkTime == r.goWorkTime
    ensures p.checkInTime.Some? ==> Merge(r, p).checkInTime == p.checkInTime
    ensures p.checkInTime.None? ==> Merge(r, p).checkInTime == r.checkInTime
    ensures p.checkOutTime.Some? ==> Merge(r, p).checkOutTime == p.checkOutTime
    ensures p.checkOutTime.None? ==> Merge(r, p).checkOutTime == r.checkOutTime
    ensures p.completeTime.Some? ==> Merge(r, p).completeTime == p.completeTime
    ensures p.completeTime.None? ==> Merge(r, p).completeTime == r.completeTime
  {
  }

  // ---------------------------------------------------------------------
  // Transition table (canTransition) and the button's state machine
  // ---------------------------------------------------------------------

  /** `canTransition(from, to)`: the table of permitted next statuses. Nothing in the program calls it. */
  function CanTransition(from: Status, to: Status): bool {
    match from
    case NotStarted => to in {GoWork, Absent, Leave, Sick, Holiday}
    case GoWork => to == CheckIn
    case CheckIn => to == CheckOut
    case CheckOut => to == Complete
    case _ => false
  }

  /** No status is permitted after COMPLETE, and LATE_OR_EARLY is never a permitted target. */
  lemma TableDeadEnds(from: Status, to: Status)
    ensures !CanTransition(Complete, to)
    ensures !CanTransition(from, LateOrEarly)
    ensures from in {Absent, Leave, Sick, Holiday, LateOrEarly} ==> !CanTransition(from, to)
  {
  }

  /** Minimum milliseconds between GO_WORK and CHECK_IN (5 minutes). */
  const GoWorkDwellMs: int := 300000
  /** Minimum milliseconds between CHECK_IN and CHECK_OUT (2 hours). */
  const CheckInDwellMs: int := 7200000

  /** The gate of the GO_WORK step: a recorded go-work time less than 5 minutes before `now`. */
  predicate GoWorkTooSoon(r: Record, now: int) {
    r.goWorkTime.Some? && now - r.goWorkTime.value < GoWorkDwellMs
  }

  /** The gate of the CHECK_IN step: a recorded check-in time less than 2 hours before `now`. */
  predicate CheckInTooSoon(r: Record, now: int) {
    r.checkInTime.Some? && now - r.checkInTime.value < CheckInDwellMs
  }

  /**
   * The decision `handleMultiPurposeButton` takes on today's record at
   * instant `now`: the patch it hands to `updateTodayStatus`, or `None`
   * when it returns false without writing.
   */
  function ButtonStep(r: Record, now: int): Option<Patch> {
    match r.status
    case NotStarted => Some(Patch(Some(GoWork), Some(now), None, None, None))
    case GoWork =>
      if GoWorkTooSoon(r, now) then None
      else Some(Patch(Some(CheckIn), None, Some(now), None, None))
    case CheckIn =>
      if CheckInTooSoon(r, now) then None
      else Some(Patch(Some(CheckOut), None, None, Some(now), None))
    case CheckOut => Some(Patch(Some(Complete), None, None, None, Some(now)))
    case _ => None
  }

  /** NOT_STARTED and CHECK_OUT always advance, stamping `now`; neither is time-gated. */
  lemma UngatedSteps(r: Record, now: int)
    ensures r.status == NotStarted ==>
      ButtonStep(r, now).Some? &&
      Merge(r, ButtonStep(r, now).value) == r.(status := GoWork, goWorkTime := Some(now))
    ensures r.status == CheckOut ==>
      ButtonStep(r, now).Some? &&
      Merge(r, ButtonStep(r, now).value) == r.(status := Complete, completeTime := Some(now))
  {
  }

  /** From GO_WORK the press is refused exactly inside the 5-minute window, and otherwise stamps the check-in. */
  lemma GoWorkGate(r: Record, now: int)
    requires r.status == GoWork
    ensures ButtonStep(r, now).None? <==> (r.goWorkTime.Some? && now - r.goWorkTime.value < 300000)
    ensures ButtonStep(r, now).Some? ==>
      Merge(r, ButtonStep(r, now).value) == r.(status := CheckIn, checkInTime := Some(now))
  {
  }

  /** From CHECK_IN the press is refused exactly inside the 2-hour window, and otherwise stamps the check-out. */
  lemma CheckInGate(r: Record, now: int)
    requires r.status == CheckIn
    ensures ButtonStep(r, now).None? <==> (r.checkInTime.Some? && now - r.checkInTime.value < 7200000)
    ensures ButtonStep(r, now).Some? ==>
      Merge(r, ButtonStep(r, now).value) == r.(status := CheckOut, checkOutTime := Some(now))
  {
  }

  /** COMPLETE and every day-type status ignore the press whatever the time. */
  lemma InertStatuses(r: Record, now: int)
    requires r.status in {Complete, Absent, Leave, Sick, Holiday, LateOrEarly}
    ensures ButtonStep(r, now).None?
  {
  }

  /** Every step the button takes is one the transition table permits. */
  lemma ButtonStepPermitted(r: Record, now: int)
    requires ButtonStep(r, now).Some?
    ensures ButtonStep(r, now).value.status.Some?
    ensures CanTransition(r.status, ButtonStep(r, now).value.status.value)
  {
  }

  /** Every timestamp `r` carries is at or before `now`. */
  predicate NotAfter(r: Record, now: int) {
    && (r.goWorkTime.Some? ==> r.goWorkTime.value <= now)
    && (r.checkInTime.Some? ==> r.checkInTime.value <= now)
    && (r.checkOutTime.Some? ==> r.checkOutTime.value <= now)
    && (r.completeTime.Some? ==> r.completeTime.value <= now)
  }

  /**
   * The records the button produces from a reset: each forward status
   * carries exactly the timestamps of the steps taken so far, spaced by at
   * least the dwell times the gates impose; day-type statuses carry none.
   */
  predicate Lifecycle(r: Record) {
    match r.status
    case NotStarted => NoTimestamps(r)
    case GoWork =>
      r.goWorkTime.Some? && r.checkInTime.None? && r.checkOutTime.None? && r.completeTime.None?
    case CheckIn =>
      && r.goWorkTime.Some? && r.checkInTime.Some? && r.checkOutTime.None? && r.completeTime.None?
      && r.checkInTime.value - r.goWorkTime.value >= GoWorkDwellMs
    case CheckOut =>
      && r.goWorkTime.Some? && r.checkInTime.Some? && r.checkOutTime.Some? && r.completeTime.None?
      && r.checkInTime.value - r.goWorkTime.value >= GoWorkDwellMs
      && r.checkOutTime.value - r.checkInTime.value >= CheckInDwellMs
    case Complete =>
      && r.goWorkTime.Some? && r.checkInTime.Some? && r.checkOutTime.Some? && r.completeTime.Some?
      && r.checkInTime.value - r.goWorkTime.value >= GoWorkDwellMs
      && r.checkOutTime.value - r.checkInTime.value >= CheckInDwellMs
      && r.completeTime.value >= r.checkOutTime.value
    case _ => NoTimestamps(r)
  }

  /**
   * Pressing the button on a record of the lifecycle, with a clock that has
   * not run backwards, yields a record of the lifecycle again. The gates
   * supply the two dwell gaps; only the CHECK_OUT step relies on the clock.
   */
  lemma ButtonKeepsLifecycle(r: Record, now: int)
    requires Lifecycle(r) && NotAfter(r, now)
    ensures ButtonStep(r, now).Some? ==>
      Lifecycle(Merge(r, ButtonStep(r, now).value)) && NotAfter(Merge(r, ButtonStep(r, now).value), now)
  {
  }

  /** In a lifecycle record the timestamps are non-decreasing in the order go-work, check-in, check-out, complete. */
  lemma LifecycleOrdered(r: Record)
    requires Lifecycle(r)
    ensures r.goWorkTime.Some? && r.checkInTime.Some? ==> r.goWorkTime.value <= r.checkInTime.value
    ensures r.checkInTime.Some? && r.checkOutTime.Some? ==> r.checkInTime.value <= r.checkOutTime.value
    ensures r.checkOutTime.Some? && r.completeTime.Some? ==> r.checkOutTime.value <= r.completeTime.value
  {
  }

  // ---------------------------------------------------------------------
  // The weekly view
  // ---------------------------------------------------------------------

  /** The Monday of the week containing day `d`, as `getWeeklyAttendance` computes it from `getDay`. */
  function WeekStart(d: int): int {
    var day := Weekday(d);
    d - day + (if day == 0 then -6 else 1)
  }

  /** The week start is a Monday at most six days before `d`; a Sunday maps back six days. */
  lemma WeekStartIsMonday(d: int)
    ensures Weekday(WeekStart(d)) == 1
    ensures WeekStart(d) <= d <= WeekStart(d) + 6
    ensures Weekday(d) == 0 ==> WeekStart(d) == d - 6
  {
    var w := Weekday(d);
    var k := if w == 0 then 6 else w - 1;
    assert WeekStart(d) == d - k;
    WeekdayShift(d - k, k);
    assert Weekday(d) == (Weekday(d - k) + k) % 7;
  }

  /** The week start is the only Monday `m` with `m <= d <= m + 6`. */
  lemma WeekStartUnique(d: int, m: int)
    requires Weekday(m) == 1 && m <= d <= m + 6
    ensures m == WeekStart(d)
  {
    WeekStartIsMonday(d);
    var ws := WeekStart(d);
    if m < ws {
      WeekdayShift(m, ws - m);
    } else if ws < m {
      WeekdayShift(ws, m - ws);
    }
  }

  /** One entry of the weekly view. */
  datatype WeekEntry = WeekEntry(date: int, dateStr: DateKey, status: Record)

  /** A stored record, or `{ status: NOT_STARTED }` for a date with none. */
  function RecordOrDefault(records: map<DateKey, Record>, key: DateKey): Record {
    if key in records then records[key] else OnlyStatus(NotStarted)
  }

  // ---------------------------------------------------------------------
  // The provider: state, the durable medium and the operations
  // ---------------------------------------------------------------------

  /** The keys the provider writes: 'attendanceRecords' and 'attendance_<yyyy-MM-dd>'. */
  datatype AttendanceKey = RecordsKey | DayKey(date: DateKey)

  /** What the provider stores under them. */
  datatype AttendanceValue = RecordMap(records: map<DateKey, Record>) | DayRecord(record: Record)

  type AttendanceMedium = Storage.Medium<AttendanceKey, AttendanceValue>

  /**
   * The state the two-write protocol of `updateTodayStatus` and
   * `resetTodayStatus` leaves when it writes `next` for day `today`, from
   * `todayStatus`, records and medium `status0`, `records0`, `entries0`:
   * the first write stores today's key and sets `todayStatus`; only the
   * second stores and sets the record map. A failed second write therefore
   * leaves `todayStatus` changed and the records not.
   */
  predicate TodayWritten(next: Record, today: int, firstWrite: bool, secondWrite: bool,
                         status0: Record, records0: map<DateKey, Record>, entries0: map<AttendanceKey, AttendanceValue>,
                         status1: Record, records1: map<DateKey, Record>, entries1: map<AttendanceKey, AttendanceValue>)
  {
    && status1 == (if firstWrite then next else status0)
    && records1 == (if firstWrite && secondWrite then records0[FormatDate(today) := next] else records0)
    && entries1 ==
      (if !firstWrite then entries0
       else if !secondWrite then entries0[DayKey(FormatDate(today)) := DayRecord(next)]
       else entries0[DayKey(FormatDate(today)) := DayRecord(next)][RecordsKey := RecordMap(records1)])
  }

  /**
   * The state `updateDateStatus(date, status)` leaves: the first write
   * stores and sets the record map with `date` replaced wholesale; when
   * `date` is today a second write stores today's key and sets
   * `todayStatus`.
   */
  predicate DateWritten(date: int, status: Record, today: int, firstWrite: bool, secondWrite: bool,
                        status0: Record, records0: map<DateKey, Record>, entries0: map<AttendanceKey, AttendanceValue>,
                        status1: Record, records1: map<DateKey, Record>, entries1: map<AttendanceKey, AttendanceValue>)
  {
    && records1 == (if firstWrite then records0[FormatDate(date) := status] else records0)
    && status1 == (if firstWrite && secondWrite && date == today then status else status0)
    && entries1 ==
      (if !firstWrite then entries0
       else if date != today || !secondWrite then entries0[RecordsKey := RecordMap(records1)]
       else entries0[RecordsKey := RecordMap(records1)][DayKey(FormatDate(date)) := DayRecord(status)])
  }

  /**
   * A successful write of `next` for today puts `next` at today's key of
   * both the records and the medium, and keeps every other date; a failed
   * first write changes nothing.
   */
  lemma TodayWrittenEffect(next: Record, today: int, firstWrite: bool, secondWrite: bool,
                           status0: Record, records0: map<DateKey, Record>, entries0: map<AttendanceKey, AttendanceValue>,
                           status1: Record, records1: map<DateKey, Record>, entries1: map<AttendanceKey, AttendanceValue>,
                           other: int)
    requires TodayWritten(next, today, firstWrite, secondWrite, status0, records0, entries0, status1, records1, entries1)
    ensures !firstWrite ==> status1 == status0 && records1 == records0 && entries1 == entries0
    ensures firstWrite && secondWrite ==>
      && status1 == next && records1[FormatDate(today)] == next
      && entries1[DayKey(FormatDate(today))] == DayRecord(next)
      && entries1[RecordsKey] == RecordMap(records1)
    ensures firstWrite && secondWrite && other != today ==>
      (FormatDate(other) in records1 <==> FormatDate(other) in records0)
      && (FormatDate(other) in records0 ==> records1[FormatDate(other)] == records0[FormatDate(other)])
  {
  }

  class AttendanceProvider {
    var attendanceRecords: map<DateKey, Record>
    var todayStatus: Record
    const medium: AttendanceMedium

    /** The state before loading: no records, today not started. */
    constructor (medium: AttendanceMedium)
      ensures this.medium == medium
      ensures attendanceRecords == map[] && todayStatus == ResetRecord
    {
      this.medium := medium;
      attendanceRecords := map[];
      todayStatus := ResetRecord;
    }

    /** The record store's entry for `today` is the `todayStatus` shortcut. */
    predicate TodayInStep(today: int)
      reads this
    {
      FormatDate(today) in attendanceRecords && attendanceRecords[FormatDate(today)] == todayStatus
    }

    /**
     * `loadAttendanceRecords`: both reads happen first, so a failed read
     * changes nothing; otherwise a stored map replaces the records and
     * today's stored record (or a reset record) becomes `todayStatus`.
     */
    method LoadAttendanceRecords(today: int, available: bool)
      modifies this
      ensures medium.entries == old(medium.entries)
      ensures !available ==> attendanceRecords == old(attendanceRecords) && todayStatus == old(todayStatus)
      ensures available ==>
        attendanceRecords ==
          (if RecordsKey in medium.entries && medium.entries[RecordsKey].RecordMap?
           then medium.entries[RecordsKey].records else old(attendanceRecords))
      ensures available ==>
        todayStatus ==
          (if DayKey(FormatDate(today)) in medium.entries && medium.entries[DayKey(FormatDate(today))].DayRecord?
           then medium.entries[DayKey(FormatDate(today))].record else ResetRecord)
    {
      var ok1, data := medium.GetItem(RecordsKey, available);
      if !ok1 { return; }
      var ok2, todayData := medium.GetItem(DayKey(FormatDate(today)), available);
      if !ok2 { return; }
      if data.Some? && data.value.RecordMap? {
        attendanceRecords := data.value.records;
      }
      if todayData.Some? && todayData.value.DayRecord? {
        todayStatus := todayData.value.record;
      } else {
        todayStatus := ResetRecord;
      }
    }

    /**
     * `updateTodayStatus(patch)`: merges the patch over `todayStatus`, writes
     * today's key, sets `todayStatus`, then writes the record map and sets
     * it. A failure of the second write leaves `todayStatus` already changed.
     */
    method UpdateTodayStatus(patch: Patch, today: int, firstWrite: bool, secondWrite: bool) returns (ok: bool)
      modifies this, medium
      ensures ok == (firstWrite && secondWrite)
      ensures TodayWritten(Merge(old(todayStatus), patch), today, firstWrite, secondWrite,
                           old(todayStatus), old(attendanceRecords), old(medium.entries),
                           todayStatus, attendanceRecords, medium.entries)
      ensures ok ==> TodayInStep(today)
    {
      var key := FormatDate(today);
      var updatedStatus := Merge(todayStatus, patch);
      var w1 := medium.SetItem(DayKey(key), DayRecord(updatedStatus), firstWrite);
      if !w1 { return false; }
      todayStatus := updatedStatus;
      var updatedRecords := attendanceRecords[key := updatedStatus];
      var w2 := medium.SetItem(RecordsKey, RecordMap(updatedRecords), secondWrite);
      if !w2 { return false; }
      attendanceRecords := updatedRecords;
      return true;
    }

    /** `resetTodayStatus`: the same two writes with a reset record instead of a merge. */
    method ResetTodayStatus(today: int, firstWrite: bool, secondWrite: bool) returns (ok: bool)
      modifies this, medium
      ensures ok == (firstWrite && secondWrite)
      ensures TodayWritten(ResetRecord, today, firstWrite, secondWrite,
                           old(todayStatus), old(attendanceRecords), old(medium.entries),
                           todayStatus, attendanceRecords, medium.entries)
      ensures ok ==> TodayInStep(today)
    {
      var key := FormatDate(today);
      var resetStatus := ResetRecord;
      var w1 := medium.SetItem(DayKey(key), DayRecord(resetStatus), firstWrite);
      if !w1 { return false; }
      todayStatus := resetStatus;
      var updatedRecords := attendanceRecords[key := resetStatus];
      var w2 := medium.SetItem(RecordsKey, RecordMap(updatedRecords), secondWrite);
      if !w2 { return false; }
      attendanceRecords := updatedRecords;
      return true;
    }

    /**
     * `updateDateStatus(date, status)`: replaces the record of `date`
     * wholesale, with no merge and no check that the date is not in the
     * future; when `date` is today it also writes today's key and sets
     * `todayStatus`.
     */
    method UpdateDateStatus(date: int, status: Record, today: int, firstWrite: bool, secondWrite: bool)
      returns (ok: bool)
      modifies this, medium
      ensures ok == (firstWrite && (date == today ==> secondWrite))
      ensures DateWritten(date, status, today, firstWrite, secondWrite,
                          old(todayStatus), old(attendanceRecords), old(medium.entries),
                          todayStatus, attendanceRecords, medium.entries)
      ensures ok && date == today ==> TodayInStep(today)
      ensures ok && date != today && old(TodayInStep(today)) ==> TodayInStep(today)
    {
      var formattedDate := FormatDate(date);
      var updatedRecords := attendanceRecords[formattedDate := status];
      var w1 := medium.SetItem(RecordsKey, RecordMap(updatedRecords), firstWrite);
      if !w1 { return false; }
      attendanceRecords := updatedRecords;
      if formattedDate == FormatDate(today) {
        var w2 := medium.SetItem(DayKey(formattedDate), DayRecord(status), secondWrite);
        if !w2 { return false; }
        todayStatus := status;
      }
      return true;
    }

    /**
     * `getWeeklyAttendance(startDate)`: the seven days from the Monday of
     * the week containing `startDate`, each with its stored record or
     * `{ status: NOT_STARTED }`.
     */
    method GetWeeklyAttendance(startDate: int) returns (result: seq<WeekEntry>)
      ensures |result| == 7
      ensures Weekday(result[0].date) == 1
      ensures result[0].date <= DayOf(startDate) <= result[0].date + 6
      ensures forall i :: 0 <= i < 7 ==> result[i].date == result[0].date + i
      ensures forall i :: 0 <= i < 7 ==> result[i].dateStr == FormatDate(result[i].date)
      ensures forall i :: 0 <= i < 7 ==> result[i].status == RecordOrDefault(attendanceRecords, result[i].dateStr)
    {
      result := [];
      var currentDate := DayOf(startDate);
      var day := Weekday(currentDate);
      var diff := currentDate - day + (if day == 0 then -6 else 1);
      currentDate := diff;
      WeekStartIsMonday(DayOf(startDate));
      for i := 0 to 7
        invariant currentDate == diff + i
        invariant |result| == i
        invariant forall j :: 0 <= j < i ==> result[j].date == diff + j
        invariant forall j :: 0 <= j < i ==> result[j].dateStr == FormatDate(result[j].date)
        invariant forall j :: 0 <= j < i ==> result[j].status == RecordOrDefault(attendanceRecords, result[j].dateStr)
      {
        var dateStr := FormatDate(currentDate);
        result := result + [WeekEntry(currentDate, dateStr, RecordOrDefault(attendanceRecords, dateStr))];
        currentDate := currentDate + 1;
      }
    }

    /**
     * `handleMultiPurposeButton` at instant `now`: a refused step returns
     * false and writes nothing; otherwise the step's patch goes through
     * `updateTodayStatus` for the day of `now`.
     */
    method HandleMultiPurposeButton(now: int, firstWrite: bool, secondWrite: bool) returns (ok: bool)
      modifies this, medium
      ensures ButtonStep(old(todayStatus), now).None? ==>
        !ok && todayStatus == old(todayStatus) && attendanceRecords == old(attendanceRecords)
        && medium.entries == old(medium.entries)
      ensures ButtonStep(old(todayStatus), now).Some? ==>
        && ok == (firstWrite && secondWrite)
        && TodayWritten(Merge(old(todayStatus), ButtonStep(old(todayStatus), now).value), DayOf(now),
                        firstWrite, secondWrite,
                        old(todayStatus), old(attendanceRecords), old(medium.entries),
                        todayStatus, attendanceRecords, medium.entries)
      ensures ok ==> CanTransition(old(todayStatus).status, todayStatus.status) && TodayInStep(DayOf(now))
    {
      var step := ButtonStep(todayStatus, now);
      if step.None? { return false; }
      ButtonStepPermitted(todayStatus, now);
      ok := UpdateTodayStatus(step.value, DayOf(now), firstWrite, secondWrite);
    }
  }
}
