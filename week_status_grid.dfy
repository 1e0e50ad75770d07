/**
 * The week grid (src/components/WeekStatusGrid.js): the status icons, the
 * seven columns of the current week with their today and future flags, the
 * cells the grid shows, and the day-press and override handlers.
 */
module WeekStatusGrid {
  import opened Wrappers
  import opened Calendar
  import opened Attendance

  /** The glyphs `getStatusIcon` and the future mask draw. */
  datatype Glyph = CheckMark | Dot | CrossMark | Envelope | Bed | Flags | LetterRV | Dashes | QuestionMark

  datatype StatusInfo = StatusInfo(icon: Glyph, color: string)

  /** `getStatusIcon(status)`; `None` is the `null` status of a missing day. */
  function StatusIcon(status: Option<Status>): StatusInfo {
    match status
    case Some(Complete) => StatusInfo(CheckMark, "#4CAF50")
    case Some(GoWork) => StatusInfo(Dot, "#FF9800")
    case Some(CheckIn) => StatusInfo(Dot, "#FF9800")
    case Some(CheckOut) => StatusInfo(Dot, "#FF9800")
    case Some(Absent) => StatusInfo(CrossMark, "#F44336")
    case Some(Leave) => StatusInfo(Envelope, "#2196F3")
    case Some(Sick) => StatusInfo(Bed, "#9C27B0")
    case Some(Holiday) => StatusInfo(Flags, "#E91E63")
    case Some(LateOrEarly) => StatusInfo(LetterRV, "#FF5722")
    case _ => StatusInfo(Dashes, "#9E9E9E")
  }

  /**
   * The three in-progress statuses share one icon and no other status uses
   * it; a null status and NOT_STARTED fall to '--'; the remaining statuses
   * each have an icon of their own.
   */
  lemma StatusIconCategories(status: Option<Status>, other: Option<Status>)
    ensures StatusIcon(status).icon == Dot <==> status in {Some(GoWork), Some(CheckIn), Some(CheckOut)}
    ensures StatusIcon(status).icon == Dashes <==> status in {None, Some(NotStarted)}
    ensures StatusIcon(status).icon == QuestionMark ==> false
    ensures StatusIcon(status) == StatusIcon(other) && status != other ==>
      StatusIcon(status).icon in {Dot, Dashes}
  {
  }

  /** What a future column shows instead of a status. */
  const FutureInfo: StatusInfo := StatusInfo(QuestionMark, "#9E9E9E")

  /** The times a future column shows. */
  const FutureTimes: string := "-\n-"

  /** The start and end times a past or present column falls back to. */
  const DefaultStartTime: string := "08:00"
  const DefaultEndTime: string := "20:00"

  /** date-fns `startOfWeek(day, { weekStartsOn: 1 })`, on day numbers. */
  function StartOfWeekMonday(d: int): int {
    var day := Weekday(d);
    var diff := (if day < 1 then 7 else 0) + day - 1;
    d - diff
  }

  /** The grid's week start agrees with the one `getWeeklyAttendance` computes. */
  lemma StartOfWeekAgrees(d: int)
    ensures StartOfWeekMonday(d) == WeekStart(d)
  {
  }

  /** One column of the grid. */
  datatype Column = Column(date: int, dateStr: DateKey, isToday: bool, isFuture: bool)

  /** The column `index` days after the start of the week containing `now`. */
  function ColumnAt(now: int, index: int): Column {
    var date := StartOfWeekMonday(DayOf(now)) + index;
    Column(
      date,
      FormatDate(date),
      FormatDate(date) == FormatDate(DayOf(now)),
      Midnight(date) > now)
  }

  /** The seven columns `renderWeekGrid` builds, Monday to Sunday. */
  function WeekColumns(now: int): seq<Column> {
    seq(7, i => ColumnAt(now, i))
  }

  /**
   * The columns are the seven days from the Monday of the current week; a
   * column is today exactly when its date is today's, and future exactly
   * when its date comes after today.
   */
  lemma WeekColumnsShape(now: int)
    ensures |WeekColumns(now)| == 7
    ensures Weekday(WeekColumns(now)[0].date) == 1
    ensures WeekColumns(now)[0].date <= DayOf(now) <= WeekColumns(now)[0].date + 6
    ensures forall i :: 0 <= i < 7 ==> WeekColumns(now)[i].date == WeekColumns(now)[0].date + i
    ensures forall i :: 0 <= i < 7 ==> WeekColumns(now)[i].dateStr == FormatDate(WeekColumns(now)[i].date)
    ensures forall i :: 0 <= i < 7 ==> (WeekColumns(now)[i].isToday <==> WeekColumns(now)[i].date == DayOf(now))
    ensures forall i :: 0 <= i < 7 ==> (WeekColumns(now)[i].isFuture <==> WeekColumns(now)[i].date > DayOf(now))
  {
    var cols := WeekColumns(now);
    StartOfWeekAgrees(DayOf(now));
    WeekStartIsMonday(DayOf(now));
    forall i | 0 <= i < 7
      ensures cols[i].isFuture <==> cols[i].date > DayOf(now)
    {
      MidnightAfterIff(cols[i].date, now);
    }
  }

  /** Exactly one column is today, and every column after it is future. */
  lemma OneTodayColumn(now: int)
    ensures exists i :: 0 <= i < 7 && WeekColumns(now)[i].isToday
    ensures forall i, j :: 0 <= i < 7 && 0 <= j < 7 && WeekColumns(now)[i].isToday && WeekColumns(now)[j].isToday ==> i == j
    ensures forall i, j :: 0 <= i < j < 7 && WeekColumns(now)[i].isToday ==> WeekColumns(now)[j].isFuture
    ensures forall i :: 0 <= i < 7 && WeekColumns(now)[i].isToday ==> !WeekColumns(now)[i].isFuture
  {
    WeekColumnsShape(now);
    var k := DayOf(now) - WeekColumns(now)[0].date;
    assert WeekColumns(now)[k].isToday;
  }

  /**
   * `weeklyData[dateStr]`: the grid indexes the array that
   * `getWeeklyAttendance` returns with a 'yyyy-MM-dd' string, which is
   * never an array index, so the lookup finds nothing whatever the array.
   */
  function WeeklyDataAt(weeklyData: seq<WeekEntry>, dateStr: DateKey): Option<Record> {
    None
  }

  /** The status a column's day data carries: `(weeklyData[dateStr] || { status: null }).status`. */
  function DayStatus(weeklyData: seq<WeekEntry>, dateStr: DateKey): Option<Status> {
    var dayData := WeeklyDataAt(weeklyData, dateStr);
    if dayData.Some? then Some(dayData.value.status) else None
  }

  /** The icon of a column's status cell. */
  function StatusCell(col: Column, weeklyData: seq<WeekEntry>): StatusInfo {
    if col.isFuture then FutureInfo else StatusIcon(DayStatus(weeklyData, col.dateStr))
  }

  /**
   * The text of a column's time cell. Stored records have no `startTime`
   * or `endTime` field, so past and present columns show the defaults.
   */
  function TimeCell(col: Column, weeklyData: seq<WeekEntry>): string {
    if col.isFuture then FutureTimes else DefaultStartTime + "\n" + DefaultEndTime
  }

  /** A status cell cannot be pressed for a future column. */
  predicate CellDisabled(col: Column) {
    col.isFuture
  }

  /**
   * A future column shows '?' and '-\n-' and is disabled; every other
   * column shows '--' with the default times, whatever the store holds.
   */
  lemma CellsOfColumn(col: Column, weeklyData: seq<WeekEntry>)
    ensures col.isFuture ==>
      StatusCell(col, weeklyData).icon == QuestionMark && TimeCell(col, weeklyData) == "-\n-" && CellDisabled(col)
    ensures !col.isFuture ==>
      StatusCell(col, weeklyData) == StatusIcon(None) && StatusCell(col, weeklyData).icon == Dashes
      && TimeCell(col, weeklyData) == "08:00\n20:00" && !CellDisabled(col)
  {
  }

  /** Two weekly views, however different, draw the same cells. */
  lemma CellsIgnoreStore(col: Column, a: seq<WeekEntry>, b: seq<WeekEntry>)
    ensures StatusCell(col, a) == StatusCell(col, b) && TimeCell(col, a) == TimeCell(col, b)
  {
  }

  /** The statuses the override menu offers, in menu order. */
  const StatusOptions: seq<Status> := [Complete, Absent, Leave, Sick, Holiday, LateOrEarly]

  /**
   * The menu offers six distinct statuses: every status except the four
   * the button walks through before COMPLETE. Among them is LATE_OR_EARLY,
   * which the transition table never permits.
   */
  lemma StatusOptionsExact(s: Status)
    ensures |StatusOptions| == 6
    ensures forall i, j :: 0 <= i < j < |StatusOptions| ==> StatusOptions[i] != StatusOptions[j]
    ensures s in StatusOptions <==> s !in {NotStarted, GoWork, CheckIn, CheckOut}
    ensures LateOrEarly in StatusOptions && !CanTransition(s, LateOrEarly)
    ensures Complete in StatusOptions && !CanTransition(NotStarted, Complete)
  {
  }

  /** The day a press of a status cell carries: `{ date: dateStr, status: dayData }`. */
  datatype DayPress = DayPress(date: int, dateStr: DateKey, status: Option<Status>)

  /** The press a column's cell sends. */
  function PressOf(col: Column, weeklyData: seq<WeekEntry>): DayPress {
    DayPress(col.date, col.dateStr, DayStatus(weeklyData, col.dateStr))
  }

  /** The grid's own state: the selected day and which modal is shown. */
  class GridState {
    var selectedDay: Option<DayPress>
    var detailModalVisible: bool
    var statusModalVisible: bool

    constructor ()
      ensures selectedDay == None && !detailModalVisible && !statusModalVisible
    {
      selectedDay := None;
      detailModalVisible := false;
      statusModalVisible := false;
    }

    /** `handleDayPress`: a day whose midnight lies after `now` is ignored; any other opens its detail. */
    method HandleDayPress(day: DayPress, now: int)
      modifies this
      ensures Midnight(day.date) > now ==>
        selectedDay == old(selectedDay) && detailModalVisible == old(detailModalVisible)
      ensures Midnight(day.date) <= now ==> selectedDay == Some(day) && detailModalVisible
      ensures statusModalVisible == old(statusModalVisible)
    {
      if Midnight(day.date) > now {
        return;
      }
      selectedDay := Some(day);
      detailModalVisible := true;
    }

    /** `handleStatusPress`: the detail modal gives way to the status menu. */
    method HandleStatusPress()
      modifies this
      ensures !detailModalVisible && statusModalVisible && selectedDay == old(selectedDay)
    {
      detailModalVisible := false;
      statusModalVisible := true;
    }

    /**
     * `handleStatusSelection(status)`: with a day selected, writes
     * `{ status }` (so no timestamps) for that day and closes the menu,
     * whether or not the write succeeded.
     */
    method HandleStatusSelection(status: Status, provider: AttendanceProvider, today: int,
                                 firstWrite: bool, secondWrite: bool)
      modifies this, provider, provider.medium
      ensures selectedDay == old(selectedDay) && detailModalVisible == old(detailModalVisible)
      ensures old(selectedDay).None? ==>
        statusModalVisible == old(statusModalVisible)
        && provider.attendanceRecords == old(provider.attendanceRecords)
        && provider.todayStatus == old(provider.todayStatus)
        && provider.medium.entries == old(provider.medium.entries)
      ensures old(selectedDay).Some? ==>
        !statusModalVisible
        && DateWritten(old(selectedDay).value.date, OnlyStatus(status), today, firstWrite, secondWrite,
                       old(provider.todayStatus), old(provider.attendanceRecords), old(provider.medium.entries),
                       provider.todayStatus, provider.attendanceRecords, provider.medium.entries)
    {
      if selectedDay.Some? {
        var _ := provider.UpdateDateStatus(selectedDay.value.date, OnlyStatus(status), today, firstWrite, secondWrite);
        statusModalVisible := false;
      }
    }
  }
}
