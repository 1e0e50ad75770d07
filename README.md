# AttendoE attendance core in Dafny

This project models the attendance core of AttendoE, a React Native app that
tracks one user's working day. The day moves through the statuses
NOT_STARTED → GO_WORK → CHECK_IN → CHECK_OUT → COMPLETE. Day-type statuses
(ABSENT, LEAVE, SICK, HOLIDAY, LATE_OR_EARLY) can be set from the week grid.

The model covers:

- the status set and the (unused) transition table;
- the multi-purpose button's state machine with its two dwell gates
  (5 minutes after GO_WORK, 2 hours after CHECK_IN);
- the date-keyed record store, with its `todayStatus` shortcut and a durable
  medium whose reads and writes may fail;
- the weekly aggregation that starts on Monday.

It also models the logic around that core:

- the week grid's icons, columns and future masking, and its override menu;
- the home screen's dwell warning and reset flow;
- the button's labels and disabled rule;
- the notes list and its recent-notes query;
- reminder-day formatting;
- the note editor's validators;
- the shift list's ordering and paging.

Modules follow the source files:

| module | file | source |
|---|---|---|
| `Attendance` | attendance.dfy | src/context/AttendanceContext.js |
| `WeekStatusGrid` | week_status_grid.dfy | src/components/WeekStatusGrid.js |
| `HomeScreen` | home_screen.dfy | src/screens/HomeScreen.js |
| `MultiPurposeButton` | multi_purpose_button.dfy | src/components/MultiPurposeButton.js |
| `Notes` | notes.dfy | src/context/NotesContext.js |
| `NoteCard` | note_card.dfy | src/components/NoteCard.js |
| `AddEditNote` | add_edit_note.dfy | src/components/AddEditNoteScreen.js |
| `ShiftList` | shift_list.dfy | src/screens/ShiftListScreen.js |
| `Calendar`, `Storage`, `Wrappers` | calendar.dfy, storage.dfy, wrappers.dfy | shared vocabulary: instants, days, the durable medium, `Option` |

Conventions:

- **Instants** are integers: milliseconds on the local wall clock.
- **Days** are integer day numbers (`DayOf(ms) = ms / 86400000`).
- **Weekday** is JavaScript's `getDay` (0 is Sunday, day 0 is a Thursday).
- **Date keys**: a `yyyy-MM-dd` key is `FormatDate(d)`, an injective function of the day number.
- **The durable medium** (AsyncStorage) is a `Storage.Medium` object. Each of its
  calls takes an `available` flag, chosen by the environment. When the flag is
  false, the read or write fails. A failed write makes the operation return
  `false`, as the source's `catch` blocks do. The two loads return nothing:
  a failed read leaves the attendance state as it was, and makes the notes
  list fall back to `[]`.
- **State**: the providers' and screens' React state is held in classes
  (`AttendanceProvider`, `NotesProvider`, `GridState`, `HomeScreenState`,
  `NoteEditor`, `ShiftListState`). Their methods state the whole new state.

The model follows the code as written, including where it does less than a
reader of the app might expect:

- **No bypass.** Confirming the dwell warning presses the button again, and
  the dwell check refuses the press again. Nothing lets a press skip the
  dwell check.
- **No future-date check in the store.** `updateDateStatus` accepts future
  dates. Only the grid blocks them.
- **The grid's lookup never hits.** The grid indexes the weekly array with a
  date string and finds nothing, so past cells always show '--' and the default
  times.
- **Partial writes.** `updateTodayStatus` and `resetTodayStatus` change
  `todayStatus` before their second write. `updateDateStatus` changes the
  records before its second write. The home screen's `buttonState` follows
  `todayStatus` through its effect, so after a failed second write the
  button already shows the new status.

## Model

| member | source | states |
|---|---|---|
| `Attendance.StatusNameInjective` | src/context/AttendanceContext.js:8-19 | the ten statuses are stored under ten distinct strings |
| `Attendance.MergeFields` | src/context/AttendanceContext.js:68 | the spread merge takes each field the patch carries and keeps every other field, so earlier timestamps survive |
| `Attendance.Merge` | src/context/AttendanceContext.js:68 | `{ ...todayStatus, ...newStatus }`; its field-by-field meaning is stated by `MergeFields` |
| `Attendance.TableDeadEnds` | src/context/AttendanceContext.js:161-171 | nothing is permitted after COMPLETE or after a day-type status, and LATE_OR_EARLY is never a permitted target |
| `Attendance.CanTransition` | src/context/AttendanceContext.js:161-171 | the `validTransitions` table; its dead ends are stated by `TableDeadEnds`, its agreement with the button by `ButtonStepPermitted` |
| `Attendance.ButtonStep` | src/context/AttendanceContext.js:177-213 | the status switch of `handleMultiPurposeButton`: the patch it writes, or none when it returns false; stated case by case by `UngatedSteps`, `GoWorkGate`, `CheckInGate` and `InertStatuses` |
| `Attendance.UngatedSteps` | src/context/AttendanceContext.js:177-210 | NOT_STARTED always yields GO_WORK with `goWorkTime = now`, and CHECK_OUT always yields COMPLETE with `completeTime = now`, other fields kept |
| `Attendance.GoWorkGate` | src/context/AttendanceContext.js:184-193 | from GO_WORK the press is refused iff a go-work time is set and fewer than 300000 ms have elapsed; otherwise it yields CHECK_IN with `checkInTime = now` |
| `Attendance.CheckInGate` | src/context/AttendanceContext.js:195-204 | from CHECK_IN the press is refused iff a check-in time is set and fewer than 7200000 ms have elapsed; otherwise it yields CHECK_OUT with `checkOutTime = now` |
| `Attendance.InertStatuses` | src/context/AttendanceContext.js:212-213 | COMPLETE and every day-type status refuse the press at any time |
| `Attendance.ButtonStepPermitted` | src/context/AttendanceContext.js:161-215 | every step the button takes is permitted by `canTransition` |
| `Attendance.ButtonKeepsLifecycle` | src/context/AttendanceContext.js:174-215 | starting from a reset record, with a clock that does not run backwards, presses keep each forward status carrying exactly its steps' timestamps, spaced by at least the two dwell times |
| `Attendance.LifecycleOrdered` | src/context/AttendanceContext.js:174-215 | in such a record go-work ≤ check-in ≤ check-out ≤ complete |
| `Attendance.WeekStartIsMonday` | src/context/AttendanceContext.js:141-144 | the computed week start is a Monday at most six days before the start date; a Sunday maps back six days |
| `Attendance.WeekStartUnique` | src/context/AttendanceContext.js:141-144 | the week start is the only Monday within the six days up to the start date |
| `Attendance.WeekStart` | src/context/AttendanceContext.js:141-144 | the `getDay` arithmetic that finds Monday; characterised by `WeekStartIsMonday` and `WeekStartUnique` |
| `Attendance.TodayWritten` | src/context/AttendanceContext.js:65-111 | the state after the two writes of `updateTodayStatus`/`resetTodayStatus`; its consequences are stated by `TodayWrittenEffect` |
| `Attendance.DateWritten` | src/context/AttendanceContext.js:114-128 | the state after the writes of `updateDateStatus` |
| `Attendance.TodayWrittenEffect` | src/context/AttendanceContext.js:65-111 | a failed first write changes nothing; after both writes today's record and today's medium key hold the new record, the medium's map is the new records, and every other date keeps its record |
| `Attendance.AttendanceProvider.constructor` | src/context/AttendanceContext.js:22-29 | the state starts with no records and a reset record for today |
| `Attendance.AttendanceProvider.LoadAttendanceRecords` | src/context/AttendanceContext.js:36-63 | a failed read changes nothing; otherwise a stored map replaces the records, and today's stored record (or a reset record when none) becomes `todayStatus` |
| `Attendance.AttendanceProvider.UpdateTodayStatus` | src/context/AttendanceContext.js:65-85 | succeeds iff both writes succeed; the new state is `TodayWritten` for the merge: `todayStatus` becomes the merge once the first write succeeds; the records take it at today's key only when the second does; the medium holds exactly what was written; on success today is in step |
| `Attendance.AttendanceProvider.ResetTodayStatus` | src/context/AttendanceContext.js:87-112 | the same two writes (`TodayWritten`) with NOT_STARTED and four null timestamps, whatever the old record |
| `Attendance.AttendanceProvider.UpdateDateStatus` | src/context/AttendanceContext.js:114-135 | the new state is `DateWritten`: `records[date]` replaced wholesale with no merge and no future-date check; today's key and `todayStatus` written only when the date is today and the first write succeeded; every other key unchanged; the medium holds exactly what was written |
| `Attendance.AttendanceProvider.GetWeeklyAttendance` | src/context/AttendanceContext.js:137-158 | seven consecutive days from the Monday of the start date's week, each with its key and its stored record or `{ status: NOT_STARTED }` |
| `Attendance.AttendanceProvider.HandleMultiPurposeButton` | src/context/AttendanceContext.js:174-215 | a refused step returns false and changes nothing; otherwise the new state, medium included, is `TodayWritten` for the step's merged record on the day of `now`, and a success is a transition `canTransition` permits |
| `Calendar.MidnightAfterIff` | src/components/WeekStatusGrid.js:120 | a day's midnight lies after `now` iff the day comes after today |
| `Calendar.FormatDateInjective` | src/components/WeekStatusGrid.js:96 | two days share a `yyyy-MM-dd` key iff they are the same day |
| `WeekStatusGrid.StatusIconCategories` | src/components/WeekStatusGrid.js:27-47 | GO_WORK, CHECK_IN and CHECK_OUT share the in-progress icon and nothing else has it; null and NOT_STARTED get '--'; other statuses have icons of their own |
| `WeekStatusGrid.StatusIcon` | src/components/WeekStatusGrid.js:27-47 | `getStatusIcon`; its categories are stated by `StatusIconCategories` |
| `WeekStatusGrid.StartOfWeekAgrees` | src/components/WeekStatusGrid.js:76 | date-fns `startOfWeek` with Monday as first day equals the week start `getWeeklyAttendance` computes |
| `WeekStatusGrid.WeekColumnsShape` | src/components/WeekStatusGrid.js:93-120 | the columns are Monday+0 … Monday+6 of the current week; a column is today iff its key is today's, and future iff its date is after today |
| `WeekStatusGrid.OneTodayColumn` | src/components/WeekStatusGrid.js:93-96 | exactly one column is today, it is not future, and every later column is future |
| `WeekStatusGrid.WeekColumns` | src/components/WeekStatusGrid.js:93-120 | the seven columns `renderWeekGrid` builds; stated by `WeekColumnsShape` and `OneTodayColumn` |
| `WeekStatusGrid.CellsOfColumn` | src/components/WeekStatusGrid.js:114-165 | a future column shows '?', '-\n-' and is disabled; any other shows '--' with 08:00 and 20:00 |
| `WeekStatusGrid.CellsIgnoreStore` | src/components/WeekStatusGrid.js:116-156 | the cells are the same whatever the weekly data, because the string-indexed lookup never finds a record |
| `WeekStatusGrid.StatusCell` | src/components/WeekStatusGrid.js:116-125 | the status cell of a column; stated by `CellsOfColumn` and `CellsIgnoreStore` |
| `WeekStatusGrid.TimeCell` | src/components/WeekStatusGrid.js:147-156 | the time cell of a column; stated by `CellsOfColumn` and `CellsIgnoreStore` |
| `WeekStatusGrid.StatusOptionsExact` | src/components/WeekStatusGrid.js:255-263 | the menu offers exactly COMPLETE, ABSENT, LEAVE, SICK, HOLIDAY, LATE_OR_EARLY, once each, including targets the table never permits |
| `WeekStatusGrid.GridState.constructor` | src/components/WeekStatusGrid.js:20-22 | no day is selected and no modal is shown |
| `WeekStatusGrid.GridState.HandleDayPress` | src/components/WeekStatusGrid.js:50-58 | a future day is ignored; any other becomes the selected day and opens its detail |
| `WeekStatusGrid.GridState.HandleStatusPress` | src/components/WeekStatusGrid.js:60-63 | the detail modal closes and the status menu opens |
| `WeekStatusGrid.GridState.HandleStatusSelection` | src/components/WeekStatusGrid.js:65-70 | with a day selected, the provider's records, `todayStatus` and medium are `DateWritten` for `{ status }` with no timestamps on that day, and the menu closes whatever the result; with none, nothing changes |
| `HomeScreen.ConfirmationIffRefused` | src/screens/HomeScreen.js:61-87 | the warning is shown iff the status is GO_WORK or CHECK_IN and the context would refuse the press |
| `HomeScreen.NeedsConfirmation` | src/screens/HomeScreen.js:63-87 | the two warning conditions of `handleButtonPress`; related to the context's refusal by `ConfirmationIffRefused` |
| `HomeScreen.ResetButtonVisible` | src/screens/HomeScreen.js:228 | the reset button's visibility; `ConfirmReset` states that a reset hides it |
| `HomeScreen.HomeScreenState.constructor` | src/screens/HomeScreen.js:34 | `buttonState` starts at the given status |
| `HomeScreen.HomeScreenState.HandleButtonPress` | src/screens/HomeScreen.js:53-113 | inside a dwell window only the warning appears and nothing else changes; otherwise the context's button is pressed directly: a refused press changes nothing, a taken one leaves the provider as `TodayWritten` for the step, and `buttonState` follows `todayStatus` once the first write went through, even if the second failed; a success is a permitted transition |
| `HomeScreen.HomeScreenState.ConfirmWarning` | src/screens/HomeScreen.js:74-81 | confirming presses the context's button again with no bypass: inside the window it returns false and nothing changes; outside it the provider and `buttonState` change as for a direct press, `buttonState` following `todayStatus` through the effect at lines 53-55 |
| `HomeScreen.HomeScreenState.CancelWarning` | src/screens/HomeScreen.js:70-73 | cancelling hides the warning and changes nothing else |
| `HomeScreen.HomeScreenState.HandleResetPress` | src/screens/HomeScreen.js:115-123 | pressing reset only asks for confirmation |
| `HomeScreen.HomeScreenState.ConfirmReset` | src/screens/HomeScreen.js:124-131 | the provider is `TodayWritten` for the reset record; once the first write went through `buttonState` is NOT_STARTED, matching `todayStatus`, and the reset button is hidden (the effect at lines 53-55, then the explicit set on success), even if the second write failed; otherwise `buttonState` is kept |
| `HomeScreen.FormatTime` | src/screens/HomeScreen.js:137-140 | the text is five characters with ':' in the middle |
| `HomeScreen.FormatTimeRoundTrip` | src/screens/HomeScreen.js:137-140 | a missing time is '--:--'; a set time reads back as the hour and minute of its day |
| `MultiPurposeButton.LabelNamesNextAction` | src/components/MultiPurposeButton.js:19-42 | whenever a press advances, the label shown names the status it advances to |
| `MultiPurposeButton.CompleteLabelShared` | src/components/MultiPurposeButton.js:37-48 | CHECK_OUT and COMPLETE both show the complete label, with different icons |
| `MultiPurposeButton.DayTypesFallBack` | src/components/MultiPurposeButton.js:49-54 | every day-type status draws the go_work configuration, is enabled, and a press on it does nothing |
| `MultiPurposeButton.DisabledIffComplete` | src/components/MultiPurposeButton.js:60-70 | the button is disabled iff the status is COMPLETE, where a press could not advance anyway |
| `MultiPurposeButton.GetButtonConfig` | src/components/MultiPurposeButton.js:17-56 | `getButtonConfig`; stated by `LabelNamesNextAction`, `CompleteLabelShared` and `DayTypesFallBack` |
| `MultiPurposeButton.IsDisabled` | src/components/MultiPurposeButton.js:60 | `isDisabled`; stated by `DisabledIffComplete` |
| `Notes.SuppliedFieldsWin` | src/context/NotesContext.js:34-38 | an `id` or `createdAt` the input supplies wins over the generated one, whatever was generated; the generated value is used only when the input lacks the field |
| `Notes.UpdateNotesPointwise` | src/context/NotesContext.js:52-54 | the update keeps length and order, merges into exactly the notes whose id matches, and leaves the others unchanged |
| `Notes.UpdateNotes` | src/context/NotesContext.js:52-54 | the `map` of `updateNote`; stated by `UpdateNotesPointwise` |
| `Notes.DeleteNotesAppend` | src/context/NotesContext.js:66 | the delete distributes over concatenation, so the kept notes stay in order |
| `Notes.DeleteNotesMembers` | src/context/NotesContext.js:66 | a note survives iff its id differs, with its multiplicity kept |
| `Notes.DeleteNotes` | src/context/NotesContext.js:66 | the `filter` of `deleteNote`; stated by `DeleteNotesAppend` and `DeleteNotesMembers` |
| `Notes.SortByReminderSpec` | src/context/NotesContext.js:78-79 | the sorted copy is ascending by reminder time and a permutation of the notes |
| `Notes.SortByReminder` | src/context/NotesContext.js:78-79 | the ascending sort of a copy by reminder time; stated by `SortByReminderSpec` |
| `Notes.RecentNotesSpec` | src/context/NotesContext.js:76-81 | the result has `min(limit, length)` notes, ascending (earliest first), drawn from the notes, and no left-out note is earlier than a taken one |
| `Notes.RecentNotes` | src/context/NotesContext.js:76-81 | `getRecentNotes(limit)`; stated by `RecentNotesSpec` |
| `Notes.NotesProvider.constructor` | src/context/NotesContext.js:8 | the list starts empty |
| `Notes.NotesProvider.LoadNotes` | src/context/NotesContext.js:15-30 | the stored list, or [] when there is none or the read fails |
| `Notes.NotesProvider.AddNote` | src/context/NotesContext.js:32-48 | on success exactly one note is appended at the end and the old notes are unchanged; on failure the list and the medium are unchanged |
| `Notes.NotesProvider.UpdateNote` | src/context/NotesContext.js:50-62 | on success the list is the pointwise merge; on failure nothing changes |
| `Notes.NotesProvider.DeleteNote` | src/context/NotesContext.js:64-74 | on success the list is the filtered one; on failure nothing changes |
| `NoteCard.DayLabels` | src/components/NoteCard.js:32 | one label per day, the label of day `d` being the short weekday at `d - 1` |
| `NoteCard.SortInPlace` | src/components/NoteCard.js:31 | the array ends up ascending and a permutation of what it held |
| `NoteCard.FormatReminderDays` | src/components/NoteCard.js:26-34 | '' for a null or empty list; the 'everyday' label for exactly seven days, unsorted; otherwise the caller's array is left sorted ascending and the text joins the days' short labels with ', ' |
| `NoteCard.JoinedDays` | src/components/NoteCard.js:30-33 | the text for several days is the text for all but the last, ', ', and the last day's label |
| `NoteCard.Join` | src/components/NoteCard.js:33 | `join(', ')`; stated by `JoinedDays` |
| `AddEditNote.TrimSpec` | src/components/AddEditNoteScreen.js:46 | a string trims to '' iff it is all whitespace; otherwise the trimmed string starts and ends with a non-space and is no longer |
| `AddEditNote.Trim` | src/components/AddEditNoteScreen.js:46 | `trim()`; stated by `TrimSpec` |
| `AddEditNote.ChecksSpec` | src/components/AddEditNoteScreen.js:45-69 | a title is required iff all whitespace, too long iff it trims to more than 100, accepted iff its trimmed length is 1 to 100; likewise content with 300 |
| `AddEditNote.TitleCheck` | src/components/AddEditNoteScreen.js:45-55 | the error `validateTitle` sets; stated by `ChecksSpec` |
| `AddEditNote.ContentCheck` | src/components/AddEditNoteScreen.js:58-68 | the error `validateContent` sets; stated by `ChecksSpec` |
| `AddEditNote.DefaultNoteShape` | src/components/AddEditNoteScreen.js:27-32 | a new note reminds on days [1,2,3,4,5], which the card lists as Monday to Friday; its empty title and content are refused |
| `AddEditNote.DefaultNote` | src/components/AddEditNoteScreen.js:27-32 | the initial note state; stated by `DefaultNoteShape` |
| `AddEditNote.NoteEditor.constructor` | src/components/AddEditNoteScreen.js:27-35 | the editor starts with the default note and no errors |
| `AddEditNote.NoteEditor.ValidateTitle` | src/components/AddEditNoteScreen.js:45-56 | sets the title error the rules give and returns true iff there is none |
| `AddEditNote.NoteEditor.ValidateContent` | src/components/AddEditNoteScreen.js:58-69 | sets the content error the rules give and returns true iff there is none |
| `AddEditNote.NoteEditor.SaveGate` | src/components/AddEditNoteScreen.js:71-77 | both validators always run and refresh both errors; saving proceeds iff both pass |
| `ShiftList.SortedShiftsSpec` | src/screens/ShiftListScreen.js:26-30 | the sorted list is a permutation of the shifts with every active shift before every other one |
| `ShiftList.NoActiveKeepsOrder` | src/screens/ShiftListScreen.js:26-30 | with no active shift the order is unchanged |
| `ShiftList.ActiveShiftFirst` | src/screens/ShiftListScreen.js:26-30 | when a shift is active, the sorted list starts with an active shift |
| `ShiftList.DistinctIdsOneActive` | src/screens/ShiftListScreen.js:67 | with distinct ids only the first row can be marked active |
| `ShiftList.SortedShifts` | src/screens/ShiftListScreen.js:26-30 | `sortedShifts`; stated by `SortedShiftsSpec`, `NoActiveKeepsOrder` and `ActiveShiftFirst` |
| `ShiftList.PaginateSpec` | src/screens/ShiftListScreen.js:32-35 | a page holds at most 3 shifts, those at positions `page*3 + k` of the sorted list |
| `ShiftList.Paginate` | src/screens/ShiftListScreen.js:32-35 | `paginatedShifts`; stated by `PaginateSpec` and `PagesCoverList` |
| `ShiftList.TotalPagesIsCeiling` | src/screens/ShiftListScreen.js:37 | the page count is the least number of 3-shift pages that holds the list |
| `ShiftList.TotalPages` | src/screens/ShiftListScreen.js:37 | `totalPages`; stated by `TotalPagesIsCeiling` and `PagerVisibleIff` |
| `ShiftList.PagerVisibleIff` | src/screens/ShiftListScreen.js:159 | the pager is shown iff there are more than three shifts |
| `ShiftList.PagesCoverList` | src/screens/ShiftListScreen.js:32-37 | read in order, pages 0 … totalPages-1 give back the whole sorted list |
| `ShiftList.PageMovesClamp` | src/screens/ShiftListScreen.js:161-184 | Prev never goes below 0 and Next never beyond `totalPages - 1`; from a page in range both stay in range |
| `ShiftList.PrevPage` | src/screens/ShiftListScreen.js:163 | the Prev callback's `Math.max`; stated by `PageMovesClamp` |
| `ShiftList.NextPage` | src/screens/ShiftListScreen.js:178-180 | the Next callback's `Math.min`; stated by `PageMovesClamp` |
| `ShiftList.ShiftListState.constructor` | src/screens/ShiftListScreen.js:23 | the list starts on page 0 |
| `ShiftList.ShiftListState.GoToPrevPage` | src/screens/ShiftListScreen.js:163 | the page becomes `max(0, page - 1)` |
| `ShiftList.ShiftListState.GoToNextPage` | src/screens/ShiftListScreen.js:178-180 | the page becomes `min(totalPages - 1, page + 1)` |
| `ShiftList.ShiftListState.VisibleShifts` | src/screens/ShiftListScreen.js:32-35 | the current page shows at most three of the shifts |

## Left out

- AsyncStorage and JSON (de)serialisation. The medium holds values, not
  strings, so a stored value of the wrong shape and a JSON parse error are not
  modelled.
- React plumbing is not modelled: hooks, the loading effects, contexts,
  re-render timing and the `loading` flag.
- HomeScreenState.HandleButtonPress: after a success the source sets
  `buttonState` from the `todayStatus` captured at render time, which is the
  old status. The effect at src/screens/HomeScreen.js:53-55 syncs it to the
  new one whenever `setTodayStatus` has run. The model sets the value that
  effect settles on, and does not model the order in which React applies
  the two updates. The same holds for HomeScreenState.ConfirmWarning and
  HomeScreenState.ConfirmReset.
- The recent-notes state and its effects on the home screen
  (src/screens/HomeScreen.js:36-59) are left out. So are the shift and
  timeline rendering.
- date-fns `format`/`startOfWeek`/`addDays` and JavaScript `Date` timezone
  semantics are abstracted. Time is local milliseconds, days are day numbers,
  and keys come from `FormatDate`. The UTC parsing of 'yyyy-MM-dd' strings
  (src/components/WeekStatusGrid.js:52 and
  src/context/AttendanceContext.js:116) is not modelled, and neither is
  `setDate` month overflow.
- Attendance.AttendanceProvider.HandleMultiPurposeButton: the source reads the
  clock once in the handler and again inside `updateTodayStatus`. The model
  uses one instant for both, so a press that straddles midnight is not modelled.
- Wall-clock sources, `setInterval` and `Date.now()` note ids are parameters
  (`now`, `generatedId`, `generatedCreatedAt`).
- Attendance.Patch cannot carry an explicit `null` field. No caller passes one;
  every patch the button builds sets a status and one timestamp.
- ISO timestamp strings are modelled as the milliseconds they encode.
  `formatTime` of an empty string is covered by the missing-time case.
- Rendering, styles, modals other than their visibility flags, navigation
  (AppNavigator.js) and ShiftCard.js's locale time formatting are not
  modelled. Localisation tables (en.js, vi.js) and `t()` are replaced by
  label datatypes, or by a lookup function passed as a parameter.
- AddEditNote.Trim: `trim` is modelled with the four ASCII whitespace
  characters. Unicode spaces are not covered, and lengths count characters,
  not UTF-16 code units.
- What `handleSaveNote` does after the validation gate
  (src/components/AddEditNoteScreen.js:79-82) is not part of this model:
  the file ends mid-function at line 82. The editor's edit mode is also left out.
- Notes.RecentNotes: `limit` is a natural number. The only caller passes 3, so
  JavaScript `slice` with a negative end is not modelled. Reminder times that
  parse to an invalid date (NaN in the comparator) are not modelled.
- ShiftList.SortedShifts: with two shifts that both carry the active id, the
  source's comparator is inconsistent and the order is up to the engine. The
  model takes the stable partition, which is the only order for distinct ids.
- ShiftList.ShiftListState.GoToNextPage: the model does not enforce that Next
  is only pressed while the pager is shown (more than one page).
- The code has no bypass flag for the dwell check, no error for a
  future date in the store, and no check that timestamps are in order
  beyond what the gates imply; the model has none either. No code calls `canTransition`; the model states properties
  about it but never calls it in an operation.
