/**
 * The note editor (src/components/AddEditNoteScreen.js): the default draft,
 * the title and content validators with the error each sets, and the gate in
 * front of saving.
 */
module AddEditNote {
  import opened Wrappers
  import opened Notes
  import NoteCard

  /** The characters `trim` removes, restricted to the ASCII whitespace. */
  predicate IsSpace(c: char) {
    c == ' ' || c == '\t' || c == '\n' || c == '\r'
  }

  function TrimStart(s: string): string {
    if s != [] && IsSpace(s[0]) then TrimStart(s[1..]) else s
  }

  function TrimEnd(s: string): string {
    if s != [] && IsSpace(s[|s| - 1]) then TrimEnd(s[..|s| - 1]) else s
  }

  /** `String.prototype.trim`. */
  function Trim(s: string): string {
    TrimEnd(TrimStart(s))
  }

  predicate AllSpace(s: string) {
    forall i :: 0 <= i < |s| ==> IsSpace(s[i])
  }

  lemma {:induction false} TrimStartEmptyIff(s: string)
    ensures TrimStart(s) == "" <==> AllSpace(s)
    ensures TrimStart(s) != "" ==> !IsSpace(TrimStart(s)[0])
    ensures |TrimStart(s)| <= |s|
  {
    if s != [] && IsSpace(s[0]) {
      TrimStartEmptyIff(s[1..]);
      if AllSpace(s[1..]) {
        forall i | 0 <= i < |s| ensures IsSpace(s[i]) {
          if i > 0 { assert s[i] == s[1..][i - 1]; }
        }
      }
      if AllSpace(s) {
        forall i | 0 <= i < |s[1..]| ensures IsSpace(s[1..][i]) {
          assert s[1..][i] == s[i + 1];
        }
      }
    } else if s != [] {
      assert !IsSpace(s[0]);
    }
  }

  lemma {:induction false} TrimEndEmptyIff(s: string)
    ensures TrimEnd(s) == "" <==> AllSpace(s)
    ensures TrimEnd(s) != "" && !IsSpace(s[0]) ==> !IsSpace(TrimEnd(s)[0])
    ensures TrimEnd(s) != "" ==> !IsSpace(TrimEnd(s)[|TrimEnd(s)| - 1])
    ensures |TrimEnd(s)| <= |s|
    ensures TrimEnd(s) != "" ==> TrimEnd(s)[0] == s[0]
  {
    if s != [] && IsSpace(s[|s| - 1]) {
      var front := s[..|s| - 1];
      TrimEndEmptyIff(front);
      if AllSpace(front) {
        forall i | 0 <= i < |s| ensures IsSpace(s[i]) {
          if i < |s| - 1 { assert s[i] == front[i]; }
        }
      }
      if AllSpace(s) {
        forall i | 0 <= i < |front| ensures IsSpace(front[i]) {
          assert front[i] == s[i];
        }
      }
    } else if s != [] {
      assert !IsSpace(s[|s| - 1]);
    }
  }

  /**
   * A string trims to '' exactly when it is all whitespace; otherwise the
   * trimmed string starts and ends with a non-space and is no longer.
   */
  lemma TrimSpec(s: string)
    ensures Trim(s) == "" <==> AllSpace(s)
    ensures Trim(s) != "" ==> !IsSpace(Trim(s)[0]) && !IsSpace(Trim(s)[|Trim(s)| - 1])
    ensures |Trim(s)| <= |s|
  {
    TrimStartEmptyIff(s);
    TrimEndEmptyIff(TrimStart(s));
    if TrimStart(s) == "" {
      assert Trim(s) == "";
    } else if !AllSpace(s) {
      assert !AllSpace(TrimStart(s)) by {
        assert !IsSpace(TrimStart(s)[0]);
      }
    }
  }

  /** The longest title and content the validators accept, after trimming. */
  const MaxTitleLength: int := 100
  const MaxContentLength: int := 300

  /** The error texts the validators set ('' is `NoError`). */
  datatype FieldError = NoError | TitleRequired | TitleLength | ContentRequired | ContentLength

  /** The error `validateTitle` leaves for `title`. */
  function TitleCheck(title: string): FieldError {
    if Trim(title) == "" then TitleRequired
    else if |Trim(title)| > MaxTitleLength then TitleLength
    else NoError
  }

  /** The error `validateContent` leaves for `content`. */
  function ContentCheck(content: string): FieldError {
    if Trim(content) == "" then ContentRequired
    else if |Trim(content)| > MaxContentLength then ContentLength
    else NoError
  }

  /**
   * A title is required exactly when it is all whitespace, too long exactly
   * when it holds a non-space and trims to more than 100 characters, and
   * accepted otherwise; the same with 300 for the content.
   */
  lemma ChecksSpec(title: string, content: string)
    ensures TitleCheck(title) == TitleRequired <==> AllSpace(title)
    ensures TitleCheck(title) == TitleLength <==> !AllSpace(title) && |Trim(title)| > 100
    ensures TitleCheck(title) == NoError <==> 1 <= |Trim(title)| <= 100
    ensures ContentCheck(content) == ContentRequired <==> AllSpace(content)
    ensures ContentCheck(content) == ContentLength <==> !AllSpace(content) && |Trim(content)| > 300
    ensures ContentCheck(content) == NoError <==> 1 <= |Trim(content)| <= 300
  {
    TrimSpec(title);
    TrimSpec(content);
  }

  /** The days a new note reminds on: Monday to Friday. */
  const DefaultReminderDays: seq<int> := [1, 2, 3, 4, 5]

  /** The editor's initial note in add mode. */
  function DefaultNote(reminderTime: int): NoteInput {
    NoteInput(None, None, "", "", reminderTime, DefaultReminderDays)
  }

  /**
   * A new note reminds on five days, so its card lists them: the short
   * labels of Monday to Friday, in that order. Its empty title and content
   * are both refused.
   */
  lemma DefaultNoteShape(reminderTime: int, t: NoteCard.LabelKey -> string)
    ensures DefaultNote(reminderTime).reminderDays == [1, 2, 3, 4, 5]
    ensures NoteCard.SortedAscending(DefaultReminderDays) && |DefaultReminderDays| != 7
    ensures NoteCard.DayLabels(t, DefaultReminderDays) ==
      [t(NoteCard.WeekdayShort(0)), t(NoteCard.WeekdayShort(1)), t(NoteCard.WeekdayShort(2)),
       t(NoteCard.WeekdayShort(3)), t(NoteCard.WeekdayShort(4))]
    ensures TitleCheck(DefaultNote(reminderTime).title) == TitleRequired
    ensures ContentCheck(DefaultNote(reminderTime).content) == ContentRequired
  {
    var labels := NoteCard.DayLabels(t, DefaultReminderDays);
    assert labels[0] == t(NoteCard.WeekdayShort(0));
  }

  /** The editor's state. */
  class NoteEditor {
    var note: NoteInput
    var titleError: FieldError
    var contentError: FieldError

    constructor (reminderTime: int)
      ensures note == DefaultNote(reminderTime) && titleError == NoError && contentError == NoError
    {
      note := DefaultNote(reminderTime);
      titleError := NoError;
      contentError := NoError;
    }

    /** `validateTitle(title)`: sets the title error and reports whether there is none. */
    method ValidateTitle(title: string) returns (valid: bool)
      modifies this
      ensures titleError == TitleCheck(title) && valid == (titleError == NoError)
      ensures note == old(note) && contentError == old(contentError)
    {
      if Trim(title) == "" {
        titleError := TitleRequired;
        return false;
      }
      if |Trim(title)| > MaxTitleLength {
        titleError := TitleLength;
        return false;
      }
      titleError := NoError;
      return true;
    }

    /** `validateContent(content)`: sets the content error and reports whether there is none. */
    method ValidateContent(content: string) returns (valid: bool)
      modifies this
      ensures contentError == ContentCheck(content) && valid == (contentError == NoError)
      ensures note == old(note) && titleError == old(titleError)
    {
      if Trim(content) == "" {
        contentError := ContentRequired;
        return false;
      }
      if |Trim(content)| > MaxContentLength {
        contentError := ContentLength;
        return false;
      }
      contentError := NoError;
      return true;
    }

    /**
     * The start of `handleSaveNote`: both validators run, so both errors
     * are refreshed, and saving goes ahead only when both pass.
     */
    method SaveGate() returns (proceed: bool)
      modifies this
      ensures titleError == TitleCheck(note.title) && contentError == ContentCheck(note.content)
      ensures proceed == (titleError == NoError && contentError == NoError)
      ensures note == old(note)
    {
      var isTitleValid := ValidateTitle(note.title);
      var isContentValid := ValidateContent(note.content);
      proceed := isTitleValid && isContentValid;
    }
  }
}
