/**
 * The notes context (src/context/NotesContext.js): the list of work notes,
 * its add, update and delete operations, which replace the list only after
 * the storage write succeeds, and the recent-notes query.
 */
module Notes {
  import opened Wrappers
  import Storage

  /** A stored note; `reminderTime` is an instant in milliseconds, `reminderDays` are 1 (Monday) to 7. */
  datatype Note = Note(
    id: string,
    createdAt: string,
    title: string,
    content: string,
    reminderTime: int,
    reminderDays: seq<int>)

  /** The object handed to `addNote`; it may carry its own `id` and `createdAt`. */
  datatype NoteInput = NoteInput(
    id: Option<string>,
    createdAt: Option<string>,
    title: string,
    content: string,
    reminderTime: int,
    reminderDays: seq<int>)

  /** The object handed to `updateNote`: `None` marks a field it does not carry. */
  datatype NotePatch = NotePatch(
    id: Option<string>,
    createdAt: Option<string>,
    title: Option<string>,
    content: Option<string>,
    reminderTime: Option<int>,
    reminderDays: Option<seq<int>>)

  /** `{ id, createdAt, ...note }`: the input's own fields come last and win. */
  function NewNote(input: NoteInput, generatedId: string, generatedCreatedAt: string): Note {
    Note(input.id.GetOr(generatedId), input.createdAt.GetOr(generatedCreatedAt),
         input.title, input.content, input.reminderTime, input.reminderDays)
  }

  /**
   * An `id` or `createdAt` the input supplies wins over the generated one,
   * so the generated values matter only for fields the input lacks.
   */
  lemma SuppliedFieldsWin(input: NoteInput, id1: string, at1: string, id2: string, at2: string)
    ensures input.id.Some? ==> NewNote(input, id1, at1).id == NewNote(input, id2, at2).id == input.id.value
    ensures input.createdAt.Some? ==>
      NewNote(input, id1, at1).createdAt == NewNote(input, id2, at2).createdAt == input.createdAt.value
    ensures input.id.Some? && input.createdAt.Some? ==> NewNote(input, id1, at1) == NewNote(input, id2, at2)
    ensures input.id.None? ==> NewNote(input, id1, at1).id == id1
    ensures input.createdAt.None? ==> NewNote(input, id1, at1).createdAt == at1
  {
  }

  /** `{ ...note, ...patch }`. */
  function MergeNote(n: Note, p: NotePatch): Note {
    Note(p.id.GetOr(n.id), p.createdAt.GetOr(n.createdAt), p.title.GetOr(n.title),
         p.content.GetOr(n.content), p.reminderTime.GetOr(n.reminderTime), p.reminderDays.GetOr(n.reminderDays))
  }

  /** Whether `note.id === patch.id`; a patch without an id matches no note. */
  predicate Matches(n: Note, p: NotePatch) {
    p.id == Some(n.id)
  }

  /** `notes.map(note => note.id === patch.id ? { ...note, ...patch } : note)`. */
  function UpdateNotes(notes: seq<Note>, p: NotePatch): seq<Note> {
    if notes == [] then []
    else [if Matches(notes[0], p) then MergeNote(notes[0], p) else notes[0]] + UpdateNotes(notes[1..], p)
  }

  /** The update keeps length and order, merges into exactly the matching notes and leaves the others as they were. */
  lemma {:induction false} UpdateNotesPointwise(notes: seq<Note>, p: NotePatch)
    ensures |UpdateNotes(notes, p)| == |notes|
    ensures forall i :: 0 <= i < |notes| ==>
      UpdateNotes(notes, p)[i] == (if Matches(notes[i], p) then MergeNote(notes[i], p) else notes[i])
  {
    if notes != [] {
      UpdateNotesPointwise(notes[1..], p);
    }
  }

  /** `notes.filter(note => note.id !== id)`. */
  function DeleteNotes(notes: seq<Note>, id: string): seq<Note> {
    if notes == [] then []
    else if notes[0].id == id then DeleteNotes(notes[1..], id)
    else [notes[0]] + DeleteNotes(notes[1..], id)
  }

  /** Deleting from a concatenation deletes from each part in turn: the kept notes stay in order. */
  lemma {:induction false} DeleteNotesAppend(a: seq<Note>, b: seq<Note>, id: string)
    ensures DeleteNotes(a + b, id) == DeleteNotes(a, id) + DeleteNotes(b, id)
  {
    if a == [] {
      assert a + b == b;
    } else {
      assert (a + b)[1..] == a[1..] + b;
      DeleteNotesAppend(a[1..], b, id);
    }
  }

  /** A note survives the delete exactly when its id differs, and each survivor keeps its multiplicity. */
  lemma {:induction false} DeleteNotesMembers(notes: seq<Note>, id: string, x: Note)
    ensures x in DeleteNotes(notes, id) <==> x in notes && x.id != id
    ensures x.id != id ==> multiset(DeleteNotes(notes, id))[x] == multiset(notes)[x]
    ensures x.id == id ==> multiset(DeleteNotes(notes, id))[x] == 0
    ensures |DeleteNotes(notes, id)| <= |notes|
  {
    if notes != [] {
      DeleteNotesMembers(notes[1..], id, x);
      assert notes == [notes[0]] + notes[1..];
    }
  }

  /** Notes ordered by reminder time, earliest first. */
  predicate SortedByReminder(s: seq<Note>) {
    forall i, j :: 0 <= i < j < |s| ==> s[i].reminderTime <= s[j].reminderTime
  }

  /** Inserts `x` after every note whose reminder time is not later, which keeps a stable order. */
  function InsertByReminder(x: Note, s: seq<Note>): (r: seq<Note>)
    ensures |r| == |s| + 1
  {
    if s == [] || x.reminderTime < s[0].reminderTime then [x] + s
    else [s[0]] + InsertByReminder(x, s[1..])
  }

  lemma {:induction false} InsertByReminderPerm(x: Note, s: seq<Note>)
    ensures multiset(InsertByReminder(x, s)) == multiset(s) + multiset{x}
  {
    if s != [] && x.reminderTime >= s[0].reminderTime {
      InsertByReminderPerm(x, s[1..]);
      assert s == [s[0]] + s[1..];
    }
  }

  /** A note ahead of a sorted list stays sorted when it is not later than the list's notes. */
  lemma ConsSorted(y: Note, s: seq<Note>)
    requires SortedByReminder(s)
    requires forall z | z in s :: y.reminderTime <= z.reminderTime
    ensures SortedByReminder([y] + s)
  {
    var r := [y] + s;
    forall i, j | 0 <= i < j < |r|
      ensures r[i].reminderTime <= r[j].reminderTime
    {
      if i == 0 {
        assert r[j] == s[j - 1];
      } else {
        assert r[i] == s[i - 1] && r[j] == s[j - 1];
      }
    }
  }

  lemma {:induction false} InsertByReminderSorted(x: Note, s: seq<Note>)
    requires SortedByReminder(s)
    ensures SortedByReminder(InsertByReminder(x, s))
  {
    if s == [] || x.reminderTime < s[0].reminderTime {
      forall z | z in s
        ensures x.reminderTime <= z.reminderTime
      {
        var k :| 0 <= k < |s| && s[k] == z;
        assert s[0].reminderTime <= s[k].reminderTime;
      }
      ConsSorted(x, s);
    } else {
      var rest := InsertByReminder(x, s[1..]);
      assert SortedByReminder(s[1..]) by {
        forall i, j | 0 <= i < j < |s[1..]|
          ensures s[1..][i].reminderTime <= s[1..][j].reminderTime
        {
          assert s[1..][i] == s[i + 1] && s[1..][j] == s[j + 1];
        }
      }
      InsertByReminderSorted(x, s[1..]);
      InsertByReminderPerm(x, s[1..]);
      forall y | y in rest
        ensures s[0].reminderTime <= y.reminderTime
      {
        assert y in multiset(rest);
        if y != x {
          var k :| 0 <= k < |s[1..]| && s[1..][k] == y;
          assert s[0].reminderTime <= s[k + 1].reminderTime;
        }
      }
      ConsSorted(s[0], rest);
    }
  }

  /** The stable ascending sort by `reminderTime` that `Array.prototype.sort` performs on the copy. */
  function SortByReminder(s: seq<Note>): (r: seq<Note>)
    ensures |r| == |s|
  {
    if s == [] then [] else InsertByReminder(s[|s| - 1], SortByReminder(s[..|s| - 1]))
  }

  /** The sorted copy is ordered earliest first and is a permutation of the notes. */
  lemma {:induction false} SortByReminderSpec(s: seq<Note>)
    ensures SortedByReminder(SortByReminder(s))
    ensures multiset(SortByReminder(s)) == multiset(s)
  {
    if s != [] {
      SortByReminderSpec(s[..|s| - 1]);
      InsertByReminderSorted(s[|s| - 1], SortByReminder(s[..|s| - 1]));
      InsertByReminderPerm(s[|s| - 1], SortByReminder(s[..|s| - 1]));
      assert s == s[..|s| - 1] + [s[|s| - 1]];
    }
  }

  function Min(a: int, b: int): int { if a < b then a else b }

  /** `[...notes].sort(byReminderTime).slice(0, limit)`. */
  function RecentNotes(notes: seq<Note>, limit: nat): seq<Note> {
    SortByReminder(notes)[..Min(limit, |notes|)]
  }

  /**
   * The recent notes are at most `limit` notes of the list, earliest
   * reminder first, and no note left out has an earlier reminder than one
   * taken.
   */
  lemma RecentNotesSpec(notes: seq<Note>, limit: nat)
    ensures |RecentNotes(notes, limit)| == Min(limit, |notes|)
    ensures SortedByReminder(RecentNotes(notes, limit))
    ensures multiset(RecentNotes(notes, limit)) <= multiset(notes)
    ensures forall i, j :: 0 <= i < |RecentNotes(notes, limit)| <= j < |notes| ==>
      RecentNotes(notes, limit)[i].reminderTime <= SortByReminder(notes)[j].reminderTime
  {
    var sorted := SortByReminder(notes);
    SortByReminderSpec(notes);
    var k := Min(limit, |notes|);
    assert sorted == sorted[..k] + sorted[k..];
    assert multiset(sorted) == multiset(sorted[..k]) + multiset(sorted[k..]);
  }

  /** The single key the notes live under: 'workNotes'. */
  datatype NotesKey = WorkNotes

  type NotesMedium = Storage.Medium<NotesKey, seq<Note>>

  class NotesProvider {
    var notes: seq<Note>
    const medium: NotesMedium

    constructor (medium: NotesMedium)
      ensures this.medium == medium && notes == []
    {
      this.medium := medium;
      notes := [];
    }

    /** `loadNotes`: the stored list, or the empty list when there is none or the read fails. */
    method LoadNotes(available: bool)
      modifies this
      ensures notes == if available && WorkNotes in medium.entries then medium.entries[WorkNotes] else []
    {
      var ok, data := medium.GetItem(WorkNotes, available);
      if ok && data.Some? {
        notes := data.value;
      } else {
        notes := [];
      }
    }

    /** `addNote(input)`: appends one note, and keeps the old list when the write fails. */
    method AddNote(input: NoteInput, generatedId: string, generatedCreatedAt: string, available: bool)
      returns (ok: bool)
      modifies this, medium
      ensures ok == available
      ensures notes == if ok then old(notes) + [NewNote(input, generatedId, generatedCreatedAt)] else old(notes)
      ensures medium.entries == if ok then old(medium.entries)[WorkNotes := notes] else old(medium.entries)
    {
      var newNote := NewNote(input, generatedId, generatedCreatedAt);
      var updatedNotes := notes + [newNote];
      ok := medium.SetItem(WorkNotes, updatedNotes, available);
      if ok {
        notes := updatedNotes;
      }
    }

    /** `updateNote(patch)`: merges the patch into the notes whose id matches, or keeps the list when the write fails. */
    method UpdateNote(p: NotePatch, available: bool) returns (ok: bool)
      modifies this, medium
      ensures ok == available
      ensures notes == if ok then UpdateNotes(old(notes), p) else old(notes)
      ensures medium.entries == if ok then old(medium.entries)[WorkNotes := notes] else old(medium.entries)
    {
      var updatedNotes := UpdateNotes(notes, p);
      ok := medium.SetItem(WorkNotes, updatedNotes, available);
      if ok {
        notes := updatedNotes;
      }
    }

    /** `deleteNote(id)`: drops every note with that id, or keeps the list when the write fails. */
    method DeleteNote(id: string, available: bool) returns (ok: bool)
      modifies this, medium
      ensures ok == available
      ensures notes == if ok then DeleteNotes(old(notes), id) else old(notes)
      ensures medium.entries == if ok then old(medium.entries)[WorkNotes := notes] else old(medium.entries)
    {
      var updatedNotes := DeleteNotes(notes, id);
      ok := medium.SetItem(WorkNotes, updatedNotes, available);
      if ok {
        notes := updatedNotes;
      }
    }
  }
}
