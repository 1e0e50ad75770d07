/**
 * The note card (src/components/NoteCard.js): the text that lists a note's
 * reminder days. Formatting sorts the caller's array in place.
 */
module NoteCard {

  /** The translation keys the card looks up: 'everyday' and 'weekdays.short.<i>'. */
  datatype LabelKey = Everyday | WeekdayShort(index: int)

  /** The separator `join` puts between day labels. */
  const Separator: string := ", "

  /** `labels.join(', ')`. */
  function Join(labels: seq<string>): string {
    if labels == [] then ""
    else if |labels| == 1 then labels[0]
    else labels[0] + Separator + Join(labels[1..])
  }

  /** Joining one more label appends a separator and that label. */
  lemma {:induction false} JoinSnoc(labels: seq<string>, last: string)
    requires labels != []
    ensures Join(labels + [last]) == Join(labels) + Separator + last
  {
    if |labels| == 1 {
      assert labels + [last] == [labels[0], last];
    } else {
      assert (labels + [last])[1..] == labels[1..] + [last];
      JoinSnoc(labels[1..], last);
    }
  }

  /** `days.map(day => t('weekdays.short.' + (day - 1)))`. */
  function DayLabels(t: LabelKey -> string, days: seq<int>): (labels: seq<string>)
    ensures |labels| == |days|
    ensures forall i :: 0 <= i < |days| ==> labels[i] == t(WeekdayShort(days[i] - 1))
  {
    if days == [] then [] else [t(WeekdayShort(days[0] - 1))] + DayLabels(t, days[1..])
  }

  predicate SortedAscending(s: seq<int>) {
    forall i, j :: 0 <= i < j < |s| ==> s[i] <= s[j]
  }

  /** `days.sort((a, b) => a - b)`, in place (an insertion sort). */
  method SortInPlace(a: array<int>)
    modifies a
    ensures SortedAscending(a[..])
    ensures multiset(a[..]) == old(multiset(a[..]))
  {
    if a.Length == 0 {
      return;
    }
    for i := 1 to a.Length
      invariant forall k, l :: 0 <= k < l < i ==> a[k] <= a[l]
      invariant multiset(a[..]) == old(multiset(a[..]))
    {
      var j := i;
      while j > 0 && a[j - 1] > a[j]
        invariant 0 <= j <= i
        invariant forall k, l :: 0 <= k < l <= i && k != j && l != j ==> a[k] <= a[l]
        invariant forall l :: j < l <= i ==> a[j] <= a[l]
        invariant multiset(a[..]) == old(multiset(a[..]))
      {
        a[j - 1], a[j] := a[j], a[j - 1];
        j := j - 1;
      }
    }
  }

  /**
   * `formatReminderDays(days)` with translation `t`: '' for a null or empty
   * list, the 'everyday' label for exactly seven days (left unsorted),
   * otherwise the short weekday labels of the days in ascending order,
   * joined with ', ' — and the caller's array is left sorted.
   */
  method FormatReminderDays(days: array?<int>, t: LabelKey -> string) returns (text: string)
    modifies days
    ensures days == null ==> text == ""
    ensures days != null && days.Length == 0 ==> text == ""
    ensures days != null && days.Length == 7 ==> text == t(Everyday) && days[..] == old(days[..])
    ensures days != null && days.Length != 0 && days.Length != 7 ==>
      && SortedAscending(days[..])
      && multiset(days[..]) == old(multiset(days[..]))
      && text == Join(DayLabels(t, days[..]))
  {
    if days == null || days.Length == 0 {
      return "";
    }
    if days.Length == 7 {
      return t(Everyday);
    }
    SortInPlace(days);
    text := Join(DayLabels(t, days[..]));
  }

  /** The text for a list of several days has one label per day, separated by ', '. */
  lemma {:induction false} JoinedDays(t: LabelKey -> string, days: seq<int>)
    requires |days| >= 2
    ensures Join(DayLabels(t, days)) ==
      Join(DayLabels(t, days[..|days| - 1])) + Separator + t(WeekdayShort(days[|days| - 1] - 1))
  {
    var front := days[..|days| - 1];
    assert DayLabels(t, days) == DayLabels(t, front) + [t(WeekdayShort(days[|days| - 1] - 1))];
    JoinSnoc(DayLabels(t, front), t(WeekdayShort(days[|days| - 1] - 1)));
  }
}
