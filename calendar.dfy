/**
 * Clock and calendar vocabulary shared by the attendance modules.
 *
 * An instant is a number of milliseconds on the local wall clock; a day is a
 * day number (days since the local midnight that starts 1970-01-01, a
 * Thursday). The `yyyy-MM-dd` string that date-fns `format` produces is
 * modelled by `FormatDate`, whose only property the program relies on is that
 * distinct days give distinct keys.
 */
module Calendar {

  /** Milliseconds in one day. */
  const DayMs: int := 86400000

  /** The local day that contains instant `ms`. */
  function DayOf(ms: int): int {
    ms / DayMs
  }

  /** The instant of local midnight at the start of day `d` (date-fns `startOfDay`). */
  function Midnight(d: int): int {
    d * DayMs
  }

  /** Day `DayOf(ms)` is the one whose midnight is at or before `ms` and whose successor's is after it. */
  lemma DayOfBounds(ms: int)
    ensures Midnight(DayOf(ms)) <= ms < Midnight(DayOf(ms) + 1)
  {
  }

  /** A midnight lies after instant `now` exactly when its day comes after the day of `now`. */
  lemma MidnightAfterIff(d: int, now: int)
    ensures Midnight(d) > now <==> d > DayOf(now)
  {
    DayOfBounds(now);
    if d > DayOf(now) {
      MidnightMonotone(DayOf(now) + 1, d);
    } else {
      MidnightMonotone(d, DayOf(now));
    }
  }

  lemma MidnightMonotone(a: int, b: int)
    requires a <= b
    ensures Midnight(a) <= Midnight(b)
  {
    assert Midnight(b) - Midnight(a) == (b - a) * DayMs;
  }

  /** JavaScript `Date.getDay`: 0 is Sunday, 1 Monday, ..., 6 Saturday. */
  function Weekday(d: int): (w: int)
    ensures 0 <= w < 7
  {
    (d + 4) % 7
  }

  /** The weekday advances by one each day and wraps from Saturday to Sunday. */
  lemma WeekdayNext(d: int)
    ensures Weekday(d + 1) == (Weekday(d) + 1) % 7
  {
  }

  /** The weekday of `d + k` is the weekday of `d` shifted by `k`, modulo 7. */
  lemma {:induction false} WeekdayShift(d: int, k: nat)
    ensures Weekday(d + k) == (Weekday(d) + k) % 7
  {
    if k > 0 {
      WeekdayShift(d, k - 1);
      WeekdayNext(d + k - 1);
    }
  }

  /** The abstract `yyyy-MM-dd` key of a day. */
  datatype DateKey = DateKey(dayNumber: int)

  /** `format(date, 'yyyy-MM-dd')` on the local calendar. */
  function FormatDate(d: int): (k: DateKey)
    ensures k.dayNumber == d
  {
    DateKey(d)
  }

  /** Two days have the same key only if they are the same day. */
  lemma FormatDateInjective(d1: int, d2: int)
    ensures FormatDate(d1) == FormatDate(d2) <==> d1 == d2
  {
  }
}
