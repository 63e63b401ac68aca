/** Calendar arithmetic on integer timestamps.

    A timestamp is a number of milliseconds on the server's (or browser's)
    local clock, so that the local calendar day of a timestamp is its floor
    division by the length of a day: `setHours(0, 0, 0, 0)` followed by a
    comparison of `getTime()` values is a comparison of `DayOf` values.
    Day 0 is Thursday 1 January 1970. */
module Calendar {

  const MsPerDay: int := 86400000

  /** The calendar day a timestamp falls on. */
  function DayOf(t: int): (day: int)
    ensures day * MsPerDay <= t < day * MsPerDay + MsPerDay
  {
    t / MsPerDay
  }

  /** The start of a day falls on that day. */
  lemma DayOfStart(day: int, offset: int)
    requires 0 <= offset < MsPerDay
    ensures DayOf(day * MsPerDay + offset) == day
  {
    var d := DayOf(day * MsPerDay + offset);
    assert (d - day) * MsPerDay <= offset < (d - day) * MsPerDay + MsPerDay;
  }

  /** `Date.prototype.getDay()`: 0 for Sunday through 6 for Saturday. */
  function Weekday(day: int): (w: nat)
    ensures w < 7
    ensures (day - w) % 7 == 3
  {
    (day + 4) % 7
  }

  /** The weekday of the next day is the next weekday, wrapping after Saturday. */
  lemma WeekdayNext(day: int)
    ensures Weekday(day + 1) == (Weekday(day) + 1) % 7
  {
    var w := Weekday(day);
    assert (day + 1 + 4) % 7 == (w + 1) % 7 by {
      assert day + 4 == 7 * ((day + 4) / 7) + w;
      assert day + 1 + 4 == 7 * ((day + 4) / 7) + (w + 1);
    }
  }

  /** The `days` table of the weekly chart, indexed by `Weekday`. */
  const DayLabels: seq<string> := ["Sun", "Mon", "Tue", "Wed", "Thu", "Fri", "Sat"]

  function DayLabel(day: int): (name: string)
    ensures name in DayLabels
    ensures name == DayLabels[Weekday(day)]
  {
    DayLabels[Weekday(day)]
  }
}
