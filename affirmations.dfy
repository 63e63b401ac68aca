/** The daily affirmation of `affirmations.ts`: one of twenty fixed texts,
    chosen by the day of the year so that everyone sees the same one on the
    same day. */
module Affirmations {
  import opened Common
  import opened Calendar

  const Affirmations: seq<string> := [
    "Every workout brings you closer to your strongest self. You've got this!",
    "Your body can do it. It's your mind you need to convince.",
    "Progress, not perfection. Every step counts.",
    "You are stronger than your excuses.",
    "The only bad workout is the one that didn't happen.",
    "Believe in yourself and push your limits.",
    "Your future self will thank you for working out today.",
    "Champions train, losers complain. You're a champion!",
    "Success starts with self-discipline. You've got this!",
    "Every rep, every set, every minute - you're investing in yourself.",
    "Strength doesn't come from what you can do. It comes from overcoming what you thought you couldn't.",
    "The pain you feel today will be the strength you feel tomorrow.",
    "Don't wish for it, work for it.",
    "Your only limit is your mind.",
    "Sweat is just fat crying.",
    "Make yourself proud.",
    "The body achieves what the mind believes.",
    "You're not just changing your body, you're changing your life.",
    "Every workout is a victory.",
    "Consistency is key. Keep showing up for yourself."
  ]

  /** `Math.floor((date - dayZero) / 86400000)`, where `dayZero` is the
      instant of `new Date(year, 0, 0)`: midnight starting the last day of the
      previous year. January 1 is therefore day 1. */
  function DayOfYear(t: int, dayZero: int): (d: int)
    ensures dayZero + d * MsPerDay <= t < dayZero + d * MsPerDay + MsPerDay
  {
    DayOf(t - dayZero)
  }

  /** `affirmations.length`. */
  const Cycle: int := 20

  lemma CycleIsLength()
    ensures |Affirmations| == Cycle
  {
  }

  /** `dayOfYear % affirmations.length` with JavaScript's remainder, which
      keeps the sign of the dividend: in [0, 20) for a day on or after day
      zero, in (-20, 0] before it, and always congruent to the day. */
  function AffirmationIndex(dayOfYear: int): (i: int)
    ensures dayOfYear >= 0 ==> 0 <= i < Cycle
    ensures dayOfYear < 0 ==> -Cycle < i <= 0
    ensures (dayOfYear - i) % Cycle == 0
  {
    if dayOfYear >= 0 then dayOfYear % Cycle
    else -((-dayOfYear) % Cycle)
  }

  /** `getAffirmationByDate`: `None` stands for the `undefined` that a
      negative index reads, which only an instant before day zero can give. */
  function GetAffirmationByDate(t: int, dayZero: int): (r: Option<string>)
    ensures t >= dayZero ==> r.Some?
    ensures r.None? <==> AffirmationIndex(DayOfYear(t, dayZero)) < 0
    ensures r.Some? ==> r.value in Affirmations
    ensures r.Some? ==> r.value == Affirmations[AffirmationIndex(DayOfYear(t, dayZero))]
  {
    CycleIsLength();
    var i := AffirmationIndex(DayOfYear(t, dayZero));
    if 0 <= i < |Affirmations| then Some(Affirmations[i]) else None
  }

  /** Days of the year twenty apart show the same affirmation. */
  lemma TwentyDayCycle(dayOfYear: int)
    requires dayOfYear >= 0
    ensures AffirmationIndex(dayOfYear + Cycle) == AffirmationIndex(dayOfYear)
  {
    var q := dayOfYear / Cycle;
    var r := dayOfYear % Cycle;
    assert dayOfYear + Cycle == (q + 1) * Cycle + r;
  }

  /** The next day shows the next affirmation, wrapping after the last. */
  lemma NextDayNextAffirmation(dayOfYear: int)
    requires dayOfYear >= 0
    ensures AffirmationIndex(dayOfYear + 1) == (AffirmationIndex(dayOfYear) + 1) % Cycle
  {
    var q := dayOfYear / Cycle;
    var r := dayOfYear % Cycle;
    assert dayOfYear == q * Cycle + r;
    if r == Cycle - 1 {
      assert dayOfYear + 1 == (q + 1) * Cycle;
    } else {
      assert dayOfYear + 1 == q * Cycle + (r + 1);
    }
  }

  /** January 1 (any instant of it) shows the second entry, not the first. */
  lemma JanuaryFirstShowsSecond(t: int, dayZero: int)
    requires dayZero + MsPerDay <= t < dayZero + 2 * MsPerDay
    ensures DayOfYear(t, dayZero) == 1
    ensures GetAffirmationByDate(t, dayZero) == Some(Affirmations[1])
  {
    var offset := t - dayZero - MsPerDay;
    DayOfStart(1, offset);
    assert t - dayZero == 1 * MsPerDay + offset;
    assert AffirmationIndex(1) == 1;
  }

  /** All instants of one day show the same affirmation. */
  lemma SameDaySameAffirmation(t1: int, t2: int, dayZero: int)
    requires DayOfYear(t1, dayZero) == DayOfYear(t2, dayZero)
    ensures GetAffirmationByDate(t1, dayZero) == GetAffirmationByDate(t2, dayZero)
  {
  }
}
