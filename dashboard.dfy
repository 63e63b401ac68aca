/** The dashboard's rendering rules of `dashboard.tsx`: the Tailwind height
    and colour class of each day's bar in the weekly chart, and the numbers
    shown while the statistics are missing. */
module Dashboard {
  import opened Common
  import opened Text

  const Bar0: string := "h-4"
  const Bar1: string := "h-8"
  const Bar2: string := "h-12"
  const BarMore: string := "h-16"

  /** `getBarHeight`: 0, 1 and 2 workouts get their own height; every other
      count, negative ones included, the tallest. */
  function GetBarHeight(workouts: int): (r: string)
    ensures r in {Bar0, Bar1, Bar2, BarMore}
    ensures workouts >= 0 ==> HeightUnits(r) == 4 * (if workouts < 3 then workouts + 1 else 4)
    ensures workouts < 0 ==> r == BarMore
  {
    BarUnits();
    if workouts == 0 then Bar0
    else if workouts == 1 then Bar1
    else if workouts == 2 then Bar2
    else BarMore
  }

  /** The height that a Tailwind class `h-<n>` stands for, in its units of
      a quarter of a rem; 0 for any other text. */
  function HeightUnits(c: string): nat {
    if |c| > 2 && c[..2] == "h-" && AllDigits(c[2..]) then DigitsValue(c[2..]) else 0
  }

  /** The heights of the four bar classes, in quarters of a rem. */
  lemma BarUnits()
    ensures HeightUnits(Bar0) == 4 && HeightUnits(Bar1) == 8
    ensures HeightUnits(Bar2) == 12 && HeightUnits(BarMore) == 16
  {
    assert Bar0[2..] == "4" && Bar1[2..] == "8";
    assert Bar2[2..] == "12" && BarMore[2..] == "16";
    assert "12"[..1] == "1" && "16"[..1] == "1";
  }

  /** A day with more workouts never gets a shorter bar. */
  lemma BarHeightMonotone(a: int, b: int)
    requires 0 <= a <= b
    ensures HeightUnits(GetBarHeight(a)) <= HeightUnits(GetBarHeight(b))
  {
  }

  const ActiveColor: string := "bg-zen-green"
  const IdleColor: string := "bg-gray-200 dark:bg-zen-dark-mode"

  /** `getBarColor`: green exactly for a day with a workout. */
  function GetBarColor(workouts: int): (r: string)
    ensures r == ActiveColor || r == IdleColor
    ensures r == ActiveColor <==> workouts > 0
  {
    if workouts > 0 then ActiveColor else IdleColor
  }

  /** `stats?.field || 0`: a missing figure shows as 0, and a present one as
      itself (a 0 falls through to the same 0). */
  function StatOrZero(stat: Option<int>): (shown: int)
    ensures shown == stat.GetOr(0)
  {
    if stat.None? || stat.value == 0 then 0 else stat.value
  }
}
