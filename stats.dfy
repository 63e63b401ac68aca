/** The activity aggregation of `/api/user/stats` and `/api/user/weekly-data`:
    the streak walk and the seven-day histogram, each a loop over the user's
    sessions and the calendar day `today`. */
module Stats {
  import opened Common
  import opened Schema
  import opened Calendar
  import opened Seqs

  /** How many days the streak walk looks back at most. */
  const StreakWindow: int := 30

  /** `sessions.some(...)`: some session was completed on `day`. */
  predicate HasWorkoutOn(sessions: seq<WorkoutSession>, day: int) {
    exists i :: 0 <= i < |sessions| && DayOf(sessions[i].completedAt) == day
  }

  /** The offset the streak counts from: today, or yesterday when today has
      no session yet. */
  function StreakStart(sessions: seq<WorkoutSession>, today: int): nat {
    if HasWorkoutOn(sessions, today) then 0 else 1
  }

  /** Some session was completed on the day `start + k` days before `today`. */
  predicate ActiveAt(sessions: seq<WorkoutSession>, today: int, start: int, k: int) {
    HasWorkoutOn(sessions, today - start - k)
  }

  /** `n` is the streak: the `n` days counted back from the start each have a
      session, and either the window is used up or the next earlier day has
      none. */
  ghost predicate IsStreak(sessions: seq<WorkoutSession>, today: int, n: nat) {
    var start := StreakStart(sessions, today);
    && n <= StreakWindow - start
    && (forall k :: 0 <= k < n ==> ActiveAt(sessions, today, start, k))
    && (n < StreakWindow - start ==> !ActiveAt(sessions, today, start, n))
  }

  /** The loop at the heart of `/api/user/stats`. */
  method ComputeStreak(sessions: seq<WorkoutSession>, today: int) returns (streak: nat)
    ensures IsStreak(sessions, today, streak)
  {
    ghost var start := StreakStart(sessions, today);
    streak := 0;
    for i := 0 to StreakWindow
      invariant streak == if i == 0 then 0 else i - start
      invariant forall k :: 0 <= k < streak ==> ActiveAt(sessions, today, start, k)
    {
      var hasWorkout := HasWorkoutOn(sessions, today - i);
      if hasWorkout {
        streak := streak + 1;
      } else if i == 0 {
        continue;
      } else {
        break;
      }
    }
  }

  /** The streak is determined by the sessions and the day. */
  lemma StreakUnique(sessions: seq<WorkoutSession>, today: int, m: nat, n: nat)
    requires IsStreak(sessions, today, m) && IsStreak(sessions, today, n)
    ensures m == n
  {
  }

  /** With no sessions the streak is 0. */
  lemma NoSessionsNoStreak(today: int, n: nat)
    requires IsStreak([], today, n)
    ensures n == 0
  {
    assert !ActiveAt([], today, 1, 0);
  }

  /** Sessions on today and the N-1 days before, and none on the day before
      those, make a streak of N. */
  lemma RunEndingToday(sessions: seq<WorkoutSession>, today: int, len: nat, n: nat)
    requires 1 <= len <= StreakWindow
    requires forall k :: 0 <= k < len ==> ActiveAt(sessions, today, 0, k)
    requires len < StreakWindow ==> !ActiveAt(sessions, today, 0, len)
    requires IsStreak(sessions, today, n)
    ensures n == len
  {
    assert ActiveAt(sessions, today, 0, 0);
    assert StreakStart(sessions, today) == 0;
    assert IsStreak(sessions, today, len);
    StreakUnique(sessions, today, n, len);
  }

  /** A missing session today does not break the chain: sessions on the N days
      before today, and none on the day before those, make a streak of N. */
  lemma RunEndingYesterday(sessions: seq<WorkoutSession>, today: int, len: nat, n: nat)
    requires len < StreakWindow
    requires !HasWorkoutOn(sessions, today)
    requires forall k :: 0 <= k < len ==> ActiveAt(sessions, today, 1, k)
    requires len < StreakWindow - 1 ==> !ActiveAt(sessions, today, 1, len)
    requires IsStreak(sessions, today, n)
    ensures n == len
  {
    assert StreakStart(sessions, today) == 1;
    assert IsStreak(sessions, today, len);
    StreakUnique(sessions, today, n, len);
  }

  /** Neither today nor yesterday: no streak. */
  lemma TwoMissingDaysNoStreak(sessions: seq<WorkoutSession>, today: int, n: nat)
    requires !HasWorkoutOn(sessions, today) && !HasWorkoutOn(sessions, today - 1)
    requires IsStreak(sessions, today, n)
    ensures n == 0
  {
    assert !ActiveAt(sessions, today, 1, 0);
  }

  /** A gap on any day after today ends the count: the streak never reaches
      past the first such gap. */
  lemma GapStopsStreak(sessions: seq<WorkoutSession>, today: int, gap: nat, n: nat)
    requires 1 <= gap && !HasWorkoutOn(sessions, today - gap)
    requires IsStreak(sessions, today, n)
    ensures n + StreakStart(sessions, today) <= gap
  {
    var start := StreakStart(sessions, today);
    assert !ActiveAt(sessions, today, start, gap - start);
  }

  /** The number of distinct days among the `m` days ending today that have a
      session: each day counts once, however many sessions it has. */
  function SessionDays(sessions: seq<WorkoutSession>, today: int, m: nat): (c: nat)
    ensures c <= m
  {
    if m == 0 then 0
    else SessionDays(sessions, today, m - 1) + (if HasWorkoutOn(sessions, today - (m - 1)) then 1 else 0)
  }

  /** A run of active days at offsets [lo, hi) inside the first `m` days
      contributes at least its length. */
  lemma {:induction false} RunCounted(sessions: seq<WorkoutSession>, today: int, start: nat, lo: nat, hi: nat, m: nat)
    requires start <= lo <= hi <= m
    requires forall k :: lo - start <= k < hi - start ==> ActiveAt(sessions, today, start, k)
    ensures SessionDays(sessions, today, m) >= hi - lo
  {
    if m > hi {
      RunCounted(sessions, today, start, lo, hi, m - 1);
    } else if lo < hi {
      assert ActiveAt(sessions, today, start, hi - 1 - start);
      RunCounted(sessions, today, start, lo, hi - 1, m - 1);
    }
  }

  /** The streak is at most 30, and at most the number of distinct days in
      the last 30 that have a session. */
  lemma StreakAtMostDistinctDays(sessions: seq<WorkoutSession>, today: int, n: nat)
    requires IsStreak(sessions, today, n)
    ensures n <= StreakWindow
    ensures n <= SessionDays(sessions, today, StreakWindow)
  {
    var start := StreakStart(sessions, today);
    RunCounted(sessions, today, start, start, start + n, StreakWindow);
  }

  /** Adding another session on a day that already has one changes no streak. */
  lemma {:induction false} DuplicateDayNoEffect(sessions: seq<WorkoutSession>, extra: WorkoutSession, today: int, n: nat)
    requires HasWorkoutOn(sessions, DayOf(extra.completedAt))
    ensures IsStreak(sessions + [extra], today, n) <==> IsStreak(sessions, today, n)
  {
    SameDays(sessions, extra);
    SameActivitySameStreak(sessions + [extra], sessions, today, n);
  }

  /** The streak depends only on which days have a session. */
  lemma SameActivitySameStreak(a: seq<WorkoutSession>, b: seq<WorkoutSession>, today: int, n: nat)
    requires forall d :: HasWorkoutOn(a, d) <==> HasWorkoutOn(b, d)
    ensures IsStreak(a, today, n) <==> IsStreak(b, today, n)
  {
    var start := StreakStart(b, today);
    assert StreakStart(a, today) == start;
    forall k
      ensures ActiveAt(a, today, start, k) <==> ActiveAt(b, today, start, k)
    {
    }
  }

  /** Reordering the sessions changes no day's activity. */
  lemma PermutationSameDays(a: seq<WorkoutSession>, b: seq<WorkoutSession>)
    requires multiset(a) == multiset(b)
    ensures forall d :: HasWorkoutOn(a, d) <==> HasWorkoutOn(b, d)
  {
    forall d | HasWorkoutOn(a, d)
      ensures HasWorkoutOn(b, d)
    {
      var i :| 0 <= i < |a| && DayOf(a[i].completedAt) == d;
      assert a[i] in multiset(b);
    }
    forall d | HasWorkoutOn(b, d)
      ensures HasWorkoutOn(a, d)
    {
      var i :| 0 <= i < |b| && DayOf(b[i].completedAt) == d;
      assert b[i] in multiset(a);
    }
  }

  lemma SameDays(sessions: seq<WorkoutSession>, extra: WorkoutSession)
    requires HasWorkoutOn(sessions, DayOf(extra.completedAt))
    ensures forall d :: HasWorkoutOn(sessions + [extra], d) <==> HasWorkoutOn(sessions, d)
  {
    forall d
      ensures HasWorkoutOn(sessions + [extra], d) <==> HasWorkoutOn(sessions, d)
    {
      if HasWorkoutOn(sessions, d) {
        var i :| 0 <= i < |sessions| && DayOf(sessions[i].completedAt) == d;
        assert (sessions + [extra])[i] == sessions[i];
      }
      if HasWorkoutOn(sessions + [extra], d) {
        var i :| 0 <= i < |sessions + [extra]| && DayOf((sessions + [extra])[i].completedAt) == d;
        if i < |sessions| {
          assert sessions[i] == (sessions + [extra])[i];
        }
      }
    }
  }

  /** A session completed at the start of `day`. */
  function SessionOn(id: int, userId: UserId, day: int): (s: WorkoutSession)
    ensures DayOf(s.completedAt) == day
  {
    DayOfStart(day, 0);
    WorkoutSession(id, userId, Some(1), Some(45), day * MsPerDay)
  }

  /** The demonstration data: one session today and on each of the two days
      before gives a streak of 3. */
  lemma ThreeDayDemo(today: int, n: nat)
    requires IsStreak([SessionOn(1, "demo", today), SessionOn(2, "demo", today - 1), SessionOn(3, "demo", today - 2)], today, n)
    ensures n == 3
  {
    var sessions := [SessionOn(1, "demo", today), SessionOn(2, "demo", today - 1), SessionOn(3, "demo", today - 2)];
    assert DayOf(sessions[0].completedAt) == today;
    assert DayOf(sessions[1].completedAt) == today - 1;
    assert DayOf(sessions[2].completedAt) == today - 2;
    assert ActiveAt(sessions, today, 0, 0);
    assert ActiveAt(sessions, today, 0, 1);
    assert ActiveAt(sessions, today, 0, 2);
    RunEndingToday(sessions, today, 3, n);
  }

  /** One bar of the weekly chart. */
  datatype DayBucket = DayBucket(day: string, workouts: nat, duration: int)

  /** The sessions completed on `day`. */
  function OnDay(day: int): WorkoutSession -> bool {
    (s: WorkoutSession) => DayOf(s.completedAt) == day
  }

  /** `session.duration || 0`. */
  function Minutes(s: WorkoutSession): int {
    s.duration.GetOr(0)
  }

  /** `reduce((sum, session) => sum + (session.duration || 0), 0)`. */
  function TotalMinutes(sessions: seq<WorkoutSession>): int {
    if sessions == [] then 0 else TotalMinutes(sessions[..|sessions| - 1]) + Minutes(sessions[|sessions| - 1])
  }

  /** The minutes of the sessions completed on `day`, counted over all sessions. */
  function MinutesOn(sessions: seq<WorkoutSession>, day: int): int {
    if sessions == [] then 0
    else (if DayOf(sessions[0].completedAt) == day then Minutes(sessions[0]) else 0) + MinutesOn(sessions[1..], day)
  }

  lemma {:induction false} TotalMinutesCons(x: WorkoutSession, rest: seq<WorkoutSession>)
    ensures TotalMinutes([x] + rest) == Minutes(x) + TotalMinutes(rest)
    decreases |rest|
  {
    if rest != [] {
      var all := [x] + rest;
      assert all[..|all| - 1] == [x] + rest[..|rest| - 1];
      TotalMinutesCons(x, rest[..|rest| - 1]);
    }
  }

  /** Summing the filtered sessions is summing the minutes on that day. */
  lemma {:induction false} TotalMinutesOfFilter(sessions: seq<WorkoutSession>, day: int)
    ensures TotalMinutes(Filter(sessions, OnDay(day))) == MinutesOn(sessions, day)
  {
    if sessions != [] {
      TotalMinutesOfFilter(sessions[1..], day);
      if OnDay(day)(sessions[0]) {
        TotalMinutesCons(sessions[0], Filter(sessions[1..], OnDay(day)));
      }
    }
  }

  /** The bucket the chart shows for `day`. */
  ghost predicate IsBucketOf(b: DayBucket, sessions: seq<WorkoutSession>, day: int) {
    && b.day == DayLabel(day)
    && b.workouts == Count(sessions, OnDay(day))
    && b.duration == MinutesOn(sessions, day)
  }

  /** The bucket for one day: the day's sessions filtered out of the list,
      counted and their minutes summed. */
  function BucketFor(sessions: seq<WorkoutSession>, date: int): (b: DayBucket)
    ensures b.day == DayLabels[Weekday(date)]
    ensures sessions == [] ==> b.workouts == 0 && b.duration == 0
  {
    var dayWorkouts := Filter(sessions, OnDay(date));
    DayBucket(DayLabels[Weekday(date)], |dayWorkouts|, TotalMinutes(dayWorkouts))
  }

  /** A bucket's count and minutes are those of the day's sessions, and its
      label is the day's weekday. */
  lemma {:induction false} BucketForIsBucket(sessions: seq<WorkoutSession>, date: int)
    ensures IsBucketOf(BucketFor(sessions, date), sessions, date)
  {
    FilterLength(sessions, OnDay(date));
    TotalMinutesOfFilter(sessions, date);
  }

  /** The loop of `/api/user/weekly-data`: seven buckets, oldest first, the
      last one today, each labelled with its weekday and holding the number
      and total minutes of that day's sessions. */
  method WeeklyData(sessions: seq<WorkoutSession>, today: int) returns (week: seq<DayBucket>)
    ensures |week| == 7
    ensures forall j :: 0 <= j < 7 ==> week[j] == BucketFor(sessions, today - 6 + j)
  {
    week := [];
    for i := 7 downto 0
      invariant |week| == 7 - i
      invariant forall j :: 0 <= j < |week| ==> week[j] == BucketFor(sessions, today - 6 + j)
    {
      week := week + [BucketFor(sessions, today - i)];
    }
  }

  /** Consecutive buckets carry consecutive weekdays. */
  lemma LabelsAdvance(today: int, j: nat)
    requires j < 6
    ensures DayLabel(today - 6 + j + 1) == DayLabels[(Weekday(today - 6 + j) + 1) % 7]
  {
    WeekdayNext(today - 6 + j);
  }

  /** Two sessions on one day count twice in that day's bucket, with the sum
      of their minutes. */
  lemma TwoSessionsOneDay(a: WorkoutSession, b: WorkoutSession, day: int)
    requires DayOf(a.completedAt) == day && DayOf(b.completedAt) == day
    ensures Count([a, b], OnDay(day)) == 2
    ensures MinutesOn([a, b], day) == Minutes(a) + Minutes(b)
  {
    assert [a, b][1..] == [b];
    assert [b][1..] == [];
    assert Count([b], OnDay(day)) == 1;
    assert MinutesOn([b], day) == Minutes(b);
  }

  lemma {:induction false} MinutesOnAppend(a: seq<WorkoutSession>, b: seq<WorkoutSession>, day: int)
    ensures MinutesOn(a + b, day) == MinutesOn(a, day) + MinutesOn(b, day)
  {
    if a == [] {
      assert a + b == b;
    } else {
      assert (a + b)[1..] == a[1..] + b;
      MinutesOnAppend(a[1..], b, day);
    }
  }

  /** A day's minutes do not depend on the order of the sessions. */
  lemma {:induction false} MinutesOnPermutation(a: seq<WorkoutSession>, b: seq<WorkoutSession>, day: int)
    requires multiset(a) == multiset(b)
    ensures MinutesOn(a, day) == MinutesOn(b, day)
    decreases |a|
  {
    if a == [] {
      assert |b| == |multiset(b)| == 0;
    } else {
      var i := Pick(a, b);
      MinutesOnAppend(b[..i] + [a[0]], b[i + 1..], day);
      MinutesOnAppend(b[..i], [a[0]], day);
      MinutesOnAppend(b[..i], b[i + 1..], day);
      MinutesOnPermutation(a[1..], b[..i] + b[i + 1..], day);
    }
  }

  /** The buckets do not depend on the order of the sessions. */
  lemma BucketPermutation(a: seq<WorkoutSession>, b: seq<WorkoutSession>, bucket: DayBucket, day: int)
    requires multiset(a) == multiset(b)
    ensures IsBucketOf(bucket, a, day) <==> IsBucketOf(bucket, b, day)
  {
    CountPermutation(a, b, OnDay(day));
    MinutesOnPermutation(a, b, day);
  }

  /** The order of the sessions does not change a day's bucket. */
  lemma BucketForPermutation(a: seq<WorkoutSession>, b: seq<WorkoutSession>, day: int)
    requires multiset(a) == multiset(b)
    ensures BucketFor(a, day) == BucketFor(b, day)
  {
    BucketForIsBucket(a, day);
    BucketForIsBucket(b, day);
    BucketPermutation(a, b, BucketFor(a, day), day);
  }

  lemma {:induction false} NoneOnDay(s: seq<WorkoutSession>, day: int)
    requires forall i :: 0 <= i < |s| ==> DayOf(s[i].completedAt) != day
    ensures Count(s, OnDay(day)) == 0 && MinutesOn(s, day) == 0
  {
    if s != [] {
      NoneOnDay(s[1..], day);
    }
  }

  /** Sessions outside the seven days change no bucket. */
  lemma OutsideSessionsIgnored(sessions: seq<WorkoutSession>, extra: seq<WorkoutSession>, today: int, j: nat)
    requires j < 7
    requires forall i :: 0 <= i < |extra| ==> !(today - 6 <= DayOf(extra[i].completedAt) <= today)
    ensures Count(sessions + extra, OnDay(today - 6 + j)) == Count(sessions, OnDay(today - 6 + j))
    ensures MinutesOn(sessions + extra, today - 6 + j) == MinutesOn(sessions, today - 6 + j)
  {
    var day := today - 6 + j;
    CountAppend(sessions, extra, OnDay(day));
    MinutesOnAppend(sessions, extra, day);
    NoneOnDay(extra, day);
  }

  /** With no sessions every bucket is empty. */
  lemma NoSessionsEmptyWeek(today: int, j: nat)
    requires j < 7
    ensures Count([], OnDay(today - 6 + j)) == 0 && MinutesOn([], today - 6 + j) == 0
  {
    NoneOnDay([], today - 6 + j);
  }
}
