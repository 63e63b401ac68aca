/** The request handlers of `server/routes.ts` that carry logic: the stats and
    weekly-chart endpoints, settings with lazy creation, the AI check, ask and
    upgrade endpoints, and the routine update and delete endpoints. Each
    handler is a method over the store; the authenticated user, the request
    body and the clock are its parameters. */
module Routes {
  import opened Common
  import opened Schema
  import opened Seqs
  import opened Calendar
  import opened Stats
  import opened Storage
  import Quota
  import Assistant

  /** A handler's answer: a JSON body, or an error status with its message. */
  datatype Reply<T> =
    | Ok(value: T)
    | BadRequest(message: string)
    | Forbidden(message: string)
    | NotFound(message: string)

  /** The 403 text of `/api/ai/ask`, written in three parts so that the
      phrase in the middle, which the chat client looks for, can be named. */
  const LimitMessage: string := "Daily AI question " + "limit reached" + ". Upgrade to ZenGym Pro for unlimited access!"

  /** The body of `/api/user/stats`. */
  datatype UserStats = UserStats(totalWorkouts: nat, weeklyWorkouts: nat, streak: nat)

  /** The user's sessions in the store. */
  function SessionsOf(sessions: seq<WorkoutSession>, userId: UserId): (r: seq<WorkoutSession>)
    ensures forall i :: 0 <= i < |r| ==> r[i].userId == userId
  {
    Filter(sessions, SessionOwnedBy(userId))
  }

  /** `GET /api/user/stats`: both totals count every session of the user (the
      store ignores the number of days asked for), and the streak is the
      user's streak ending on the day of `now`. */
  method GetUserStats(store: DatabaseStorage, userId: UserId, now: int) returns (stats: UserStats)
    ensures stats.totalWorkouts == Count(store.sessions, SessionOwnedBy(userId))
    ensures stats.weeklyWorkouts == stats.totalWorkouts
    ensures IsStreak(SessionsOf(store.sessions, userId), DayOf(now), stats.streak)
  {
    var sessions := store.GetRecentWorkoutSessions(userId, 30);
    var weekSessions := store.GetRecentWorkoutSessions(userId, 7);
    var mine := SessionsOf(store.sessions, userId);
    FilterLength(store.sessions, SessionOwnedBy(userId));
    assert |sessions| == |multiset(sessions)| == |multiset(mine)| == |mine|;
    assert |weekSessions| == |multiset(weekSessions)| == |multiset(mine)|;
    var streak := ComputeStreak(sessions, DayOf(now));
    PermutationSameDays(sessions, mine);
    SameActivitySameStreak(sessions, mine, DayOf(now), streak);
    stats := UserStats(|sessions|, |weekSessions|, streak);
  }

  /** A user without sessions sees zero workouts and no streak. */
  lemma NoSessionsZeroStats(sessions: seq<WorkoutSession>, userId: UserId, today: int, stats: UserStats)
    requires forall i :: 0 <= i < |sessions| ==> sessions[i].userId != userId
    requires stats.totalWorkouts == Count(sessions, SessionOwnedBy(userId))
    requires stats.weeklyWorkouts == stats.totalWorkouts
    requires IsStreak(SessionsOf(sessions, userId), today, stats.streak)
    ensures stats.totalWorkouts == 0 && stats.weeklyWorkouts == 0 && stats.streak == 0
  {
    forall i | 0 <= i < |sessions|
      ensures !SessionOwnedBy(userId)(sessions[i])
    {
    }
    FilterNone(sessions, SessionOwnedBy(userId));
    NoSessionsNoStreak(today, stats.streak);
  }

  /** `GET /api/user/weekly-data`: seven buckets for the six days before the
      day of `now` and that day, built from the user's sessions. */
  method GetWeeklyData(store: DatabaseStorage, userId: UserId, now: int) returns (week: seq<DayBucket>)
    ensures |week| == 7
    ensures forall j :: 0 <= j < 7 ==> week[j] == BucketFor(SessionsOf(store.sessions, userId), DayOf(now) - 6 + j)
  {
    var sessions := store.GetRecentWorkoutSessions(userId, 7);
    week := WeeklyData(sessions, DayOf(now));
    forall j | 0 <= j < 7
      ensures week[j] == BucketFor(SessionsOf(store.sessions, userId), DayOf(now) - 6 + j)
    {
      BucketForPermutation(sessions, SessionsOf(store.sessions, userId), DayOf(now) - 6 + j);
    }
  }

  /** `GET /api/settings`: the stored record, or a new record holding the
      column defaults when the user has none. */
  method GetSettings(store: DatabaseStorage, userId: UserId) returns (r: UserSettings)
    requires store.Valid()
    modifies store
    ensures store.Valid()
    ensures old(store.GetUserSettings(userId)).Some? ==>
      r == old(store.GetUserSettings(userId)).value && store.settings == old(store.settings)
    ensures old(store.GetUserSettings(userId)).None? ==>
      r == DefaultSettings(old(store.nextSettingsId), userId) && store.settings == old(store.settings)[userId := r]
    ensures store.nextSettingsId == if old(store.GetUserSettings(userId)).Some? then old(store.nextSettingsId) else old(store.nextSettingsId) + 1
    ensures store.sessions == old(store.sessions) && store.routines == old(store.routines)
  {
    var current := store.GetUserSettings(userId);
    if current.Some? {
      return current.value;
    }
    UpsertNoChange(current, store.nextSettingsId, userId);
    r := store.UpdateUserSettings(userId, NoChange);
  }

  /** `PUT /api/settings`: a body that fails validation is refused with 400;
      otherwise the validated fields are upserted into the user's record. */
  method PutSettings(store: DatabaseStorage, userId: UserId, body: Option<SettingsPatch>) returns (res: Reply<UserSettings>)
    requires store.Valid()
    modifies store
    ensures store.Valid()
    ensures body.None? ==> res == BadRequest("Invalid settings data") && store.settings == old(store.settings)
    ensures body.Some? ==>
      && res == Ok(Upsert(old(store.GetUserSettings(userId)), old(store.nextSettingsId), userId, body.value))
      && store.settings == old(store.settings)[userId := res.value]
    ensures store.nextSettingsId ==
      if body.None? || old(store.GetUserSettings(userId)).Some? then old(store.nextSettingsId) else old(store.nextSettingsId) + 1
    ensures store.sessions == old(store.sessions) && store.routines == old(store.routines)
  {
    if body.None? {
      return BadRequest("Invalid settings data");
    }
    var settings := store.UpdateUserSettings(userId, body.value);
    return Ok(settings);
  }

  /** The settings endpoint accepts the quota fields too: a body that sets
      `isPro` makes every later check unlimited. */
  lemma SettingsBodyCanGrantPro(existing: Option<UserSettings>, id: int, userId: UserId, p: SettingsPatch, now: int)
    requires existing.Some? ==> existing.value.userId == userId
    requires p.isPro == Put(Some(true))
    ensures Quota.Status(Some(Upsert(existing, id, userId, p)), now) == Quota.AiStatus(true, -1)
  {
  }

  /** ... and a body that sets a negative count on a day with questions
      already asked leaves more than three questions for that day. */
  lemma SettingsBodyCanRaiseQuota(existing: UserSettings, userId: UserId, count: int, now: int)
    requires existing.userId == userId && !Quota.IsPro(existing) && !Quota.IsNewDay(existing, now)
    requires count < 0
    ensures var r := Upsert(Some(existing), 0, userId, NoChange.(dailyAiQuestions := Put(Some(count))));
      Quota.Status(Some(r), now) == Quota.AiStatus(true, Quota.DailyLimit - count)
      && Quota.Status(Some(r), now).questionsLeft > Quota.DailyLimit
  {
  }

  /** `GET /api/ai/check`. */
  method AiCheck(store: DatabaseStorage, userId: UserId, now: int) returns (status: Quota.AiStatus)
    requires store.Valid()
    modifies store
    ensures store.Valid()
    ensures status == Quota.Status(old(store.GetUserSettings(userId)), now)
    ensures store.settings == Store(old(store.settings), userId, Quota.AfterCheck(old(store.GetUserSettings(userId)), now))
    ensures store.nextSettingsId == old(store.nextSettingsId)
    ensures store.sessions == old(store.sessions) && store.routines == old(store.routines)
  {
    status := store.CanUserAskAI(userId, now);
  }

  /** `POST /api/ai/ask`: a missing, empty or non-string question is refused
      with 400 and touches nothing; otherwise the quota check runs (with its
      reset), a refusal is a 403 with no answer and no count, and an allowed
      question is answered and then counted once. The store ends exactly as
      `Quota.AskStep` says. */
  method AiAsk(store: DatabaseStorage, userId: UserId, question: Option<string>, reply: Assistant.ProviderReply, now: int)
    returns (res: Reply<string>)
    requires store.Valid()
    modifies store
    ensures store.Valid()
    ensures question.None? || question.value == "" ==>
      res == BadRequest("Question is required") && store.settings == old(store.settings)
    ensures question.Some? && question.value != "" ==>
      var step := Quota.AskStep(old(store.GetUserSettings(userId)), now);
      && (res.Ok? <==> step.0)
      && (res.Ok? ==> res.value == Assistant.AskZenAI(question.value, reply))
      && (!res.Ok? ==> res == Forbidden(LimitMessage))
      && store.settings == Store(old(store.settings), userId, step.1)
    ensures store.nextSettingsId == old(store.nextSettingsId)
    ensures store.sessions == old(store.sessions) && store.routines == old(store.routines)
  {
    if question.None? || question.value == "" {
      return BadRequest("Question is required");
    }
    ghost var before := store.GetUserSettings(userId);
    var status := store.CanUserAskAI(userId, now);
    if !status.canAsk {
      return Forbidden(LimitMessage);
    }
    var answer := Assistant.AskZenAI(question.value, reply);
    assert store.GetUserSettings(userId) == Quota.AfterCheck(before, now);
    store.IncrementAIQuestions(userId, now);
    assert store.settings == Store(old(store.settings), userId, Quota.AfterIncrement(Quota.AfterCheck(before, now), now));
    return Ok(answer);
  }

  /** `POST /api/upgrade-pro`: the user becomes Pro until `proExpiresAt` (one
      calendar month after the request) with a zero count, and from then on
      every quota check allows unlimited questions. */
  method UpgradePro(store: DatabaseStorage, userId: UserId, proExpiresAt: int) returns (settings: UserSettings)
    requires store.Valid()
    modifies store
    ensures store.Valid()
    ensures settings == Upsert(old(store.GetUserSettings(userId)), old(store.nextSettingsId), userId, Quota.UpgradePatch(proExpiresAt))
    ensures store.settings == old(store.settings)[userId := settings]
    ensures forall t :: Quota.Status(store.GetUserSettings(userId), t) == Quota.AiStatus(true, -1)
    ensures store.nextSettingsId == if old(store.GetUserSettings(userId)).Some? then old(store.nextSettingsId) else old(store.nextSettingsId) + 1
    ensures store.sessions == old(store.sessions) && store.routines == old(store.routines)
  {
    ghost var before := store.GetUserSettings(userId);
    ghost var id := store.nextSettingsId;
    settings := store.UpdateUserSettings(userId, Quota.UpgradePatch(proExpiresAt));
    forall t
      ensures Quota.Status(store.GetUserSettings(userId), t) == Quota.AiStatus(true, -1)
    {
      Quota.UpgradeMakesUnlimited(before, id, userId, proExpiresAt, t);
    }
  }

  /** `PUT /api/routines/:id`: 400 for a body that fails validation, 404 for
      an unknown id, and otherwise the merged routine. The handler does not
      check who owns the routine. */
  method PutRoutine(store: DatabaseStorage, id: int, body: Option<RoutinePatch>) returns (res: Reply<WorkoutRoutine>)
    requires store.Valid()
    modifies store
    ensures store.Valid()
    ensures body.None? ==> res == BadRequest("Invalid routine data") && store.routines == old(store.routines)
    ensures body.Some? && id !in old(store.routines) ==>
      res == NotFound("Routine not found") && store.routines == old(store.routines)
    ensures body.Some? && id in old(store.routines) ==>
      && res == Ok(MergeRoutine(old(store.routines)[id], body.value))
      && store.routines == old(store.routines)[id := res.value]
    ensures store.settings == old(store.settings) && store.sessions == old(store.sessions)
    ensures store.nextSettingsId == old(store.nextSettingsId)
  {
    if body.None? {
      return BadRequest("Invalid routine data");
    }
    var routine := store.UpdateWorkoutRoutine(id, body.value);
    if routine.None? {
      return NotFound("Routine not found");
    }
    return Ok(routine.value);
  }

  /** `DELETE /api/routines/:id`: `{ success: true }` when the routine
      existed (and is now gone), 404 otherwise. */
  method DeleteRoutine(store: DatabaseStorage, id: int) returns (res: Reply<bool>)
    requires store.Valid()
    modifies store
    ensures store.Valid()
    ensures res.Ok? <==> id in old(store.routines)
    ensures res.Ok? ==> res.value
    ensures !res.Ok? ==> res == NotFound("Routine not found")
    ensures store.routines == old(store.routines) - {id}
    ensures store.settings == old(store.settings) && store.sessions == old(store.sessions)
    ensures store.nextSettingsId == old(store.nextSettingsId)
  {
    var deleted := store.DeleteWorkoutRoutine(id);
    if !deleted {
      return NotFound("Routine not found");
    }
    return Ok(true);
  }
}
