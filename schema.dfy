/** The records of the shared schema (`workoutRoutines`, `workoutSessions`,
    `userSettings`, `affirmationHistory`), their insert shapes (which never
    carry an `id`), their partial updates and the column defaults.

    A nullable column is an `Option`. A column that has a default but no
    `notNull()` constraint is nullable too: the default only fills a value the
    insert leaves out. */
module Schema {
  import opened Common

  /** The authenticated user's identifier (the OIDC `sub` claim). */
  type UserId = string

  /** A row of `workout_routines`. The table has no `description` column; the
      in-memory store keeps one on its records, and it is `None` whenever the
      insert leaves it out. */
  datatype WorkoutRoutine = WorkoutRoutine(
    id: int,
    userId: UserId,
    name: string,
    description: Option<string>,
    duration: Option<int>,
    exercises: seq<string>)

  /** `InsertWorkoutRoutine`: a routine without its `id`. */
  datatype NewRoutine = NewRoutine(
    userId: UserId,
    name: string,
    description: Option<string>,
    duration: Option<int>,
    exercises: seq<string>)

  /** `Partial<InsertWorkoutRoutine>`. */
  datatype RoutinePatch = RoutinePatch(
    userId: Patch<UserId>,
    name: Patch<string>,
    duration: Patch<Option<int>>,
    exercises: Patch<seq<string>>)

  /** `{ ...existing, ...patch }`: the supplied fields replace the stored ones. */
  function MergeRoutine(r: WorkoutRoutine, p: RoutinePatch): (m: WorkoutRoutine)
    ensures m.id == r.id && m.description == r.description
    ensures p.userId.Keep? ==> m.userId == r.userId
    ensures p.name.Keep? ==> m.name == r.name
    ensures p.duration.Keep? ==> m.duration == r.duration
    ensures p.exercises.Keep? ==> m.exercises == r.exercises
    ensures p.userId.Put? ==> m.userId == p.userId.value
    ensures p.name.Put? ==> m.name == p.name.value
    ensures p.duration.Put? ==> m.duration == p.duration.value
    ensures p.exercises.Put? ==> m.exercises == p.exercises.value
  {
    r.(userId := Apply(p.userId, r.userId),
       name := Apply(p.name, r.name),
       duration := Apply(p.duration, r.duration),
       exercises := Apply(p.exercises, r.exercises))
  }

  /** Merging the same patch twice is merging it once. */
  lemma MergeRoutineIdempotent(r: WorkoutRoutine, p: RoutinePatch)
    ensures MergeRoutine(MergeRoutine(r, p), p) == MergeRoutine(r, p)
  {
  }

  /** A row of `workout_sessions`: `completedAt` is required, the routine and
      the duration (in minutes) are nullable. */
  datatype WorkoutSession = WorkoutSession(
    id: int,
    userId: UserId,
    routineId: Option<int>,
    duration: Option<int>,
    completedAt: int)

  /** `session.userId === userId`. */
  function SessionOwnedBy(userId: UserId): WorkoutSession -> bool {
    (s: WorkoutSession) => s.userId == userId
  }

  /** The `completedAt` column, as a sort key. */
  function CompletedAt(s: WorkoutSession): int {
    s.completedAt
  }

  /** `InsertWorkoutSession`. */
  datatype NewSession = NewSession(
    userId: UserId,
    routineId: Option<int>,
    duration: Option<int>,
    completedAt: int)

  /** A row of `user_settings`; `userId` is unique and not null. */
  datatype UserSettings = UserSettings(
    id: int,
    userId: UserId,
    workoutReminderEnabled: Option<bool>,
    workoutReminderTime: Option<string>,
    affirmationEnabled: Option<bool>,
    affirmationTime: Option<string>,
    darkMode: Option<bool>,
    notificationsEnabled: Option<bool>,
    isPro: Option<bool>,
    proExpiresAt: Option<int>,
    dailyAiQuestions: Option<int>,
    lastAiQuestionDate: Option<int>)

  /** `Partial<InsertUserSettings>` without `userId`: the record's owner is the
      key under which it is stored. */
  datatype SettingsPatch = SettingsPatch(
    workoutReminderEnabled: Patch<Option<bool>>,
    workoutReminderTime: Patch<Option<string>>,
    affirmationEnabled: Patch<Option<bool>>,
    affirmationTime: Patch<Option<string>>,
    darkMode: Patch<Option<bool>>,
    notificationsEnabled: Patch<Option<bool>>,
    isPro: Patch<Option<bool>>,
    proExpiresAt: Patch<Option<int>>,
    dailyAiQuestions: Patch<Option<int>>,
    lastAiQuestionDate: Patch<Option<int>>)

  /** The patch that supplies nothing (`{ userId }` for the record's own user). */
  const NoChange: SettingsPatch :=
    SettingsPatch(Keep, Keep, Keep, Keep, Keep, Keep, Keep, Keep, Keep, Keep)

  /** The record the stores insert for a user who has none: the column
      defaults, with no Pro expiry and no AI question asked yet. */
  function DefaultSettings(id: int, userId: UserId): (s: UserSettings)
    ensures s.id == id && s.userId == userId
    ensures s.isPro == Some(false) && s.proExpiresAt == None
    ensures s.dailyAiQuestions == Some(0) && s.lastAiQuestionDate == None
  {
    UserSettings(id, userId, Some(true), Some("08:00"), Some(true), Some("07:00"),
                 Some(false), Some(true), Some(false), None, Some(0), None)
  }

  /** `m` is `base` with the patch spread over it: the same id and owner,
      every supplied field holding the supplied value, and every other field
      as in `base`. */
  predicate MergedFrom(base: UserSettings, p: SettingsPatch, m: UserSettings) {
    && m.id == base.id && m.userId == base.userId
    && Merged(p.workoutReminderEnabled, base.workoutReminderEnabled, m.workoutReminderEnabled)
    && Merged(p.workoutReminderTime, base.workoutReminderTime, m.workoutReminderTime)
    && Merged(p.affirmationEnabled, base.affirmationEnabled, m.affirmationEnabled)
    && Merged(p.affirmationTime, base.affirmationTime, m.affirmationTime)
    && Merged(p.darkMode, base.darkMode, m.darkMode)
    && Merged(p.notificationsEnabled, base.notificationsEnabled, m.notificationsEnabled)
    && Merged(p.isPro, base.isPro, m.isPro)
    && Merged(p.proExpiresAt, base.proExpiresAt, m.proExpiresAt)
    && Merged(p.dailyAiQuestions, base.dailyAiQuestions, m.dailyAiQuestions)
    && Merged(p.lastAiQuestionDate, base.lastAiQuestionDate, m.lastAiQuestionDate)
  }

  /** A base and a patch leave one possible merged record. */
  lemma MergedFromUnique(base: UserSettings, p: SettingsPatch, m1: UserSettings, m2: UserSettings)
    requires MergedFrom(base, p, m1) && MergedFrom(base, p, m2)
    ensures m1 == m2
  {
  }

  /** `{ ...existing, ...patch }` on a settings record. */
  function MergeSettings(s: UserSettings, p: SettingsPatch): (m: UserSettings)
    ensures MergedFrom(s, p, m)
  {
    UserSettings(
      s.id, s.userId,
      Apply(p.workoutReminderEnabled, s.workoutReminderEnabled),
      Apply(p.workoutReminderTime, s.workoutReminderTime),
      Apply(p.affirmationEnabled, s.affirmationEnabled),
      Apply(p.affirmationTime, s.affirmationTime),
      Apply(p.darkMode, s.darkMode),
      Apply(p.notificationsEnabled, s.notificationsEnabled),
      Apply(p.isPro, s.isPro),
      Apply(p.proExpiresAt, s.proExpiresAt),
      Apply(p.dailyAiQuestions, s.dailyAiQuestions),
      Apply(p.lastAiQuestionDate, s.lastAiQuestionDate))
  }

  /** `updateUserSettings`'s record: the existing one merged with the patch,
      or, when there is none, the defaults overlaid by the patch. */
  function Upsert(existing: Option<UserSettings>, id: int, userId: UserId, p: SettingsPatch): (r: UserSettings)
    requires existing.Some? ==> existing.value.userId == userId
    ensures r.userId == userId
    ensures existing.Some? ==> r.id == existing.value.id
    ensures existing.None? ==> r.id == id
    ensures existing.Some? ==> MergedFrom(existing.value, p, r)
    ensures existing.None? ==> MergedFrom(DefaultSettings(id, userId), p, r)
  {
    match existing
    case Some(s) => MergeSettings(s, p)
    case None => MergeSettings(DefaultSettings(id, userId), p)
  }

  /** The empty patch leaves an existing record as it is and creates exactly
      the defaults for a new one. */
  lemma UpsertNoChange(existing: Option<UserSettings>, id: int, userId: UserId)
    requires existing.Some? ==> existing.value.userId == userId
    ensures existing.Some? ==> Upsert(existing, id, userId, NoChange) == existing.value
    ensures existing.None? ==> Upsert(existing, id, userId, NoChange) == DefaultSettings(id, userId)
  {
  }

  /** Upserting the same patch again changes nothing more. */
  lemma UpsertIdempotent(existing: Option<UserSettings>, id: int, userId: UserId, p: SettingsPatch)
    requires existing.Some? ==> existing.value.userId == userId
    ensures var r := Upsert(existing, id, userId, p);
      Upsert(Some(r), id, userId, p) == r
  {
  }

  /** A row of `affirmation_history`. */
  datatype AffirmationEntry = AffirmationEntry(id: int, userId: UserId, affirmation: string, date: int)

  /** `InsertAffirmationHistory`. */
  datatype NewAffirmation = NewAffirmation(userId: UserId, affirmation: string, date: int)
}
