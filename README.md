# ZenWorkout in Dafny

ZenWorkout (also branded ZenGym) is a fitness companion. Users log workout
sessions and keep workout routines. They see a streak and a weekly chart of
their activity, get a daily affirmation, and ask an AI coach nutrition and
training questions. Free users may ask three questions per calendar day;
Pro users may ask without limit.

This project models the logic behind those features and proves what they
promise:

- the server's two stores: the database store of `server/storage.ts` and the
  in-memory store of `server/storage_old.ts`, each a class with its tables as
  fields;
- the request handlers of `server/routes.ts` that hold logic: stats and
  streak, the weekly chart, settings, AI check, ask and upgrade, routine
  update and delete;
- the AI question quota, and the canned answers of `server/openai.ts` and of
  the stand-alone Pro chat page (`03_script.js`);
- the client's state machines: the workout timer, the routine editor and the
  AI chat; and its pure helpers: the daily affirmation and the dashboard's bar
  styling.

Modules, one per source file, plus shared building blocks:

| module | file | models |
|---|---|---|
| `Common` | `common.dfy` | `Option`, and `Patch` for the fields a partial update supplies |
| `Text` | `text.dfy` | the string built-ins the source uses: `toLowerCase`, `includes`, `trim`, `toString`, `padStart`, `parseInt` |
| `Seqs` | `seqs.dfy` | `filter`, counting, `find`, and a stable insertion sort standing for `sort`/`orderBy` |
| `Calendar` | `calendar.dfy` | timestamps in milliseconds, calendar days, weekdays and their labels |
| `Schema` | `schema.dfy` | the records of `shared/schema.ts`, their insert and partial-update shapes, and the column defaults |
| `Quota` | `quota.dfy` | the quota decision and writes shared by both stores, and what a sequence of asks amounts to |
| `Storage` | `storage.dfy` | `server/storage.ts` as a class over maps |
| `StorageOld` | `storage_old.dfy` | `server/storage_old.ts` as a class over insertion-ordered sequences with id counters |
| `Stats` | `stats.dfy` | the streak loop and the weekly-bucket loop of `server/routes.ts`, proved against characterising specifications |
| `Routes` | `routes.dfy` | the handlers of `server/routes.ts` as methods over the database store |
| `Assistant` | `assistant.dfy` | `server/openai.ts`: keyword classification and the fallback answer |
| `ProChat` | `pro_chat.dfy` | `03_script.js`: the Pro chat's canned answers |
| `WorkoutModal` | `workout_modal.dfy` | `workout-modal.tsx`: the `MM:SS` display and the timer class |
| `RoutinesPage` | `routines_page.dfy` | `routines.tsx`: form validation, the exercise list and the page state |
| `AiChat` | `ai_chat.dfy` | `ai-chat.tsx`: when a question may be sent, and the chat state |
| `Affirmations` | `affirmations.dfy` | `affirmations.ts`: the affirmation of the day |
| `Dashboard` | `dashboard.dfy` | `dashboard.tsx`: bar height and colour, and missing figures shown as 0 |

Conventions:

- Time is an `int` number of milliseconds. The local calendar day of an
  instant is `t / 86400000`, and "today" is the day of a `now` parameter.
  Day 0 (1 January 1970) is a Thursday.
- A nullable column is an `Option`. A partial update supplies a field
  (`Put`) or leaves it alone (`Keep`).
- JavaScript `Map`s are sequences in insertion order, since their iteration
  order is observable.
- Where a handler calls the store, the handler is a method over the
  `Storage.DatabaseStorage` object and its contract is stated in terms of
  the store's fields before and after.

Behaviour worth knowing:

- A question about a "post-workout meal" gets the breakfast answer, not the
  recovery one. "meal" is tested first, and "post-workout" always contains
  "workout", which is tested earlier still (`Assistant.PostWorkoutUnreachable`).
- The database store's `getRecentWorkoutSessions` ignores its `days`
  argument. So `/api/user/stats` reports the same number for total and
  weekly workouts, and every one of the user's sessions is counted
  (`Routes.GetUserStats`). The weekly chart is unaffected, because it only
  looks at the last seven days.
- `storage_old.ts` declares the session getters twice. A later method of the
  same name replaces an earlier one, so the model uses the in-memory
  definitions at lines 156-180.
- Dismissing the routine dialog (Escape, a click outside it or its close
  button) only closes it: the routine being edited stays selected. "Add New"
  then reopens the dialog on that routine, and submitting updates it instead
  of creating a new one (`RoutinesPage.DismissThenAddUpdates`).
- `form.reset(values)` in `startEdit` also makes those values the form's
  defaults, so every later bare `form.reset()` (cancel, and the create and
  update successes) restores the last edited routine instead of the blank
  form (see "## Findings").

## Model

| member | source | states |
|---|---|---|
| Calendar.DayOf | ZenWorkout/server/routes.ts:45-47 | the day of an instant is the one whose midnight-to-midnight span contains it |
| Calendar.DayOfStart | ZenWorkout/server/routes.ts:41-42 | every instant of a day's span falls on that day |
| Calendar.Weekday | ZenWorkout/server/routes.ts:92 | `getDay()` is in 0..6, with Sunday as 0 |
| Calendar.WeekdayNext | ZenWorkout/server/routes.ts:80-92 | the next day has the next weekday, wrapping from Saturday to Sunday |
| Calendar.DayLabel | ZenWorkout/server/routes.ts:78 | the label is the entry of `['Sun', …, 'Sat']` for the day's weekday |
| Schema.MergeRoutine | ZenWorkout/server/storage_old.ts:147 | `{ ...existing, ...patch }`: id and description are kept, each supplied field replaces the stored one, and each field not supplied stays |
| Schema.MergeRoutineIdempotent | ZenWorkout/server/storage_old.ts:147 | applying the same patch twice is applying it once |
| Schema.DefaultSettings | ZenWorkout/shared/schema.ts:43-56 | a new record carries its id and user, is not Pro, has no expiry, and has a zero count and no question date |
| Schema.MergedFromUnique | ZenWorkout/server/storage_old.ts:190 | the spread rule (same id and owner; each supplied field takes the supplied value, every other field stays) leaves exactly one record |
| Schema.MergeSettings | ZenWorkout/server/storage_old.ts:190 | `{ ...existing, ...patch }`: id and owner are kept, each of the ten supplied fields takes the supplied value, and each field not supplied stays |
| Schema.Upsert | ZenWorkout/server/storage.ts:116-146 | the record belongs to the user; an existing record keeps its id and has the patch spread over it; with none, the column defaults under the fresh id have the patch spread over them |
| Schema.UpsertNoChange | ZenWorkout/server/routes.ts:195-199 | an empty patch keeps an existing record and creates exactly the defaults when there is none |
| Schema.UpsertIdempotent | ZenWorkout/server/storage.ts:116-146 | upserting the same patch again changes nothing |
| Quota.IsPro | ZenWorkout/server/storage.ts:170 | a record without the flag is not Pro |
| Quota.IsNewDay | ZenWorkout/server/storage.ts:176-178 | a record with no question date is on a new day; one whose last question falls on the day of `now` is not |
| Quota.Status | ZenWorkout/server/storage.ts:163-190 | may ask iff a record exists and the user is Pro, or it is a new day, or fewer than 3 questions are used; -1 ("unlimited") iff Pro; a positive remainder implies may ask, and for a free user the converse holds too; no record gives (false, 0); a free user's new day gives (true, 2); a free user's same day leaves max(0, 3 - used) |
| Quota.AskStep | ZenWorkout/server/routes.ts:234-256 | no record: refused and nothing stored; a refusal stores nothing; an allowed ask leaves a record dated now, whose count for a free user is 1 on a new day and used + 1 otherwise |
| Quota.AfterCheck | ZenWorkout/server/storage.ts:177-183 | only a free user's first check of a day writes, and it writes a zero count stamped today; nothing else changes |
| Quota.AfterIncrement | ZenWorkout/server/storage.ts:192-203 | no record stays no record; otherwise the count goes up by one and the date becomes today; nothing else changes |
| Quota.NoRecordNeverAsks | ZenWorkout/server/storage.ts:165-167 | a user without a settings record is refused every time |
| Quota.ProAlwaysAsks | ZenWorkout/server/storage.ts:169-172 | a Pro user is allowed every time |
| Quota.SameDayAsks | ZenWorkout/server/storage.ts:186-189 | within one day, the i-th further ask succeeds iff used + i < 3 |
| Quota.ThreeAsksPerDay | ZenWorkout/server/storage.ts:177-189 | a free user's asks on a new day: exactly the first three succeed |
| Quota.UpgradeMakesUnlimited | ZenWorkout/server/routes.ts:259-275 | after an upgrade the user is Pro with a zero count and the given expiry, other fields are kept, and checks report unlimited |
| Storage.Lookup | ZenWorkout/server/storage.ts:110-113 | found iff the user has a row, and then it is that row |
| Storage.Store | ZenWorkout/server/storage.ts:119-125 | writing a record adds exactly its key; every other user's row is unchanged |
| Storage.DatabaseStorage.GetUserSettings | ZenWorkout/server/storage.ts:110-113 | found iff the user has a row, and then it is that row, which belongs to the user |
| Storage.DatabaseStorage.UpdateUserSettings | ZenWorkout/server/storage.ts:116-146 | the row becomes the upsert of the patch; the id counter advances only on insert; other rows and tables are unchanged |
| Storage.DatabaseStorage.CanUserAskAI | ZenWorkout/server/storage.ts:163-190 | returns `Quota.Status` of the row read and stores `Quota.AfterCheck` of it |
| Storage.DatabaseStorage.IncrementAIQuestions | ZenWorkout/server/storage.ts:192-203 | stores `Quota.AfterIncrement` of the row read |
| Storage.DatabaseStorage.GetRecentWorkoutSessions | ZenWorkout/server/storage.ts:96-103 | exactly the user's sessions (as a multiset), ordered by completion time ascending, whatever `days` is |
| Storage.DatabaseStorage.UpdateWorkoutRoutine | ZenWorkout/server/storage.ts:77-84 | some iff the id exists, and then the merged routine is stored under it; nothing else changes |
| Storage.DatabaseStorage.DeleteWorkoutRoutine | ZenWorkout/server/storage.ts:86-89 | true iff the id existed; exactly that routine is removed |
| StorageOld.AppendNewId | ZenWorkout/server/storage_old.ts:132-139 | appending a record with the counter's id keeps ids increasing and below the advanced counter |
| StorageOld.ReplaceSameId | ZenWorkout/server/storage_old.ts:148 | `set` on an existing id keeps the id order |
| StorageOld.RemoveKeepsIds | ZenWorkout/server/storage_old.ts:153 | `delete` keeps the id order |
| StorageOld.IdsUnique | ZenWorkout/server/storage_old.ts:132 | with the counter discipline, an id names at most one record |
| StorageOld.NewestFirstOrder | ZenWorkout/server/storage_old.ts:166 | ascending by negated time is descending by completion time |
| StorageOld.AffirmationHistoryAsWritten | ZenWorkout/server/storage_old.ts:215-219 | the comparator reads a field records lack, so the call fails iff the user has two or more entries |
| StorageOld.AffirmationHistoryFailsOnTwoEntries | ZenWorkout/server/storage_old.ts:218 | any user with two entries gets an error instead of a history |
| StorageOld.DatabaseStorage.constructor | ZenWorkout/server/storage_old.ts:40-54 | empty maps and every counter at 1 |
| StorageOld.DatabaseStorage.GetWorkoutRoutines | ZenWorkout/server/storage_old.ts:123-125 | exactly the user's routines, in insertion order: the table filtered by owner |
| StorageOld.DatabaseStorage.GetWorkoutRoutine | ZenWorkout/server/storage_old.ts:127-129 | some iff a routine has that id, and then it is that routine |
| StorageOld.DatabaseStorage.CreateWorkoutRoutine | ZenWorkout/server/storage_old.ts:131-141 | the new routine has the counter's id and the given fields, is appended, and the counter advances |
| StorageOld.DatabaseStorage.UpdateWorkoutRoutine | ZenWorkout/server/storage_old.ts:143-150 | none for an unknown id; otherwise the merge replaces the routine in place and all others are untouched |
| StorageOld.DatabaseStorage.DeleteWorkoutRoutine | ZenWorkout/server/storage_old.ts:152-154 | true iff an id matched; exactly that routine is removed, and the others keep their order |
| StorageOld.DatabaseStorage.GetRecentWorkoutSessions | ZenWorkout/server/storage_old.ts:160-167 | exactly the user's sessions at or after the cutoff (a multiset, every qualifying one included), newest first |
| StorageOld.DatabaseStorage.CreateWorkoutSession | ZenWorkout/server/storage_old.ts:169-180 | the new session has the counter's id and the given fields (nulls for missing ones), is appended, and the counter advances |
| StorageOld.DatabaseStorage.GetUserSettings | ZenWorkout/server/storage_old.ts:182-184 | the user's only record, or none |
| StorageOld.DatabaseStorage.UpdateUserSettings | ZenWorkout/server/storage_old.ts:186-213 | looking the user up afterwards gives the upsert of the patch, and other users' lookups are unchanged; with a record, the table keeps its length and the counter stays; without one, the new record is appended and the counter advances; still one record per user; other tables and counters unchanged |
| StorageOld.DatabaseStorage.CanUserAskAI | ZenWorkout/server/storage_old.ts:228-255 | the same decision and reset as the database store (`Quota.Status`, `Quota.AfterCheck`); other users, the other tables and all four id counters are unchanged |
| StorageOld.DatabaseStorage.IncrementAIQuestions | ZenWorkout/server/storage_old.ts:257-268 | the user's record becomes `Quota.AfterIncrement` of it; other users, the other tables and all four id counters are unchanged |
| StorageOld.DatabaseStorage.GetAffirmationHistory | ZenWorkout/server/storage_old.ts:215-219 | corrected: exactly the user's entries, sorted by `date`, latest first |
| StorageOld.DatabaseStorage.AddAffirmationHistory | ZenWorkout/server/storage_old.ts:221-226 | the entry gets the counter's id and is appended |
| StorageOld.FindSettingsAt | ZenWorkout/server/storage_old.ts:183 | with one record per user, `find` returns the user's record wherever it is |
| StorageOld.FindSettingsNone | ZenWorkout/server/storage_old.ts:183 | `find` returns nothing for a user without a record |
| StorageOld.SettingsFindAfterReplace | ZenWorkout/server/storage_old.ts:189-192 | replacing a record by its merge changes only that user's lookup |
| StorageOld.SettingsFindAfterAppend | ZenWorkout/server/storage_old.ts:193-211 | appending a new user's record changes only that user's lookup |
| Stats.ComputeStreak | ZenWorkout/server/routes.ts:36-58 | the loop's result satisfies `IsStreak`: the run of days with a session counted back from today, or from yesterday when today has none, capped at the 30-day window |
| Stats.StreakUnique | ZenWorkout/server/routes.ts:36-58 | the sessions and the day determine the streak |
| Stats.NoSessionsNoStreak | ZenWorkout/server/routes.ts:36-58 | no sessions, streak 0 |
| Stats.RunEndingToday | ZenWorkout/server/routes.ts:50-51 | sessions on today and the N-1 days before, with a gap before them, give streak N |
| Stats.RunEndingYesterday | ZenWorkout/server/routes.ts:52-54 | no session today, but sessions on the N days before and a gap before them, give streak N |
| Stats.TwoMissingDaysNoStreak | ZenWorkout/server/routes.ts:52-57 | no session today or yesterday gives streak 0 |
| Stats.GapStopsStreak | ZenWorkout/server/routes.ts:55-56 | the count never reaches past the first missing day |
| Stats.StreakAtMostDistinctDays | ZenWorkout/server/routes.ts:40-51 | the streak is at most 30, and at most the number of distinct active days among the last 30 |
| Stats.DuplicateDayNoEffect | ZenWorkout/server/routes.ts:44-48 | another session on an already active day changes no streak |
| Stats.SameActivitySameStreak | ZenWorkout/server/routes.ts:44-48 | the streak depends only on which days have a session |
| Stats.PermutationSameDays | ZenWorkout/server/routes.ts:44-48 | reordering the sessions changes no day's activity |
| Stats.ThreeDayDemo | ZenWorkout/server/storage_old.ts:56-104 | sessions today and on the two days before give streak 3 |
| Stats.BucketFor | ZenWorkout/server/routes.ts:85-95 | the bucket carries the day's weekday label, and is empty when there are no sessions |
| Stats.BucketForIsBucket | ZenWorkout/server/routes.ts:85-95 | a bucket's count and minutes are those of the day's sessions, and its label is the day's weekday |
| Stats.WeeklyData | ZenWorkout/server/routes.ts:74-96 | seven buckets, oldest first; bucket j is the bucket of the day 6-j days before today |
| Stats.LabelsAdvance | ZenWorkout/server/routes.ts:80-92 | consecutive buckets carry consecutive weekdays |
| Stats.TwoSessionsOneDay | ZenWorkout/server/routes.ts:85-94 | two sessions on one day count twice in that bucket, with their minutes summed |
| Stats.MinutesOnPermutation | ZenWorkout/server/routes.ts:94 | a day's minutes do not depend on the order of the sessions |
| Stats.BucketPermutation | ZenWorkout/server/routes.ts:85-95 | whether a bucket is a day's bucket does not depend on the order of the sessions |
| Stats.BucketForPermutation | ZenWorkout/server/routes.ts:85-95 | the bucket built for a day is the same for any order of the sessions |
| Stats.OutsideSessionsIgnored | ZenWorkout/server/routes.ts:85-89 | sessions outside the seven days change no bucket |
| Stats.NoSessionsEmptyWeek | ZenWorkout/server/routes.ts:74-96 | with no sessions, every bucket is zero |
| Routes.GetUserStats | ZenWorkout/server/routes.ts:26-68 | total = weekly = the user's session count; the streak satisfies `IsStreak` over the user's sessions and the day of `now` |
| Routes.NoSessionsZeroStats | ZenWorkout/server/routes.ts:26-68 | a user without sessions gets 0, 0 and 0 |
| Routes.GetWeeklyData | ZenWorkout/server/routes.ts:71-102 | seven buckets; bucket j is the bucket of all the user's sessions, in store order, for day `today - 6 + j` |
| Routes.GetSettings | ZenWorkout/server/routes.ts:191-206 | an existing record unchanged, or a newly stored default record; the settings counter advances only when one is created |
| Routes.PutSettings | ZenWorkout/server/routes.ts:208-221 | an invalid body gives 400 and no write; otherwise the upserted record is stored and returned; the settings counter advances only on an insert |
| Routes.SettingsBodyCanGrantPro | ZenWorkout/server/routes.ts:211-212 | a settings body may set `isPro`, after which checks report unlimited |
| Routes.SettingsBodyCanRaiseQuota | ZenWorkout/server/routes.ts:211-212 | a negative count in a settings body leaves more than 3 questions for the day |
| Routes.AiCheck | ZenWorkout/server/routes.ts:224-232 | the store's check: `Quota.Status`, and the reset written; the settings counter is unchanged |
| Routes.AiAsk | ZenWorkout/server/routes.ts:234-256 | missing or empty question: 400 and nothing stored; refused: 403 with the limit text; otherwise the answer, with the store stepped by `Quota.AskStep`; the settings counter is unchanged |
| Routes.UpgradePro | ZenWorkout/server/routes.ts:259-275 | the stored record is the upsert of the upgrade patch, and checks report unlimited; the settings counter advances only on an insert |
| Routes.PutRoutine | ZenWorkout/server/routes.ts:134-152 | invalid body: 400; unknown id: 404; otherwise the merged routine, stored; settings, sessions and the settings counter unchanged |
| Routes.DeleteRoutine | ZenWorkout/server/routes.ts:154-167 | success iff the routine existed, and it is gone; 404 otherwise; settings, sessions and the settings counter unchanged |
| Assistant.GetResponseKey | ZenWorkout/server/openai.ts:20-28 | on the lower-cased question: breakfast iff a breakfast word occurs; calories, workout and recovery iff no earlier group matches and a word of the group occurs; default iff no keyword of any group occurs |
| Assistant.ResponseKeyIgnoresCase | ZenWorkout/server/openai.ts:21 | classification ignores letter case |
| Assistant.MealWins | ZenWorkout/server/openai.ts:22 | a question with "meal" gets the breakfast answer |
| Assistant.PostWorkoutUnreachable | ZenWorkout/server/openai.ts:24-25 | the "post-workout" test never decides; recovery goes only to "recovery" or "muscle" questions |
| Assistant.PostWorkoutMealExample | ZenWorkout/client/src/components/ai-chat.tsx:31 | the sample recovery question gets the breakfast answer |
| Assistant.AskZenAI | ZenWorkout/server/openai.ts:30-59 | never empty; the provider's non-empty content, otherwise the fallback for the question's key |
| ProChat.ResponseTopic | 03_script.js:17-23 | on the lower-cased message: post-workout iff "post-workout" or "meal" occurs; muscle iff not that and "muscle" or "build" occurs; recovery iff neither and "recovery" or "rest" occurs |
| ProChat.GetAIResponse | 03_script.js:17-23 | the answer is one of the four fixed answers, and never empty |
| ProChat.ResponseIgnoresCase | 03_script.js:18 | the topic, and so the answer, ignores letter case |
| ProChat.MuscleBeforeRecovery | 03_script.js:20-21 | "muscle" outranks "recovery" |
| ProChat.InterestMeansRecovery | 03_script.js:21 | any message containing "interest" and none of the earlier keywords gets the recovery answer, because "rest" inside a word counts |
| ProChat.InterestExample | 03_script.js:21 | the one-word message "interest" gets the recovery answer |
| WorkoutModal.Pad2 | ZenWorkout/client/src/components/workout-modal.tsx:85 | the padded text has at least two characters |
| WorkoutModal.FormatTime | ZenWorkout/client/src/components/workout-modal.tsx:82-86 | the display has at least five characters (`FormatTimeReadsBack` states what it reads back as) |
| WorkoutModal.Pad2Length | ZenWorkout/client/src/components/workout-modal.tsx:85 | a number below 100 pads to exactly two characters |
| WorkoutModal.PaddedValue | ZenWorkout/client/src/components/workout-modal.tsx:85 | the padded text is all digits and reads back as the number |
| WorkoutModal.ClockReadsBack | ZenWorkout/client/src/components/workout-modal.tsx:85 | the parts around the last colon read back as minutes and seconds |
| WorkoutModal.FormatTimeReadsBack | ZenWorkout/client/src/components/workout-modal.tsx:82-86 | the display parses back to minutes*60 + seconds = the input, with seconds < 60, so it determines the elapsed time |
| WorkoutModal.FormatTimeFiveChars | ZenWorkout/client/src/components/workout-modal.tsx:82-86 | below 100 minutes the display is `MM:SS`, five characters |
| WorkoutModal.SessionMinutes | ZenWorkout/client/src/components/workout-modal.tsx:49 | whole minutes: m*60 <= seconds < (m+1)*60 |
| WorkoutModal.Timer.constructor | ZenWorkout/client/src/components/workout-modal.tsx:19-43 | closed, inactive, stopped, zero seconds |
| WorkoutModal.Timer.OpenModal | ZenWorkout/client/src/components/workout-modal.tsx:21 | opens; the timer is unchanged |
| WorkoutModal.Timer.CloseModal | ZenWorkout/client/src/components/workout-modal.tsx:22 | closes; the timer is unchanged |
| WorkoutModal.Timer.HandleStart | ZenWorkout/client/src/components/workout-modal.tsx:88-91 | active and running; the seconds are kept |
| WorkoutModal.Timer.HandlePause | ZenWorkout/client/src/components/workout-modal.tsx:93-95 | stops running; still active with its seconds |
| WorkoutModal.Timer.Tick | ZenWorkout/client/src/components/workout-modal.tsx:60-72 | one more second only while running |
| WorkoutModal.Timer.HandleStop | ZenWorkout/client/src/components/workout-modal.tsx:97-105 | logs the whole minutes iff seconds > 0; then reset and closed |
| WorkoutModal.Timer.HandleClose | ZenWorkout/client/src/components/workout-modal.tsx:107-114 | pauses; closes only when no session is active |
| RoutinesPage.ValidForm | ZenWorkout/client/src/pages/routines.tsx:19-24 | a valid form has a name and an exercise, and is never the blank form |
| RoutinesPage.DescriptionFree | ZenWorkout/client/src/pages/routines.tsx:21 | the optional description never decides validity |
| RoutinesPage.BlankFormInvalid | ZenWorkout/client/src/pages/routines.tsx:19-46 | the default form cannot be submitted, though its duration is valid |
| RoutinesPage.WithExercise | ZenWorkout/client/src/pages/routines.tsx:102-108 | unchanged iff the trimmed input is empty; otherwise the list plus the trimmed input at the end |
| RoutinesPage.AddedExerciseIsTrimmed | ZenWorkout/client/src/pages/routines.tsx:103-105 | an added exercise is non-empty and already trimmed |
| RoutinesPage.WithoutIndex | ZenWorkout/client/src/pages/routines.tsx:110-113 | the list without the element at the index; unchanged for an out-of-range index |
| RoutinesPage.RemoveUndoesAdd | ZenWorkout/client/src/pages/routines.tsx:102-113 | removing the exercise just added restores the list |
| RoutinesPage.EditForm | ZenWorkout/client/src/pages/routines.tsx:117-122 | keeps the name and exercises; description or ""; the duration is never 0, and it is the routine's when that is non-zero |
| RoutinesPage.EditFormValid | ZenWorkout/client/src/pages/routines.tsx:115-124 | a named routine with an exercise and a non-negative duration can be resubmitted from the edit form |
| RoutinesPage.Page.constructor | ZenWorkout/client/src/pages/routines.tsx:29-46 | closed, nothing being edited, the blank form, and the blank form as the reset defaults |
| RoutinesPage.Page.OpenAdd | ZenWorkout/client/src/pages/routines.tsx:137 | opens the dialog; nothing else changes |
| RoutinesPage.Page.SetExerciseInput | ZenWorkout/client/src/pages/routines.tsx:205-206 | the input holds the typed text |
| RoutinesPage.Page.SetDurationInput | ZenWorkout/client/src/pages/routines.tsx:192 | the duration becomes the integer the text starts with, or 0 when it starts with none |
| RoutinesPage.Page.AddExercise | ZenWorkout/client/src/pages/routines.tsx:102-108 | the exercises become `WithExercise`, and the input is cleared iff something was added |
| RoutinesPage.Page.RemoveExercise | ZenWorkout/client/src/pages/routines.tsx:110-113 | the exercises become `WithoutIndex` |
| RoutinesPage.Page.StartEdit | ZenWorkout/client/src/pages/routines.tsx:115-124 | the routine is being edited, the form is `EditForm` of it, `EditForm` of it becomes the reset defaults, and the dialog is open |
| RoutinesPage.Page.OnOpenChange | ZenWorkout/client/src/pages/routines.tsx:146 | dismissing sets only the open flag; the edited routine, the form and the input stay |
| RoutinesPage.Page.CancelEdit | ZenWorkout/client/src/pages/routines.tsx:126-130 | nothing is being edited, the dialog is closed and the form holds the reset defaults, the last edited routine's values once one was edited |
| RoutinesPage.Page.CancelEditToBlank | ZenWorkout/client/src/pages/routines.tsx:126-130 | the intended cancel: nothing is being edited, the dialog is closed, and both the form and the reset defaults are blank |
| RoutinesPage.Page.Submit | ZenWorkout/client/src/pages/routines.tsx:94-100 | an invalid form sends nothing; a valid one sends an update for the edited routine's id, or a create |
| RoutinesPage.Page.OnCreateSuccess | ZenWorkout/client/src/pages/routines.tsx:53-58 | closes the dialog and puts the reset defaults back in the form |
| RoutinesPage.DismissThenAddUpdates | ZenWorkout/client/src/pages/routines.tsx:115-146 | edit a routine, dismiss the dialog, press "Add New" and submit: an update of that routine is sent, not a create |
| RoutinesPage.Page.OnUpdateSuccess | ZenWorkout/client/src/pages/routines.tsx:69-74 | nothing is being edited and the form holds the reset defaults, the routine as `startEdit` loaded it; the open flag is left as it was |
| RoutinesPage.CancelThenAddDuplicates | ZenWorkout/client/src/pages/routines.tsx:115-137 | edit a routine, cancel, press "Add New" and submit: a create request carrying that routine's values is sent |
| RoutinesPage.CancelToBlankThenAddSendsNothing | ZenWorkout/client/src/pages/routines.tsx:126-137 | with the intended cancel, the same steps submit a blank form, and nothing is sent |
| AiChat.OfferedQuestions | ZenWorkout/client/src/components/ai-chat.tsx:176 | the first three samples |
| AiChat.LastSamplesNotOffered | ZenWorkout/client/src/components/ai-chat.tsx:27-33 | the fourth and fifth samples are never shown |
| AiChat.Blocked | ZenWorkout/client/src/components/ai-chat.tsx:100 | a Pro user, a status still loading and a status that allows never block |
| AiChat.BlockedMatchesServer | ZenWorkout/client/src/components/ai-chat.tsx:100 | the client blocks a free user iff the server's check would refuse, and never blocks a Pro user |
| AiChat.LimitMessageOpensUpgrade | ZenWorkout/client/src/components/ai-chat.tsx:77-78 | an error carrying the server's 403 text contains "limit reached" |
| AiChat.Chat.constructor | ZenWorkout/client/src/components/ai-chat.tsx:36-38 | no messages, empty input, no upgrade dialog |
| AiChat.Chat.SetInput | ZenWorkout/client/src/components/ai-chat.tsx:37 | the input holds the typed text |
| AiChat.Chat.HandleSendMessage | ZenWorkout/client/src/components/ai-chat.tsx:97-115 | blank input: nothing; blocked: upgrade dialog only; otherwise the trimmed text is appended and asked, and the input cleared |
| AiChat.Chat.HandleSampleQuestion | ZenWorkout/client/src/components/ai-chat.tsx:117-123 | blocked: upgrade dialog; otherwise the question is placed in the input, not sent |
| AiChat.Chat.OnAskSuccess | ZenWorkout/client/src/components/ai-chat.tsx:55-64 | the answer is appended after the existing messages |
| AiChat.Chat.OnAskError | ZenWorkout/client/src/components/ai-chat.tsx:65-86 | the upgrade dialog opens iff the error is not an authentication failure and its message contains "limit reached" |
| AiChat.SentMessageIsTrimmed | ZenWorkout/client/src/components/ai-chat.tsx:108-113 | a sent message is non-empty, with no white space at either end |
| Affirmations.DayOfYear | ZenWorkout/client/src/lib/affirmations.ts:31 | the day number d has the instant in the d-th 24-hour span after day zero |
| Affirmations.AffirmationIndex | ZenWorkout/client/src/lib/affirmations.ts:32 | JavaScript `%`: in [0,20) for a non-negative day, in (-20,0] otherwise, and congruent to the day |
| Affirmations.GetAffirmationByDate | ZenWorkout/client/src/lib/affirmations.ts:29-34 | defined on and after day zero; undefined iff the index is negative; otherwise the list entry at the index |
| Affirmations.TwentyDayCycle | ZenWorkout/client/src/lib/affirmations.ts:32-33 | days 20 apart show the same affirmation |
| Affirmations.NextDayNextAffirmation | ZenWorkout/client/src/lib/affirmations.ts:32-33 | the next day shows the next affirmation, wrapping after the last |
| Affirmations.JanuaryFirstShowsSecond | ZenWorkout/client/src/lib/affirmations.ts:31-33 | January 1 is day 1 and shows the second entry |
| Affirmations.SameDaySameAffirmation | ZenWorkout/client/src/lib/affirmations.ts:31 | every instant of a day shows the same affirmation |
| Dashboard.GetBarHeight | ZenWorkout/client/src/pages/dashboard.tsx:48-53 | one of four classes; for w >= 0 the height is 4*(w+1) units up to 16; negative counts get the tallest |
| Dashboard.BarHeightMonotone | ZenWorkout/client/src/pages/dashboard.tsx:48-53 | more workouts never give a shorter bar |
| Dashboard.GetBarColor | ZenWorkout/client/src/pages/dashboard.tsx:55-57 | green iff the day has a workout |
| Dashboard.StatOrZero | ZenWorkout/client/src/pages/dashboard.tsx:114-126 | a missing figure shows 0, and a present one shows itself |
| Text.ParseIntOfNatToString | ZenWorkout/client/src/pages/routines.tsx:192 | `parseInt` reads back any number's decimal text |
| Text.ParseIntNoDigits | ZenWorkout/client/src/pages/routines.tsx:192 | text without leading digits parses to nothing, so the duration becomes 0 |

## Left out

- HTTP, authentication and sessions: the authenticated user is a parameter,
  and the 500 "Failed to …" answers for thrown errors are not modelled.
- The OpenAI request. Its outcome is the `Assistant.ProviderReply`
  parameter, because it is a network call.
- Time zones and daylight saving. Calendar days are 24-hour spans of a
  millisecond clock, and the clock itself is a `now` parameter.
- `Routes.UpgradePro` takes the expiry instant as a parameter. "One month
  from now" (`setMonth`) is calendar arithmetic that is not modelled.
- Concurrency: two asks racing between the check and the increment are not
  modelled. Each handler runs to completion.
- Request validation (zod) is an `Option` body: `None` is a body that fails
  validation. Which JSON bodies fail is not modelled.
- `Routes.PutSettings`: a settings body that sets `userId`, which would move
  the record to another key, is not modelled. The patch has no `userId`
  field.
- Route ids that are not integers (`parseInt` giving `NaN`) are not
  modelled. Ids are `int`.
- Case folding covers ASCII letters only. Unicode case mapping is not
  modelled.
- The pass-through operations of `server/storage.ts` (`getUser`,
  `upsertUser`, `getWorkoutRoutines`, `getWorkoutRoutine`,
  `createWorkoutRoutine`, `getWorkoutSessions`, `createWorkoutSession`,
  `getAffirmationHistory`, `addAffirmationHistory`). Each is a single query
  with no logic beyond what the in-memory store's versions model.
- The demonstration data that `storage_old.ts` seeds at construction. Only
  its streak outcome is stated (`Stats.ThreeDayDemo`). Its users table and
  numeric user ids are not modelled.
- `client/src/lib/queryClient.ts` is not part of this model. The error
  message text and the `data.answer` shape are parameters, and
  `isUnauthorizedError` is a boolean.
- Rendering, toasts, scrolling, query invalidation and refetching, the
  redirect to the login page, the focus-mode event of the workout modal, and
  the buttons that open (line 153) and close (line 271) the chat's upgrade
  dialog directly.
- `getRandomAffirmation` (`Math.random`) is not modelled.
- Affirmations.GetAffirmationByDate: a result is promised only from day zero
  on. An instant before it can still give a defined entry when its day is a
  negative multiple of 20.

## Findings

| source | as written | input that shows it | evidently intended | confidence | as-written member | corrected member |
|---|---|---|---|---|---|---|
| ZenWorkout/server/storage_old.ts:218 | the history is sorted by `shownAt`, a field the records do not have (they carry `date`), so the comparator calls `getTime` on `undefined` | a user with two history entries: the sort compares them and throws | the user's entries sorted by `date`, latest first | high; not executed | StorageOld.AffirmationHistoryAsWritten | StorageOld.DatabaseStorage.GetAffirmationHistory |
| ZenWorkout/client/src/pages/routines.tsx:126-130 | `cancelEdit` calls a bare `form.reset()`, which restores the defaults that `startEdit`'s `form.reset(values)` replaced, so the form keeps the cancelled routine's values | edit routine A, cancel, press "Add New" and submit: a create request with A's name, description, duration and exercises duplicates A | cancelling clears the form, so "Add New" starts blank | medium (depends on react-hook-form replacing the defaults on `reset(values)`); not executed | RoutinesPage.CancelThenAddDuplicates | RoutinesPage.Page.CancelEditToBlank |
