/** The database-backed store of `server/storage.ts`: the `user_settings`,
    `workout_sessions` and `workout_routines` tables as fields of one object,
    and the operations the HTTP handlers call on them. */
module Storage {
  import opened Common
  import opened Schema
  import opened Seqs
  import Quota

  /** The record a settings table holds for `userId`, if any. */
  function Lookup(table: map<UserId, UserSettings>, userId: UserId): (r: Option<UserSettings>)
    ensures r.Some? <==> userId in table
    ensures r.Some? ==> r.value == table[userId]
  {
    if userId in table then Some(table[userId]) else None
  }

  /** The table after writing `r` under `userId`; writing nothing keeps it. */
  function Store(table: map<UserId, UserSettings>, userId: UserId, r: Option<UserSettings>): (t: map<UserId, UserSettings>)
    ensures r.None? ==> t == table
    ensures r.Some? ==> t.Keys == table.Keys + {userId} && t[userId] == r.value
    ensures forall u :: u in table && u != userId ==> u in t && t[u] == table[u]
  {
    if r.Some? then table[userId := r.value] else table
  }

  class DatabaseStorage {
    /** `user_settings`, keyed by its unique `user_id` column. */
    var settings: map<UserId, UserSettings>
    /** The next value of the `id` serial of `user_settings`. */
    var nextSettingsId: int
    /** `workout_sessions`, in insertion order. */
    var sessions: seq<WorkoutSession>
    /** `workout_routines`, keyed by its `id` primary key. */
    var routines: map<int, WorkoutRoutine>

    /** Each record sits under its own key. */
    ghost predicate Valid()
      reads this
    {
      && (forall u :: u in settings ==> settings[u].userId == u)
      && (forall id :: id in routines ==> routines[id].id == id)
    }

    constructor ()
      ensures Valid()
      ensures settings == map[] && sessions == [] && routines == map[] && nextSettingsId == 1
    {
      settings := map[];
      nextSettingsId := 1;
      sessions := [];
      routines := map[];
    }

    /** `getUserSettings`: the user's record, or none. */
    function GetUserSettings(userId: UserId): (r: Option<UserSettings>)
      reads this
      requires Valid()
      ensures r.Some? <==> userId in settings
      ensures r.Some? ==> r.value.userId == userId
      ensures r.Some? ==> r.value == settings[userId]
    {
      Lookup(settings, userId)
    }

    /** `updateUserSettings`: merge the patch into the user's record, or insert
        the column defaults overlaid by the patch when there is none; every
        other user's record stays as it was. */
    method UpdateUserSettings(userId: UserId, p: SettingsPatch) returns (r: UserSettings)
      requires Valid()
      modifies this
      ensures Valid()
      ensures r == Upsert(old(GetUserSettings(userId)), old(nextSettingsId), userId, p)
      ensures settings == old(settings)[userId := r]
      ensures nextSettingsId == if userId in old(settings) then old(nextSettingsId) else old(nextSettingsId) + 1
      ensures sessions == old(sessions) && routines == old(routines)
    {
      var existing := GetUserSettings(userId);
      r := Upsert(existing, nextSettingsId, userId, p);
      if existing.None? {
        nextSettingsId := nextSettingsId + 1;
      }
      settings := settings[userId := r];
    }

    /** `canUserAskAI`: the quota decision for the user's record, and the reset
        written on a free user's first check of a day. */
    method CanUserAskAI(userId: UserId, now: int) returns (status: Quota.AiStatus)
      requires Valid()
      modifies this
      ensures Valid()
      ensures status == Quota.Status(old(GetUserSettings(userId)), now)
      ensures settings == Store(old(settings), userId, Quota.AfterCheck(old(GetUserSettings(userId)), now))
      ensures nextSettingsId == old(nextSettingsId)
      ensures sessions == old(sessions) && routines == old(routines)
    {
      var current := GetUserSettings(userId);
      if current.None? {
        return Quota.AiStatus(false, 0);
      }
      if Quota.IsPro(current.value) {
        return Quota.AiStatus(true, -1);
      }
      if Quota.IsNewDay(current.value, now) {
        var updated := UpdateUserSettings(userId, Quota.ResetPatch(now));
        return Quota.AiStatus(true, 2);
      }
      var questionsUsed := Quota.QuestionsUsed(current.value);
      var questionsLeft := Quota.Max(0, Quota.DailyLimit - questionsUsed);
      return Quota.AiStatus(questionsLeft > 0, questionsLeft);
    }

    /** `incrementAIQuestions`: one more question counted today; nothing
        happens for a user without a record. */
    method IncrementAIQuestions(userId: UserId, now: int)
      requires Valid()
      modifies this
      ensures Valid()
      ensures settings == Store(old(settings), userId, Quota.AfterIncrement(old(GetUserSettings(userId)), now))
      ensures nextSettingsId == old(nextSettingsId)
      ensures sessions == old(sessions) && routines == old(routines)
    {
      var current := GetUserSettings(userId);
      if current.None? {
        return;
      }
      var newCount := Quota.QuestionsUsed(current.value) + 1;
      var updated := UpdateUserSettings(userId, NoChange.(dailyAiQuestions := Put(Some(newCount)), lastAiQuestionDate := Put(Some(now))));
    }

    /** `getRecentWorkoutSessions`: all of the user's sessions, oldest first.
        The `days` argument is not used: the cutoff is computed and then left
        out of the query. */
    method GetRecentWorkoutSessions(userId: UserId, days: int) returns (r: seq<WorkoutSession>)
      ensures Ascending(r, CompletedAt)
      ensures multiset(r) == multiset(Filter(sessions, SessionOwnedBy(userId)))
      ensures forall i :: 0 <= i < |r| ==> SessionOwnedBy(userId)(r[i])
    {
      var mine := Filter(sessions, SessionOwnedBy(userId));
      r := SortBy(mine, CompletedAt);
      SortByCorrect(mine, CompletedAt);
      PermutationAll(mine, r, SessionOwnedBy(userId));
    }

    /** `updateWorkoutRoutine`: the stored routine with the supplied fields
        replaced, or nothing for an unknown id; no other routine changes. */
    method UpdateWorkoutRoutine(id: int, p: RoutinePatch) returns (r: Option<WorkoutRoutine>)
      requires Valid()
      modifies this
      ensures Valid()
      ensures r.Some? <==> id in old(routines)
      ensures r.Some? ==> r.value == MergeRoutine(old(routines)[id], p) && routines == old(routines)[id := r.value]
      ensures r.None? ==> routines == old(routines)
      ensures settings == old(settings) && nextSettingsId == old(nextSettingsId) && sessions == old(sessions)
    {
      if id !in routines {
        return None;
      }
      var updated := MergeRoutine(routines[id], p);
      routines := routines[id := updated];
      return Some(updated);
    }

    /** `deleteWorkoutRoutine`: true exactly when a routine with that id
        existed; it is the only one removed. */
    method DeleteWorkoutRoutine(id: int) returns (deleted: bool)
      requires Valid()
      modifies this
      ensures Valid()
      ensures deleted <==> id in old(routines)
      ensures routines == old(routines) - {id}
      ensures settings == old(settings) && nextSettingsId == old(nextSettingsId) && sessions == old(sessions)
    {
      deleted := id in routines;
      routines := routines - {id};
    }
  }
}
