/** The in-memory store of `server/storage_old.ts`. Each JavaScript `Map` keyed
    by record id becomes a sequence in insertion order (the iteration order of
    a `Map`), and each id comes from a counter that starts at 1. Settings are
    found by scanning for the user's record, as `Array.prototype.find` does. */
module StorageOld {
  import opened Common
  import opened Schema
  import opened Seqs
  import opened Calendar
  import Quota

  function RoutineId(r: WorkoutRoutine): int { r.id }
  function SessionId(s: WorkoutSession): int { s.id }
  function SettingsId(s: UserSettings): int { s.id }
  function EntryId(e: AffirmationEntry): int { e.id }

  /** The ids along `s` strictly increase and lie in [1, next). */
  predicate IdsBelow<T>(s: seq<T>, id: T -> int, next: int) {
    && (forall i, j :: 0 <= i < j < |s| ==> id(s[i]) < id(s[j]))
    && (forall i :: 0 <= i < |s| ==> 1 <= id(s[i]) < next)
  }

  /** Appending a record with the counter's id keeps the ids in order. */
  lemma AppendNewId<T>(s: seq<T>, x: T, id: T -> int, next: int)
    requires IdsBelow(s, id, next) && id(x) == next && 1 <= next
    ensures IdsBelow(s + [x], id, next + 1)
  {
  }

  /** Replacing a record by one with the same id keeps the ids in order. */
  lemma ReplaceSameId<T>(s: seq<T>, k: nat, x: T, id: T -> int, next: int)
    requires IdsBelow(s, id, next) && k < |s| && id(x) == id(s[k])
    ensures IdsBelow(s[k := x], id, next)
  {
  }

  /** Removing a record keeps the ids in order. */
  lemma RemoveKeepsIds<T>(s: seq<T>, k: nat, id: T -> int, next: int)
    requires IdsBelow(s, id, next) && k < |s|
    ensures IdsBelow(s[..k] + s[k + 1..], id, next)
  {
    var t := s[..k] + s[k + 1..];
    forall i, j | 0 <= i < j < |t|
      ensures id(t[i]) < id(t[j])
    {
      var i' := if i < k then i else i + 1;
      var j' := if j < k then j else j + 1;
      assert t[i] == s[i'] && t[j] == s[j'];
    }
  }

  /** Removing the record at `k` leaves no record with its id. */
  lemma RemoveDropsId<T>(s: seq<T>, k: nat, id: T -> int, next: int)
    requires IdsBelow(s, id, next) && k < |s|
    ensures var t := s[..k] + s[k + 1..];
      forall i :: 0 <= i < |t| ==> id(t[i]) != id(s[k])
  {
    var t := s[..k] + s[k + 1..];
    forall i | 0 <= i < |t|
      ensures id(t[i]) != id(s[k])
    {
      if i < k {
        assert t[i] == s[i];
      } else {
        assert t[i] == s[i + 1];
      }
    }
  }

  /** In an id-ordered list an id occurs at most once. */
  lemma IdsUnique<T>(s: seq<T>, id: T -> int, next: int, k: nat)
    requires IdsBelow(s, id, next) && k < |s|
    ensures forall i :: 0 <= i < |s| && i != k ==> id(s[i]) != id(s[k])
  {
  }

  /** `routine.id === id`, as a `find` predicate. */
  function HasRoutineId(id: int): WorkoutRoutine -> bool {
    (r: WorkoutRoutine) => r.id == id
  }

  /** `routine.userId === userId`. */
  function RoutineOwnedBy(userId: UserId): WorkoutRoutine -> bool {
    (r: WorkoutRoutine) => r.userId == userId
  }

  /** `cutoffDate.setDate(cutoffDate.getDate() - days)`: the same time of day
      `days` calendar days before `now`, the earliest instant still recent
      (days of 24 hours; a daylight-saving change in between is ignored). */
  function Cutoff(now: int, days: int): int {
    now - days * MsPerDay
  }

  /** The sessions `getRecentWorkoutSessions` keeps. */
  function RecentOf(userId: UserId, cutoff: int): WorkoutSession -> bool {
    (s: WorkoutSession) => s.userId == userId && s.completedAt >= cutoff
  }

  /** Sort key that puts later sessions first. */
  function NewestFirst(s: WorkoutSession): int { -s.completedAt }

  /** Ascending by the negated time is newest first. */
  lemma NewestFirstOrder(r: seq<WorkoutSession>)
    requires Ascending(r, NewestFirst)
    ensures forall i, j :: 0 <= i < j < |r| ==> r[i].completedAt >= r[j].completedAt
  {
    forall i, j | 0 <= i < j < |r|
      ensures r[i].completedAt >= r[j].completedAt
    {
      assert NewestFirst(r[i]) <= NewestFirst(r[j]);
    }
  }

  /** `settings.userId === userId`. */
  function SettingsOwnedBy(userId: UserId): UserSettings -> bool {
    (s: UserSettings) => s.userId == userId
  }

  /** `affirmation.userId === userId`. */
  function EntryOwnedBy(userId: UserId): AffirmationEntry -> bool {
    (e: AffirmationEntry) => e.userId == userId
  }

  /** Sort key that puts later entries first. */
  function LatestFirst(e: AffirmationEntry): int { -e.date }

  /** `getAffirmationHistory` as written sorts with a comparator that reads
      `shownAt`, a field the records do not have: the first comparison throws
      a `TypeError`, and `sort` compares as soon as there are two entries.
      `None` stands for the exception. */
  function AffirmationHistoryAsWritten(history: seq<AffirmationEntry>, userId: UserId): (r: Option<seq<AffirmationEntry>>)
    ensures r.None? <==> Count(history, EntryOwnedBy(userId)) >= 2
    ensures r.Some? ==> r.value == Filter(history, EntryOwnedBy(userId))
  {
    var mine := Filter(history, EntryOwnedBy(userId));
    FilterLength(history, EntryOwnedBy(userId));
    if |mine| >= 2 then None else Some(mine)
  }

  /** Any user with two history entries gets an error instead of a history. */
  lemma AffirmationHistoryFailsOnTwoEntries(a: AffirmationEntry, b: AffirmationEntry)
    requires a.userId == b.userId
    ensures AffirmationHistoryAsWritten([a, b], a.userId).None?
  {
    assert [a, b][1..] == [b];
    assert Count([b], EntryOwnedBy(a.userId)) == 1;
  }

  class DatabaseStorage {
    var workoutRoutines: seq<WorkoutRoutine>
    var workoutSessions: seq<WorkoutSession>
    var userSettings: seq<UserSettings>
    var affirmationHistory: seq<AffirmationEntry>
    var currentRoutineId: int
    var currentSessionId: int
    var currentSettingsId: int
    var currentAffirmationId: int

    /** Ids are handed out in increasing order and never reused, and no user
        has two settings records. */
    ghost predicate Valid()
      reads this
    {
      && 1 <= currentRoutineId && 1 <= currentSessionId && 1 <= currentSettingsId && 1 <= currentAffirmationId
      && IdsBelow(workoutRoutines, RoutineId, currentRoutineId)
      && IdsBelow(workoutSessions, SessionId, currentSessionId)
      && IdsBelow(userSettings, SettingsId, currentSettingsId)
      && IdsBelow(affirmationHistory, EntryId, currentAffirmationId)
      && OneRecordPerUser(userSettings)
    }

    /** Empty maps and counters at 1 (the demonstration data is not part of
        this model). */
    constructor ()
      ensures Valid()
      ensures workoutRoutines == [] && workoutSessions == [] && userSettings == [] && affirmationHistory == []
      ensures currentRoutineId == 1 && currentSessionId == 1 && currentSettingsId == 1 && currentAffirmationId == 1
    {
      workoutRoutines := [];
      workoutSessions := [];
      userSettings := [];
      affirmationHistory := [];
      currentRoutineId := 1;
      currentSessionId := 1;
      currentSettingsId := 1;
      currentAffirmationId := 1;
    }

    /** `getWorkoutRoutines`: the user's routines, in creation order. */
    method GetWorkoutRoutines(userId: UserId) returns (r: seq<WorkoutRoutine>)
      ensures forall i :: 0 <= i < |r| ==> r[i].userId == userId
      ensures forall i :: 0 <= i < |workoutRoutines| && workoutRoutines[i].userId == userId ==> workoutRoutines[i] in r
      ensures multiset(r) <= multiset(workoutRoutines)
      ensures r == Filter(workoutRoutines, RoutineOwnedBy(userId))
    {
      r := Filter(workoutRoutines, RoutineOwnedBy(userId));
      forall i | 0 <= i < |workoutRoutines| && workoutRoutines[i].userId == userId
        ensures workoutRoutines[i] in r
      {
        FilterKeeps(workoutRoutines, RoutineOwnedBy(userId), i);
      }
      forall i | 0 <= i < |r|
        ensures r[i].userId == userId
      {
        assert RoutineOwnedBy(userId)(r[i]);
      }
    }

    /** `getWorkoutRoutine`: the routine with that id, if any. */
    method GetWorkoutRoutine(id: int) returns (r: Option<WorkoutRoutine>)
      ensures r.Some? ==> r.value in workoutRoutines && r.value.id == id
      ensures r.None? ==> forall i :: 0 <= i < |workoutRoutines| ==> workoutRoutines[i].id != id
    {
      var k := Find(workoutRoutines, HasRoutineId(id));
      if k < 0 {
        return None;
      }
      return Some(workoutRoutines[k]);
    }

    /** `createWorkoutRoutine`: the next id, a missing description or
        duration stored as null, added after the existing routines. */
    method CreateWorkoutRoutine(routine: NewRoutine) returns (r: WorkoutRoutine)
      requires Valid()
      modifies this
      ensures Valid()
      ensures r == WorkoutRoutine(old(currentRoutineId), routine.userId, routine.name, routine.description, routine.duration, routine.exercises)
      ensures workoutRoutines == old(workoutRoutines) + [r] && currentRoutineId == old(currentRoutineId) + 1
      ensures forall i :: 0 <= i < |old(workoutRoutines)| ==> old(workoutRoutines)[i].id < r.id
      ensures workoutSessions == old(workoutSessions) && userSettings == old(userSettings)
      ensures affirmationHistory == old(affirmationHistory)
      ensures currentSessionId == old(currentSessionId) && currentSettingsId == old(currentSettingsId)
      ensures currentAffirmationId == old(currentAffirmationId)
    {
      var id := currentRoutineId;
      currentRoutineId := currentRoutineId + 1;
      r := WorkoutRoutine(id, routine.userId, routine.name, routine.description, routine.duration, routine.exercises);
      AppendNewId(workoutRoutines, r, RoutineId, id);
      workoutRoutines := workoutRoutines + [r];
    }

    /** `updateWorkoutRoutine`: nothing for an unknown id; otherwise the
        routine at its place with the supplied fields replaced and its id
        kept, every other routine untouched. */
    method UpdateWorkoutRoutine(id: int, p: RoutinePatch) returns (r: Option<WorkoutRoutine>)
      requires Valid()
      modifies this
      ensures Valid()
      ensures r.None? <==> forall i :: 0 <= i < |old(workoutRoutines)| ==> old(workoutRoutines)[i].id != id
      ensures r.None? ==> workoutRoutines == old(workoutRoutines)
      ensures r.Some? ==>
        var k := Find(old(workoutRoutines), HasRoutineId(id));
        0 <= k && r.value == MergeRoutine(old(workoutRoutines)[k], p) && workoutRoutines == old(workoutRoutines)[k := r.value]
      ensures r.Some? ==> r.value.id == id
      ensures workoutSessions == old(workoutSessions) && userSettings == old(userSettings)
      ensures affirmationHistory == old(affirmationHistory)
      ensures currentRoutineId == old(currentRoutineId) && currentSessionId == old(currentSessionId)
      ensures currentSettingsId == old(currentSettingsId) && currentAffirmationId == old(currentAffirmationId)
    {
      var k := Find(workoutRoutines, HasRoutineId(id));
      if k < 0 {
        return None;
      }
      var updated := MergeRoutine(workoutRoutines[k], p);
      ReplaceSameId(workoutRoutines, k, updated, RoutineId, currentRoutineId);
      workoutRoutines := workoutRoutines[k := updated];
      return Some(updated);
    }

    /** `deleteWorkoutRoutine`: true exactly when a routine had that id; that
        routine is the only one removed and the others keep their order. */
    method DeleteWorkoutRoutine(id: int) returns (deleted: bool)
      requires Valid()
      modifies this
      ensures Valid()
      ensures deleted <==> exists i :: 0 <= i < |old(workoutRoutines)| && old(workoutRoutines)[i].id == id
      ensures !deleted ==> workoutRoutines == old(workoutRoutines)
      ensures deleted ==>
        var k := Find(old(workoutRoutines), HasRoutineId(id));
        0 <= k && workoutRoutines == old(workoutRoutines)[..k] + old(workoutRoutines)[k + 1..]
      ensures forall i :: 0 <= i < |workoutRoutines| ==> workoutRoutines[i].id != id
      ensures workoutSessions == old(workoutSessions) && userSettings == old(userSettings)
      ensures affirmationHistory == old(affirmationHistory)
      ensures currentRoutineId == old(currentRoutineId) && currentSessionId == old(currentSessionId)
      ensures currentSettingsId == old(currentSettingsId) && currentAffirmationId == old(currentAffirmationId)
    {
      var k := Find(workoutRoutines, HasRoutineId(id));
      if k < 0 {
        return false;
      }
      RemoveKeepsIds(workoutRoutines, k, RoutineId, currentRoutineId);
      RemoveDropsId(workoutRoutines, k, RoutineId, currentRoutineId);
      workoutRoutines := workoutRoutines[..k] + workoutRoutines[k + 1..];
      return true;
    }

    /** `getRecentWorkoutSessions`: the user's sessions completed no earlier
        than `days` days before `now`, newest first. */
    method GetRecentWorkoutSessions(userId: UserId, days: int, now: int) returns (r: seq<WorkoutSession>)
      ensures forall i, j :: 0 <= i < j < |r| ==> r[i].completedAt >= r[j].completedAt
      ensures multiset(r) == multiset(Filter(workoutSessions, RecentOf(userId, Cutoff(now, days))))
      ensures forall i :: 0 <= i < |r| ==> RecentOf(userId, Cutoff(now, days))(r[i])
      ensures forall i :: 0 <= i < |workoutSessions| && RecentOf(userId, Cutoff(now, days))(workoutSessions[i]) ==>
                workoutSessions[i] in r
    {
      var cutoff := Cutoff(now, days);
      var recent := Filter(workoutSessions, RecentOf(userId, cutoff));
      r := SortBy(recent, NewestFirst);
      SortByCorrect(recent, NewestFirst);
      NewestFirstOrder(r);
      PermutationAll(recent, r, RecentOf(userId, cutoff));
      PermutedFilterKeeps(workoutSessions, RecentOf(userId, cutoff), r);
      assert multiset(r) == multiset(recent);
    }

    /** `createWorkoutSession`: the next id, a missing routine or duration
        stored as null, added after the existing sessions. */
    method CreateWorkoutSession(session: NewSession) returns (s: WorkoutSession)
      requires Valid()
      modifies this
      ensures Valid()
      ensures s == WorkoutSession(old(currentSessionId), session.userId, session.routineId, session.duration, session.completedAt)
      ensures workoutSessions == old(workoutSessions) + [s] && currentSessionId == old(currentSessionId) + 1
      ensures forall i :: 0 <= i < |old(workoutSessions)| ==> old(workoutSessions)[i].id < s.id
      ensures workoutRoutines == old(workoutRoutines) && userSettings == old(userSettings)
      ensures affirmationHistory == old(affirmationHistory)
      ensures currentRoutineId == old(currentRoutineId) && currentSettingsId == old(currentSettingsId)
      ensures currentAffirmationId == old(currentAffirmationId)
    {
      var id := currentSessionId;
      currentSessionId := currentSessionId + 1;
      s := WorkoutSession(id, session.userId, session.routineId, session.duration, session.completedAt);
      AppendNewId(workoutSessions, s, SessionId, id);
      workoutSessions := workoutSessions + [s];
    }

    /** `getUserSettings`: the first (and only) record of the user. */
    function GetUserSettings(userId: UserId): (r: Option<UserSettings>)
      reads this
      ensures r.Some? ==> r.value in userSettings && r.value.userId == userId
      ensures r.None? <==> forall i :: 0 <= i < |userSettings| ==> userSettings[i].userId != userId
    {
      FindSettings(userSettings, userId)
    }

    /** `updateUserSettings`: the user's record merged with the patch in
        place, or a new record of defaults overlaid by the patch added at the
        end; every other user's record is unchanged, and no user ever holds
        two records. */
    method UpdateUserSettings(userId: UserId, p: SettingsPatch) returns (r: UserSettings)
      requires Valid()
      modifies this
      ensures Valid()
      ensures r == Upsert(old(GetUserSettings(userId)), old(currentSettingsId), userId, p)
      ensures GetUserSettings(userId) == Some(r)
      ensures forall u :: u != userId ==> GetUserSettings(u) == old(GetUserSettings(u))
      ensures currentSettingsId == if old(GetUserSettings(userId)).Some? then old(currentSettingsId) else old(currentSettingsId) + 1
      ensures old(GetUserSettings(userId)).None? ==> userSettings == old(userSettings) + [r]
      ensures old(GetUserSettings(userId)).Some? ==> |userSettings| == |old(userSettings)|
      ensures workoutRoutines == old(workoutRoutines) && workoutSessions == old(workoutSessions)
      ensures affirmationHistory == old(affirmationHistory)
      ensures currentRoutineId == old(currentRoutineId) && currentSessionId == old(currentSessionId)
      ensures currentAffirmationId == old(currentAffirmationId)
    {
      var k := Find(userSettings, SettingsOwnedBy(userId));
      if k >= 0 {
        r := MergeSettings(userSettings[k], p);
        ReplaceSameId(userSettings, k, r, SettingsId, currentSettingsId);
        userSettings := userSettings[k := r];
        SettingsFindAfterReplace(old(userSettings), k, r);
      } else {
        r := Upsert(None, currentSettingsId, userId, p);
        AppendNewId(userSettings, r, SettingsId, currentSettingsId);
        currentSettingsId := currentSettingsId + 1;
        userSettings := userSettings + [r];
        SettingsFindAfterAppend(old(userSettings), r);
      }
    }

    /** `canUserAskAI` over this store: the same decision and reset as the
        database store. */
    method CanUserAskAI(userId: UserId, now: int) returns (status: Quota.AiStatus)
      requires Valid()
      modifies this
      ensures Valid()
      ensures status == Quota.Status(old(GetUserSettings(userId)), now)
      ensures GetUserSettings(userId) == Quota.AfterCheck(old(GetUserSettings(userId)), now)
      ensures forall u :: u != userId ==> GetUserSettings(u) == old(GetUserSettings(u))
      ensures currentSettingsId == old(currentSettingsId)
      ensures currentRoutineId == old(currentRoutineId) && currentSessionId == old(currentSessionId)
      ensures currentAffirmationId == old(currentAffirmationId)
      ensures workoutRoutines == old(workoutRoutines) && workoutSessions == old(workoutSessions)
      ensures affirmationHistory == old(affirmationHistory)
    {
      var current := GetUserSettings(userId);
      if current.None? {
        return Quota.AiStatus(false, 0);
      }
      if Quota.IsPro(current.value) {
        return Quota.AiStatus(true, -1);
      }
      if Quota.IsNewDay(current.value, now) {
        var updated := UpdateUserSettings(userId, Quota.ResetPatch(now));
        return Quota.AiStatus(true, 2);
      }
      var questionsUsed := Quota.QuestionsUsed(current.value);
      var questionsLeft := Quota.Max(0, Quota.DailyLimit - questionsUsed);
      return Quota.AiStatus(questionsLeft > 0, questionsLeft);
    }

    /** `incrementAIQuestions` over this store. */
    method IncrementAIQuestions(userId: UserId, now: int)
      requires Valid()
      modifies this
      ensures Valid()
      ensures GetUserSettings(userId) == Quota.AfterIncrement(old(GetUserSettings(userId)), now)
      ensures forall u :: u != userId ==> GetUserSettings(u) == old(GetUserSettings(u))
      ensures currentSettingsId == old(currentSettingsId)
      ensures currentRoutineId == old(currentRoutineId) && currentSessionId == old(currentSessionId)
      ensures currentAffirmationId == old(currentAffirmationId)
      ensures workoutRoutines == old(workoutRoutines) && workoutSessions == old(workoutSessions)
      ensures affirmationHistory == old(affirmationHistory)
    {
      var current := GetUserSettings(userId);
      if current.None? {
        return;
      }
      var newCount := Quota.QuestionsUsed(current.value) + 1;
      var updated := UpdateUserSettings(userId, NoChange.(dailyAiQuestions := Put(Some(newCount)), lastAiQuestionDate := Put(Some(now))));
    }

    /** `getAffirmationHistory`, sorting on the `date` the records carry:
        the user's entries, latest first. */
    method GetAffirmationHistory(userId: UserId) returns (r: seq<AffirmationEntry>)
      ensures forall i, j :: 0 <= i < j < |r| ==> r[i].date >= r[j].date
      ensures multiset(r) == multiset(Filter(affirmationHistory, EntryOwnedBy(userId)))
      ensures forall i :: 0 <= i < |r| ==> EntryOwnedBy(userId)(r[i])
    {
      var mine := Filter(affirmationHistory, EntryOwnedBy(userId));
      r := SortBy(mine, LatestFirst);
      SortByCorrect(mine, LatestFirst);
      forall i, j | 0 <= i < j < |r|
        ensures r[i].date >= r[j].date
      {
        assert LatestFirst(r[i]) <= LatestFirst(r[j]);
      }
      PermutationAll(mine, r, EntryOwnedBy(userId));
    }

    /** `addAffirmationHistory`: the next id, added at the end. */
    method AddAffirmationHistory(affirmation: NewAffirmation) returns (e: AffirmationEntry)
      requires Valid()
      modifies this
      ensures Valid()
      ensures e == AffirmationEntry(old(currentAffirmationId), affirmation.userId, affirmation.affirmation, affirmation.date)
      ensures affirmationHistory == old(affirmationHistory) + [e] && currentAffirmationId == old(currentAffirmationId) + 1
      ensures workoutRoutines == old(workoutRoutines) && workoutSessions == old(workoutSessions)
      ensures userSettings == old(userSettings)
      ensures currentRoutineId == old(currentRoutineId) && currentSessionId == old(currentSessionId)
      ensures currentSettingsId == old(currentSettingsId)
    {
      var id := currentAffirmationId;
      currentAffirmationId := currentAffirmationId + 1;
      e := AffirmationEntry(id, affirmation.userId, affirmation.affirmation, affirmation.date);
      AppendNewId(affirmationHistory, e, EntryId, id);
      affirmationHistory := affirmationHistory + [e];
    }
  }

  /** No user has two records in `s`. */
  predicate OneRecordPerUser(s: seq<UserSettings>) {
    forall i, j :: 0 <= i < j < |s| ==> s[i].userId != s[j].userId
  }

  /** The record of each user found in `s`. */
  function FindSettings(s: seq<UserSettings>, userId: UserId): Option<UserSettings> {
    var k := Find(s, SettingsOwnedBy(userId));
    if k < 0 then None else Some(s[k])
  }

  /** With one record per user, the lookup finds the record wherever it is. */
  lemma FindSettingsAt(s: seq<UserSettings>, i: nat)
    requires OneRecordPerUser(s) && i < |s|
    ensures FindSettings(s, s[i].userId) == Some(s[i])
  {
    var k := Find(s, SettingsOwnedBy(s[i].userId));
    assert SettingsOwnedBy(s[i].userId)(s[k]);
  }

  /** ... and finds nothing for a user without one. */
  lemma FindSettingsNone(s: seq<UserSettings>, u: UserId)
    requires forall i :: 0 <= i < |s| ==> s[i].userId != u
    ensures FindSettings(s, u) == None
  {
  }

  /** Replacing a user's record by a merge of it changes only that user's
      lookup. */
  lemma SettingsFindAfterReplace(s: seq<UserSettings>, k: nat, r: UserSettings)
    requires k < |s| && r.userId == s[k].userId && OneRecordPerUser(s)
    ensures OneRecordPerUser(s[k := r])
    ensures FindSettings(s[k := r], r.userId) == Some(r)
    ensures forall u :: u != r.userId ==> FindSettings(s[k := r], u) == FindSettings(s, u)
  {
    var t := s[k := r];
    FindSettingsAt(t, k);
    forall u | u != r.userId
      ensures FindSettings(t, u) == FindSettings(s, u)
    {
      if i :| 0 <= i < |s| && s[i].userId == u {
        FindSettingsAt(s, i);
        FindSettingsAt(t, i);
      } else {
        FindSettingsNone(s, u);
        FindSettingsNone(t, u);
      }
    }
  }

  /** Appending a record for a user who had none changes only that user's
      lookup. */
  lemma SettingsFindAfterAppend(s: seq<UserSettings>, r: UserSettings)
    requires forall i :: 0 <= i < |s| ==> s[i].userId != r.userId
    requires OneRecordPerUser(s)
    ensures OneRecordPerUser(s + [r])
    ensures FindSettings(s + [r], r.userId) == Some(r)
    ensures forall u :: u != r.userId ==> FindSettings(s + [r], u) == FindSettings(s, u)
  {
    var t := s + [r];
    FindSettingsAt(t, |s|);
    forall u | u != r.userId
      ensures FindSettings(t, u) == FindSettings(s, u)
    {
      if i :| 0 <= i < |s| && s[i].userId == u {
        FindSettingsAt(s, i);
        FindSettingsAt(t, i);
      } else {
        FindSettingsNone(s, u);
        FindSettingsNone(t, u);
      }
    }
  }
}
