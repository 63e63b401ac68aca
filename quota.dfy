/** The AI-question quota: the decision `canUserAskAI` returns, the writes it
    and `incrementAIQuestions` make, and what a sequence of asks amounts to.
    Both stores run exactly these rules; they differ only in how they keep
    their records. */
module Quota {
  import opened Common
  import opened Schema
  import opened Calendar

  /** Questions a free user may ask per calendar day. */
  const DailyLimit: int := 3

  /** `{ canAsk, questionsLeft }`; `questionsLeft == -1` stands for "unlimited". */
  datatype AiStatus = AiStatus(canAsk: bool, questionsLeft: int)

  /** `if (settings.isPro)`: a missing flag is not Pro. */
  predicate IsPro(s: UserSettings)
    ensures s.isPro.None? ==> !IsPro(s)
  {
    s.isPro == Some(true)
  }

  /** `settings.dailyAiQuestions || 0`. */
  function QuestionsUsed(s: UserSettings): int {
    s.dailyAiQuestions.GetOr(0)
  }

  /** No question has been recorded on the calendar day of `now`
      (`!lastQuestionDate || lastQuestionDate.toDateString() !== today.toDateString()`). */
  predicate IsNewDay(s: UserSettings, now: int)
    ensures s.lastAiQuestionDate.None? ==> IsNewDay(s, now)
    ensures s.lastAiQuestionDate.Some? && DayOf(s.lastAiQuestionDate.value) == DayOf(now) ==> !IsNewDay(s, now)
  {
    s.lastAiQuestionDate.None? || DayOf(s.lastAiQuestionDate.value) != DayOf(now)
  }

  /** `Math.max(a, b)`. */
  function Max(a: int, b: int): int {
    if a >= b then a else b
  }

  /** What `canUserAskAI` returns for the record it reads (or for none).
      A user may ask exactly when a record exists and the user is Pro, or
      nothing has been asked today, or fewer than three questions have been
      asked today; the count is unlimited (-1) exactly for Pro users, and it
      exceeds the daily limit only for a counter that was set negative. */
  function Status(s: Option<UserSettings>, now: int): (r: AiStatus)
    ensures r.canAsk <==>
      s.Some? && (IsPro(s.value) || IsNewDay(s.value, now) || QuestionsUsed(s.value) < DailyLimit)
    ensures r.questionsLeft == -1 <==> s.Some? && IsPro(s.value)
    ensures -1 <= r.questionsLeft
    ensures s.Some? && QuestionsUsed(s.value) >= 0 ==> r.questionsLeft <= DailyLimit
    ensures r.questionsLeft > 0 ==> r.canAsk
    ensures s.Some? && !IsPro(s.value) ==> (r.canAsk <==> r.questionsLeft > 0)
    ensures s.None? ==> r == AiStatus(false, 0)
    ensures s.Some? && !IsPro(s.value) && IsNewDay(s.value, now) ==> r == AiStatus(true, 2)
    ensures s.Some? && !IsPro(s.value) && !IsNewDay(s.value, now) ==>
      r.questionsLeft == Max(0, DailyLimit - QuestionsUsed(s.value))
  {
    match s
    case None => AiStatus(false, 0)
    case Some(settings) =>
      if IsPro(settings) then AiStatus(true, -1)
      else if IsNewDay(settings, now) then AiStatus(true, 2)
      else
        var left := Max(0, DailyLimit - QuestionsUsed(settings));
        AiStatus(left > 0, left)
  }

  /** The patch `canUserAskAI` writes on a new day. */
  function ResetPatch(now: int): SettingsPatch {
    NoChange.(dailyAiQuestions := Put(Some(0)), lastAiQuestionDate := Put(Some(now)))
  }

  /** The patch `incrementAIQuestions` writes. */
  function IncrementPatch(s: UserSettings, now: int): SettingsPatch {
    NoChange.(dailyAiQuestions := Put(Some(QuestionsUsed(s) + 1)), lastAiQuestionDate := Put(Some(now)))
  }

  /** The record after `canUserAskAI`: only a free user's first check of a
      day writes, and it writes a zero count stamped with today; nothing
      else in the record changes. */
  function AfterCheck(s: Option<UserSettings>, now: int): (r: Option<UserSettings>)
    ensures r.Some? <==> s.Some?
    ensures s.Some? && (IsPro(s.value) || !IsNewDay(s.value, now)) ==> r == s
    ensures s.Some? && !IsPro(s.value) && IsNewDay(s.value, now) ==>
      && r.value == s.value.(dailyAiQuestions := Some(0), lastAiQuestionDate := Some(now))
      && QuestionsUsed(r.value) == 0 && !IsNewDay(r.value, now)
  {
    match s
    case Some(settings) =>
      if !IsPro(settings) && IsNewDay(settings, now) then Some(MergeSettings(settings, ResetPatch(now)))
      else s
    case None => None
  }

  /** The record after `incrementAIQuestions`: no record stays no record;
      otherwise one more question is counted, the date becomes today, and
      nothing else changes. */
  function AfterIncrement(s: Option<UserSettings>, now: int): (r: Option<UserSettings>)
    ensures s.None? ==> r.None?
    ensures s.Some? ==>
      && r == Some(s.value.(dailyAiQuestions := Some(QuestionsUsed(s.value) + 1), lastAiQuestionDate := Some(now)))
      && QuestionsUsed(r.value) == QuestionsUsed(s.value) + 1 && !IsNewDay(r.value, now)
  {
    match s
    case Some(settings) => Some(MergeSettings(settings, IncrementPatch(settings, now)))
    case None => None
  }

  /** One `POST /api/ai/ask` with a valid question, as seen by the store: the
      check, then, only if it allows, the answer and one increment. */
  function AskStep(s: Option<UserSettings>, now: int): (r: (bool, Option<UserSettings>))
    ensures s.None? ==> r == (false, None)
    ensures !r.0 ==> r.1 == s
    ensures r.0 ==> r.1.Some? && r.1.value.lastAiQuestionDate == Some(now)
    ensures r.0 && s.Some? && !IsPro(s.value) ==>
      QuestionsUsed(r.1.value) == (if IsNewDay(s.value, now) then 1 else QuestionsUsed(s.value) + 1)
  {
    var checked := AfterCheck(s, now);
    if Status(s, now).canAsk then (true, AfterIncrement(checked, now)) else (false, checked)
  }

  /** The outcomes of successive asks at the given instants. */
  function Asks(s: Option<UserSettings>, times: seq<int>): (outcomes: seq<bool>)
    ensures |outcomes| == |times|
    decreases |times|
  {
    if times == [] then []
    else
      var (ok, next) := AskStep(s, times[0]);
      [ok] + Asks(next, times[1..])
  }

  /** Every instant falls on `day`. */
  predicate AllOnDay(times: seq<int>, day: int) {
    forall i :: 0 <= i < |times| ==> DayOf(times[i]) == day
  }

  /** A user with no settings record is never allowed, and asking never
      creates a record. */
  lemma {:induction false} NoRecordNeverAsks(times: seq<int>)
    ensures forall i :: 0 <= i < |times| ==> !Asks(None, times)[i]
  {
    if times != [] {
      NoRecordNeverAsks(times[1..]);
    }
  }

  /** A Pro user is allowed every time, whatever the counter says. */
  lemma {:induction false} ProAlwaysAsks(s: UserSettings, times: seq<int>)
    requires IsPro(s)
    ensures forall i :: 0 <= i < |times| ==> Asks(Some(s), times)[i]
    decreases |times|
  {
    if times != [] {
      var (ok, next) := AskStep(Some(s), times[0]);
      assert next.Some? && IsPro(next.value);
      ProAlwaysAsks(next.value, times[1..]);
    }
  }

  /** On a day that already has `QuestionsUsed(s)` questions, the i-th further
      ask succeeds exactly when fewer than three have been asked before it. */
  lemma {:induction false} SameDayAsks(s: UserSettings, times: seq<int>, day: int)
    requires !IsPro(s)
    requires s.lastAiQuestionDate.Some? && DayOf(s.lastAiQuestionDate.value) == day
    requires AllOnDay(times, day)
    ensures forall i :: 0 <= i < |times| ==> (Asks(Some(s), times)[i] <==> QuestionsUsed(s) + i < DailyLimit)
    decreases |times|
  {
    if times != [] {
      var (ok, next) := AskStep(Some(s), times[0]);
      assert !IsNewDay(s, times[0]);
      assert ok <==> QuestionsUsed(s) < DailyLimit;
      assert next.Some? && !IsPro(next.value);
      assert DayOf(next.value.lastAiQuestionDate.value) == day;
      var used' := QuestionsUsed(next.value);
      assert used' == if ok then QuestionsUsed(s) + 1 else QuestionsUsed(s);
      SameDayAsks(next.value, times[1..], day);
      forall i | 0 <= i < |times|
        ensures Asks(Some(s), times)[i] <==> QuestionsUsed(s) + i < DailyLimit
      {
        if i > 0 {
          assert Asks(Some(s), times)[i] == Asks(next, times[1..])[i - 1];
          if !ok {
            assert QuestionsUsed(s) >= DailyLimit;
          }
        }
      }
    }
  }

  /** The end-to-end rule: a free user's first ask of a calendar day resets the
      count, so on that day exactly the first three asks succeed and every
      later one is refused, whatever the record said before. */
  lemma {:induction false} ThreeAsksPerDay(s: UserSettings, times: seq<int>)
    requires !IsPro(s) && times != []
    requires IsNewDay(s, times[0]) && AllOnDay(times, DayOf(times[0]))
    ensures forall i :: 0 <= i < |times| ==> (Asks(Some(s), times)[i] <==> i < DailyLimit)
  {
    var day := DayOf(times[0]);
    var (ok, next) := AskStep(Some(s), times[0]);
    assert ok;
    assert next.Some? && !IsPro(next.value) && QuestionsUsed(next.value) == 1;
    assert DayOf(next.value.lastAiQuestionDate.value) == day;
    SameDayAsks(next.value, times[1..], day);
    forall i | 0 < i < |times|
      ensures Asks(Some(s), times)[i] <==> i < DailyLimit
    {
      assert Asks(Some(s), times)[i] == Asks(next, times[1..])[i - 1];
    }
  }

  /** The patch `/api/upgrade-pro` writes. */
  function UpgradePatch(proExpiresAt: int): SettingsPatch {
    NoChange.(isPro := Put(Some(true)), proExpiresAt := Put(Some(proExpiresAt)), dailyAiQuestions := Put(Some(0)))
  }

  /** After an upgrade the user is Pro with a zero count and the given expiry,
      every other field is as before (or the default, for a new record), and
      every later check allows an unlimited number of questions. */
  lemma UpgradeMakesUnlimited(existing: Option<UserSettings>, id: int, userId: UserId, expiresAt: int, now: int)
    requires existing.Some? ==> existing.value.userId == userId
    ensures var r := Upsert(existing, id, userId, UpgradePatch(expiresAt));
      && IsPro(r) && r.dailyAiQuestions == Some(0) && r.proExpiresAt == Some(expiresAt)
      && (existing.Some? ==> r == existing.value.(isPro := Some(true), proExpiresAt := Some(expiresAt), dailyAiQuestions := Some(0)))
      && (existing.None? ==> r == DefaultSettings(id, userId).(isPro := Some(true), proExpiresAt := Some(expiresAt)))
      && Status(Some(r), now) == AiStatus(true, -1)
  {
  }
}
