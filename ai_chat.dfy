/** The "Ask Zen" chat of `ai-chat.tsx`: when a question may be sent, what
    sending and answering append to the conversation, and which errors open
    the upgrade dialog. */
module AiChat {
  import opened Common
  import opened Text
  import Schema
  import Quota
  import Routes

  /** The questions the empty chat suggests. */
  const SampleQuestions: seq<string> := [
    "What's a good high-protein breakfast?",
    "How many calories should I eat if I'm 160lbs and lifting 3x/week?",
    "What's a quick 20-minute core workout?",
    "Best post-workout meal for muscle recovery?",
    "How to stay motivated on rest days?"
  ]

  /** `sampleQuestions.slice(0, 3)`: the ones actually shown. */
  function OfferedQuestions(): (q: seq<string>)
    ensures |q| == 3
    ensures forall i :: 0 <= i < |q| ==> q[i] == SampleQuestions[i]
  {
    SampleQuestions[..3]
  }

  /** The last two samples are never offered. */
  lemma LastSamplesNotOffered()
    ensures SampleQuestions[3] !in OfferedQuestions() && SampleQuestions[4] !in OfferedQuestions()
  {
    var q := OfferedQuestions();
    var s := SampleQuestions;
    assert q[0] == s[0] && q[1] == s[1] && q[2] == s[2];
    // The samples differ in the letter before the final question mark.
    assert s[0][|s[0]| - 2] == 't' && s[1][|s[1]| - 2] == 'k' && s[2][|s[2]| - 2] == 't';
    assert s[3][|s[3]| - 2] == 'y' && s[4][|s[4]| - 2] == 's';
  }

  /** `!isPro && aiStatus && !aiStatus.canAsk`: a free user whose quota check
      has come back refused. A status still loading never blocks. */
  predicate Blocked(isPro: bool, status: Option<Quota.AiStatus>)
    ensures isPro ==> !Blocked(isPro, status)
    ensures status.None? ==> !Blocked(isPro, status)
    ensures status.Some? && status.value.canAsk ==> !Blocked(isPro, status)
  {
    !isPro && status.Some? && !status.value.canAsk
  }

  /** The client blocks a free user exactly when the server's own check of
      the same record would refuse, and never blocks a Pro user. */
  lemma BlockedMatchesServer(settings: Option<Schema.UserSettings>, now: int)
    ensures Blocked(false, Some(Quota.Status(settings, now))) <==>
      !(settings.Some? && (Quota.IsPro(settings.value) || Quota.IsNewDay(settings.value, now) ||
        Quota.QuestionsUsed(settings.value) < Quota.DailyLimit))
    ensures !Blocked(true, Some(Quota.Status(settings, now)))
  {
  }

  /** The text the upgrade dialog is opened on. */
  const LimitPhrase: string := "limit reached"

  /** The server's 403 text contains the phrase the client looks for, so
      an error that carries it opens the upgrade dialog. */
  lemma LimitMessageOpensUpgrade(errorMessage: string)
    requires Contains(errorMessage, Routes.LimitMessage)
    ensures Contains(errorMessage, LimitPhrase)
  {
    var m := Routes.LimitMessage;
    var head := "Daily AI question ";
    assert m == head + LimitPhrase + ". Upgrade to ZenGym Pro for unlimited access!";
    assert m[|head|..|head| + |LimitPhrase|] == LimitPhrase;
    ContainsAt(m, LimitPhrase, |head|);
    ContainsTransitive(errorMessage, m, LimitPhrase);
  }

  datatype Sender = User | Ai

  /** A `ChatMessage` without its id and timestamp. */
  datatype ChatMessage = ChatMessage(sender: Sender, content: string)

  /** The state of the chat component that its handlers change. */
  class Chat {
    var messages: seq<ChatMessage>
    var input: string
    var showUpgrade: bool
    /** The questions handed to the ask mutation, in order. */
    var asked: seq<string>

    constructor ()
      ensures messages == [] && input == "" && !showUpgrade && asked == []
    {
      messages := [];
      input := "";
      showUpgrade := false;
      asked := [];
    }

    /** Typing in the input. */
    method SetInput(value: string)
      modifies this
      ensures input == value
      ensures messages == old(messages) && showUpgrade == old(showUpgrade) && asked == old(asked)
    {
      input := value;
    }

    /** `handleSendMessage`: a blank input does nothing; a blocked user only
        gets the upgrade dialog; otherwise the trimmed input is added as the
        user's message, asked, and the input is cleared. */
    method HandleSendMessage(isPro: bool, status: Option<Quota.AiStatus>)
      modifies this
      ensures Trim(old(input)) == [] ==>
        messages == old(messages) && input == old(input) && showUpgrade == old(showUpgrade) && asked == old(asked)
      ensures Trim(old(input)) != [] && Blocked(isPro, status) ==>
        showUpgrade && messages == old(messages) && input == old(input) && asked == old(asked)
      ensures Trim(old(input)) != [] && !Blocked(isPro, status) ==>
        && messages == old(messages) + [ChatMessage(User, Trim(old(input)))]
        && asked == old(asked) + [Trim(old(input))]
        && input == "" && showUpgrade == old(showUpgrade)
    {
      var question := Trim(input);
      if question == [] {
        return;
      }
      if Blocked(isPro, status) {
        showUpgrade := true;
        return;
      }
      messages := messages + [ChatMessage(User, question)];
      asked := asked + [question];
      input := "";
    }

    /** `handleSampleQuestion`: a blocked user gets the upgrade dialog;
        anyone else gets the question in the input, not yet sent. */
    method HandleSampleQuestion(question: string, isPro: bool, status: Option<Quota.AiStatus>)
      modifies this
      ensures Blocked(isPro, status) ==> showUpgrade && input == old(input)
      ensures !Blocked(isPro, status) ==> input == question && showUpgrade == old(showUpgrade)
      ensures messages == old(messages) && asked == old(asked)
    {
      if Blocked(isPro, status) {
        showUpgrade := true;
        return;
      }
      input := question;
    }

    /** The ask mutation's `onSuccess`: the answer is added after the
        existing messages. */
    method OnAskSuccess(answer: string)
      modifies this
      ensures messages == old(messages) + [ChatMessage(Ai, answer)]
      ensures input == old(input) && showUpgrade == old(showUpgrade) && asked == old(asked)
    {
      messages := messages + [ChatMessage(Ai, answer)];
    }

    /** The ask mutation's `onError`: apart from an authentication failure,
        which leads away from the page, an error whose message mentions the
        limit opens the upgrade dialog and any other only shows a toast. */
    method OnAskError(unauthorized: bool, errorMessage: Option<string>)
      modifies this
      ensures showUpgrade == (old(showUpgrade) ||
        (!unauthorized && errorMessage.Some? && Contains(errorMessage.value, LimitPhrase)))
      ensures messages == old(messages) && input == old(input) && asked == old(asked)
    {
      if unauthorized {
        return;
      }
      if errorMessage.Some? && Contains(errorMessage.value, LimitPhrase) {
        showUpgrade := true;
      }
    }
  }

  /** A sent message is never blank and carries no surrounding white space. */
  lemma SentMessageIsTrimmed(input: string)
    requires Trim(input) != []
    ensures Trim(Trim(input)) == Trim(input)
    ensures !IsSpace(Trim(input)[0]) && !IsSpace(Trim(input)[|Trim(input)| - 1])
  {
    TrimIdempotent(input);
  }
}
