/** The canned Pro coach of the standalone page script `03_script.js`: a
    lower-cased substring test picks one of four fixed answers. */
module ProChat {
  import opened Text

  const PostWorkoutReply: string :=
    "As a Pro member, here's the perfect post-workout"
    + " meal: Try a protein smoothie with Greek"
    + " yogurt, banana, and spinach within 30 minutes."
    + " Follow with grilled chicken and sweet potato"
    + " within 2 hours. Aim for 3:1 carb to protein"
    + " ratio for optimal recovery!"

  const MuscleReply: string :=
    "Building muscle as a Pro member: Focus on"
    + " progressive overload with your premium workouts,"
    + " eat 1g protein per lb bodyweight (use your"
    + " calorie tracker!), get 7-9 hours sleep,"
    + " and stay consistent. Your meal plans are"
    + " designed to support muscle growth perfectly!"

  const RecoveryReply: string :=
    "Pro recovery tips: Use your premium Zen Flow"
    + " Yoga sessions, prioritize sleep, stay hydrated,"
    + " and eat anti-inflammatory foods from your"
    + " meal plans. Consider adding magnesium supplements"
    + " and foam rolling. Recovery is where the"
    + " magic happens!"

  const DefaultReply: string :=
    "Great question! As your Pro AI coach, I recommend"
    + " checking your personalized meal plans and"
    + " premium workout library. Every Pro member"
    + " gets customized advice based on their goals."
    + " What specific area would you like to focus"
    + " on today?"

  /** The keys of `aiResponses` ("post-workout", "muscle", "recovery" and
      "default"), one constructor each. */
  datatype Topic = PostWorkout | Muscle | Recovery | Default

  /** `aiResponses`: the fixed answer under each key. */
  function AiResponse(topic: Topic): string {
    match topic
    case PostWorkout => PostWorkoutReply
    case Muscle => MuscleReply
    case Recovery => RecoveryReply
    case Default => DefaultReply
  }

  /** The key `getAIResponse` answers under: the first group with a keyword
      in the lower-cased message decides, and a message with none gets the
      default. */
  function ResponseTopic(message: string): (topic: Topic)
    ensures var m := ToLower(message);
      && (topic == PostWorkout <==> Contains(m, "post-workout") || Contains(m, "meal"))
      && (topic == Muscle <==>
            !Contains(m, "post-workout") && !Contains(m, "meal") && (Contains(m, "muscle") || Contains(m, "build")))
      && (topic == Recovery <==>
            !Contains(m, "post-workout") && !Contains(m, "meal") && !Contains(m, "muscle") && !Contains(m, "build")
            && (Contains(m, "recovery") || Contains(m, "rest")))
  {
    var lowerMessage := ToLower(message);
    if Contains(lowerMessage, "post-workout") || Contains(lowerMessage, "meal") then PostWorkout
    else if Contains(lowerMessage, "muscle") || Contains(lowerMessage, "build") then Muscle
    else if Contains(lowerMessage, "recovery") || Contains(lowerMessage, "rest") then Recovery
    else Default
  }

  /** `getAIResponse`: the answer stored under the message's key, which is
      never empty. */
  function GetAIResponse(message: string): (reply: string)
    ensures reply != ""
    ensures reply in [PostWorkoutReply, MuscleReply, RecoveryReply, DefaultReply]
  {
    AiResponse(ResponseTopic(message))
  }

  /** The answer ignores letter case. */
  lemma ResponseIgnoresCase(message: string)
    ensures ResponseTopic(ToLower(message)) == ResponseTopic(message)
  {
    ToLowerIdempotent(message);
  }

  /** Muscle-building questions outrank recovery questions: a message that
      names neither a meal nor "post-workout" but says "muscle" gets the
      muscle answer even when it also says "recovery". */
  lemma MuscleBeforeRecovery(message: string)
    requires !Contains(ToLower(message), "post-workout") && !Contains(ToLower(message), "meal")
    requires Contains(ToLower(message), "muscle")
    ensures ResponseTopic(message) == Muscle
  {
  }

  /** The match is on plain substrings: "rest" inside another word counts, so
      any message about interest that names none of the earlier keywords gets
      the recovery answer. */
  lemma InterestMeansRecovery(message: string)
    requires Contains(ToLower(message), "interest")
    requires !Contains(ToLower(message), "post-workout") && !Contains(ToLower(message), "meal")
    requires !Contains(ToLower(message), "muscle") && !Contains(ToLower(message), "build")
    ensures ResponseTopic(message) == Recovery
  {
    assert OccursAt("interest", "rest", 4);
    ContainsInner(ToLower(message), "interest", "rest", 4);
  }

  /** The single word "interest" is such a message. */
  lemma InterestExample(message: string)
    requires message == "interest"
    ensures ResponseTopic(message) == Recovery
  {
    var lowerMessage := ToLower(message);
    assert lowerMessage == message by {
      forall i | 0 <= i < |message|
        ensures lowerMessage[i] == message[i]
      {
        assert LowerChar(message[i]) == message[i];
      }
    }
    ContainsAt(message, "interest", 0);
    assert !Contains(message, "post-workout");
    assert !Contains(message, "meal") by {
      forall i | 0 <= i <= |message| - 4
        ensures !OccursAt(message, "meal", i)
      {
        FirstCharMismatch(message, "meal", i);
      }
    }
    assert !Contains(message, "muscle") by {
      forall i | 0 <= i <= |message| - 6
        ensures !OccursAt(message, "muscle", i)
      {
        FirstCharMismatch(message, "muscle", i);
      }
    }
    assert !Contains(message, "build") by {
      forall i | 0 <= i <= |message| - 5
        ensures !OccursAt(message, "build", i)
      {
        FirstCharMismatch(message, "build", i);
      }
    }
    InterestMeansRecovery(message);
  }
}
