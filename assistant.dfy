/** The AI assistant of `server/openai.ts` without the language-model call:
    the keyword classifier that picks a canned answer, the table of canned
    answers, and how `askZenAI` falls back on it. */
module Assistant {
  import opened Common
  import opened Text

  const BreakfastReply: string :=
    "For a high-protein breakfast, try Greek yogurt"
    + " with berries and granola, or scrambled eggs"
    + " with spinach and whole grain toast. These"
    + " provide sustained energy and help with muscle"
    + " recovery. Aim for 20-25g of protein to kickstart"
    + " your metabolism!"

  const CaloriesReply: string :=
    "For someone who's 160lbs and lifting 3x/week,"
    + " aim for around 2,200-2,400 calories daily"
    + " for maintenance, or 2,000-2,200 for gradual"
    + " fat loss. Focus on 0.8-1g protein per lb"
    + " of body weight (128-160g daily). Adjust"
    + " based on your energy levels and progress!"

  const WorkoutReply: string :=
    "Here's a quick 20-minute core routine:\n\U{2022}"
    + " Plank holds (3x 30-60 seconds)\n\U{2022}"
    + " Russian twists (3x 20 reps)\n\U{2022} Mountain"
    + " climbers (3x 30 seconds)\n\U{2022} Dead"
    + " bugs (3x 10 each side)\n\U{2022} Bicycle"
    + " crunches (3x 15 each side)\nRest 30 seconds"
    + " between exercises. Focus on form over speed!"

  const RecoveryReply: string :=
    "Post-workout, eat within 30-60 minutes! Try"
    + " chocolate milk, protein shake with banana,"
    + " or grilled chicken with sweet potato. Aim"
    + " for 3:1 or 4:1 carb-to-protein ratio to"
    + " replenish glycogen and support muscle repair."
    + " Don't forget to hydrate!"

  const MotivationReply: string :=
    "Rest days are growth days! Your muscles repair"
    + " and get stronger during recovery. Try light"
    + " activities like walking, yoga, or stretching."
    + " Remember: consistency beats intensity. Every"
    + " small step forward is progress worth celebrating!"

  const DefaultReply: string :=
    "Great question! As your fitness companion,"
    + " I recommend focusing on proper form, consistent"
    + " nutrition, and adequate rest. Every fitness"
    + " journey is unique - listen to your body"
    + " and celebrate small wins. For personalized"
    + " advice, consider consulting a fitness professional!"

  /** The keys of `fallbackResponses` ("breakfast", "calories", "workout",
      "recovery", "motivation" and "default"), one constructor each. */
  datatype ResponseKey = Breakfast | Calories | Workout | Recovery | Motivation | Default

  /** `fallbackResponses`: the canned answer under each key. */
  function FallbackResponse(key: ResponseKey): string {
    match key
    case Breakfast => BreakfastReply
    case Calories => CaloriesReply
    case Workout => WorkoutReply
    case Recovery => RecoveryReply
    case Motivation => MotivationReply
    case Default => DefaultReply
  }

  /** Some keyword of the list occurs in `s`. */
  predicate ContainsAny(s: string, keywords: seq<string>) {
    exists i :: 0 <= i < |keywords| && Contains(s, keywords[i])
  }

  /** The keyword groups tested by `getResponseKey`, in order. */
  const BreakfastWords: seq<string> := ["breakfast", "meal", "protein"]
  const CaloriesWords: seq<string> := ["calorie", "weight", "160", "lifting"]
  const WorkoutWords: seq<string> := ["workout", "exercise", "core", "20"]
  const RecoveryWords: seq<string> := ["recovery", "post-workout", "muscle"]
  const MotivationWords: seq<string> := ["motivation", "rest day", "stay motivated"]

  /** `getResponseKey`: the first group with a keyword in the lower-cased
      question decides; a question with none is answered by "default". */
  function GetResponseKey(question: string): (key: ResponseKey)
    ensures var q := ToLower(question);
      && (key == Breakfast <==> ContainsAny(q, BreakfastWords))
      && (key == Calories <==> !ContainsAny(q, BreakfastWords) && ContainsAny(q, CaloriesWords))
      && (key == Workout <==>
            !ContainsAny(q, BreakfastWords) && !ContainsAny(q, CaloriesWords) && ContainsAny(q, WorkoutWords))
      && (key == Recovery <==>
            !ContainsAny(q, BreakfastWords) && !ContainsAny(q, CaloriesWords) && !ContainsAny(q, WorkoutWords)
            && ContainsAny(q, RecoveryWords))
      && (key == Default <==>
            !ContainsAny(q, BreakfastWords) && !ContainsAny(q, CaloriesWords) && !ContainsAny(q, WorkoutWords)
            && !ContainsAny(q, RecoveryWords) && !ContainsAny(q, MotivationWords))
  {
    var lowerQ := ToLower(question);
    if ContainsAny(lowerQ, BreakfastWords) then Breakfast
    else if ContainsAny(lowerQ, CaloriesWords) then Calories
    else if ContainsAny(lowerQ, WorkoutWords) then Workout
    else if ContainsAny(lowerQ, RecoveryWords) then Recovery
    else if ContainsAny(lowerQ, MotivationWords) then Motivation
    else Default
  }

  /** The classification ignores letter case. */
  lemma ResponseKeyIgnoresCase(question: string)
    ensures GetResponseKey(ToLower(question)) == GetResponseKey(question)
  {
    ToLowerIdempotent(question);
  }

  /** A question that contains "meal" gets the breakfast answer, whatever else
      it mentions. */
  lemma MealWins(question: string)
    requires Contains(ToLower(question), "meal")
    ensures GetResponseKey(question) == Breakfast
  {
    assert BreakfastWords[1] == "meal";
  }

  /** Whatever contains "post-workout" contains "workout". */
  lemma PostWorkoutContainsWorkout(s: string)
    ensures Contains(s, "post-workout") ==> Contains(s, "workout")
  {
    assert "post-workout"[5..12] == "workout";
    ContainsAt("post-workout", "workout", 5);
    if Contains(s, "post-workout") {
      ContainsTransitive(s, "post-workout", "workout");
    }
  }

  /** The "post-workout" test never decides: a question containing it also
      contains "workout" and is classified by an earlier group, so the
      recovery answer goes only to questions naming "recovery" or "muscle". */
  lemma PostWorkoutUnreachable(question: string)
    ensures Contains(ToLower(question), "post-workout") ==> GetResponseKey(question) != Recovery
    ensures GetResponseKey(question) == Recovery ==>
      Contains(ToLower(question), "recovery") || Contains(ToLower(question), "muscle")
  {
    PostWorkoutContainsWorkout(ToLower(question));
    assert WorkoutWords[0] == "workout";
    assert RecoveryWords == ["recovery", "post-workout", "muscle"];
  }

  /** A question from the chat's sample list that asks about recovery gets
      the breakfast answer, because it also says "meal". */
  lemma PostWorkoutMealExample(q: string)
    requires q == "Best post-workout meal for muscle recovery?"
    ensures GetResponseKey(q) == Breakfast
  {
    var lowerQ := ToLower(q);
    assert lowerQ[18] == LowerChar(q[18]) == 'm';
    assert lowerQ[19] == LowerChar(q[19]) == 'e';
    assert lowerQ[20] == LowerChar(q[20]) == 'a';
    assert lowerQ[21] == LowerChar(q[21]) == 'l';
    assert lowerQ[18..22] == "meal";
    ContainsAt(lowerQ, "meal", 18);
    MealWins(q);
  }

  /** What the provider gave back: nothing usable (the request threw), or the
      first choice's content, which may be null. */
  datatype ProviderReply = Failed | Replied(content: Option<string>)

  /** `askZenAI`: the provider's non-empty content, and otherwise the canned
      answer for the question; the answer is never empty. */
  function AskZenAI(question: string, reply: ProviderReply): (answer: string)
    ensures answer != ""
    ensures reply.Replied? && reply.content.Some? && reply.content.value != "" ==> answer == reply.content.value
    ensures !(reply.Replied? && reply.content.Some? && reply.content.value != "") ==>
      answer == FallbackResponse(GetResponseKey(question))
  {
    match reply
    case Replied(Some(content)) =>
      if content != "" then content else FallbackResponse(GetResponseKey(question))
    case _ => FallbackResponse(GetResponseKey(question))
  }
}
