/**
 * The exercise generator page: generating a set of exercises, answering and checking them
 * one by one (with a local comparison when the check route fails), revealing solutions,
 * moving between exercises and the completion statistics.
 * Exercises are keyed by their `id` rendered as an object key.
 */
module ExerciseGenerator {
  import opened Wrappers
  import opened Json
  import opened Text
  import opened ApiCalls

  /** The result recorded for a checked exercise: the `correct` value as received, and the feedback line. */
  datatype CheckResult = CheckResult(correct: Option<JsonValue>, feedback: string)

  /** The request the check route receives. */
  datatype CheckRequest = CheckRequest(expected: string, student: string)

  const Praise := "Excellent work! \U{1F389}"
  const Retry := "Not quite right. Check the solution below."
  const NoExercises := "No exercises were generated. Please try again."
  const GenerationFailed := "Failed to generate exercises. Please try again."

  /** The result of one check: `correct` as given, with the feedback that matches its truthiness. */
  function ResultOf(correct: Option<JsonValue>): (r: CheckResult)
    ensures r.correct == correct
    ensures r.feedback == Praise <==> Present(correct)
  {
    CheckResult(correct, if Present(correct) then Praise else Retry)
  }

  /** `userAnswers[id] || ''`. */
  function GivenAnswer(userAnswers: map<string, string>, id: string): string {
    if id in userAnswers then userAnswers[id] else ""
  }

  /** The `correct` value recorded for a check: the route's answer, or when the route fails the
      case-insensitive comparison of the trimmed answers. */
  function Verdict(reply: CallOutcome, expected: string, given: string): (c: Option<JsonValue>)
    ensures Usable(reply) ==> c == Get(reply.data, "correct")
    ensures !Usable(reply) ==> c == Some(JBool(AnswersMatch(expected, given)))
  {
    if Usable(reply) then Get(reply.data, "correct") else Some(JBool(Trim(Lower(expected)) == Trim(Lower(given))))
  }

  /** The solutions shown after a check: an incorrect verdict reveals the exercise's solution. */
  function Revealed(showSolutions: map<string, bool>, id: string, correct: Option<JsonValue>): (r: map<string, bool>)
    ensures !Present(correct) ==> Shown(r, id)
    ensures forall k :: k in showSolutions && k != id ==> k in r && r[k] == showSolutions[k]
    ensures Present(correct) ==> r == showSolutions
  {
    if Present(correct) then showSolutions else showSolutions[id := true]
  }

  /** Completion statistics: exercises, checked exercises, and those checked correct. */
  datatype Stats = Stats(total: nat, answered: nat, correct: nat)

  /** `getCompletionStats`. */
  function CompletionStats(exercises: seq<JsonValue>, results: map<string, CheckResult>): (s: Stats)
    ensures s.total == |exercises| && s.answered == |results|
    ensures s.correct <= s.answered
    ensures s.correct == s.answered <==> forall k :: k in results ==> Present(results[k].correct)
  {
    var right := set k | k in results && Present(results[k].correct);
    assert right <= results.Keys;
    SubsetCardinality(right, results.Keys);
    Stats(|exercises|, |results|, |right|)
  }

  /** A subset is no larger than the set, and as large only when the two are equal. */
  lemma {:induction false} SubsetCardinality<T>(a: set<T>, b: set<T>)
    requires a <= b
    ensures |a| <= |b|
    ensures |a| == |b| <==> a == b
  {
    if a != b {
      assert !(b <= a);
      var x :| x in b && x !in a;
      assert a <= b - {x};
      SubsetCardinalityLe(a, b - {x});
    }
  }

  lemma SubsetCardinalityLe<T>(a: set<T>, b: set<T>)
    requires a <= b
    ensures |a| <= |b|
  {
    assert b == a + (b - a);
  }

  /** Whether the solution of `id` shows: `showSolutions[id]` is truthy. */
  predicate Shown(showSolutions: map<string, bool>, id: string) {
    id in showSolutions && showSolutions[id]
  }

  /** `{ ...prev, [id]: !prev[id] }`: an absent entry reads as `undefined`, so it becomes `true`. */
  function Toggled(showSolutions: map<string, bool>, id: string): (r: map<string, bool>)
    ensures r.Keys == showSolutions.Keys + {id}
    ensures Shown(r, id) <==> !Shown(showSolutions, id)
    ensures forall k :: k in showSolutions && k != id ==> r[k] == showSolutions[k]
  {
    showSolutions[id := !Shown(showSolutions, id)]
  }

  /** Toggling twice restores a present entry exactly, and an absent one as `false`, which shows the same. */
  lemma ToggleTwice(showSolutions: map<string, bool>, id: string)
    ensures id in showSolutions ==> Toggled(Toggled(showSolutions, id), id) == showSolutions
    ensures id !in showSolutions ==> Toggled(Toggled(showSolutions, id), id) == showSolutions[id := false]
    ensures forall k :: Shown(Toggled(Toggled(showSolutions, id), id), k) <==> Shown(showSolutions, k)
  {
  }

  /** `list && list.length > 0` for a list the reply may leave out. */
  predicate NonEmptyList(list: Option<JsonValue>) {
    list.Some? && list.value.JArr? && |list.value.items| > 0
  }

  /** What a generation call leaves on the page: the exercises shown and the error line. */
  datatype Generated = Generated(exercises: seq<JsonValue>, error: JsonValue)

  /** The outcome of the generation call: a non-empty `exercises` list, else a present single
      `exercise`, else the no-exercises message; a failed call shows the route's `error` or the
      generic message. The page shows exercises exactly when it shows no error. */
  function Generation(reply: CallOutcome): (g: Generated)
    ensures Usable(reply) && NonEmptyList(Get(reply.data, "exercises"))
            ==> g == Generated(Get(reply.data, "exercises").value.items, JStr(""))
    ensures Usable(reply) && !NonEmptyList(Get(reply.data, "exercises")) && Present(Get(reply.data, "exercise"))
            ==> g == Generated([Get(reply.data, "exercise").value], JStr(""))
    ensures Usable(reply) && !NonEmptyList(Get(reply.data, "exercises")) && !Present(Get(reply.data, "exercise"))
            ==> g == Generated([], JStr(NoExercises))
    ensures g.exercises == [] <==> Truthy(g.error)
    ensures !Usable(reply) ==> g == Generated([], Or(GetIn(FailureData(reply), "error"), JStr(GenerationFailed)))
  {
    if Usable(reply) then
      var list := Get(reply.data, "exercises");
      var single := Get(reply.data, "exercise");
      if NonEmptyList(list) then Generated(list.value.items, JStr(""))
      else if Present(single) then Generated([single.value], JStr(""))
      else Generated([], JStr(NoExercises))
    else
      Generated([], Or(GetIn(FailureData(reply), "error"), JStr(GenerationFailed)))
  }

  class GeneratorPage {
    var selectedSubject: string
    var difficulty: string
    var questionCount: int
    var loading: bool
    var error: JsonValue
    var exercises: seq<JsonValue>
    var currentIndex: int
    var userAnswers: map<string, string>
    var results: map<string, CheckResult>
    var showSolutions: map<string, bool>

    /** The current index names an exercise, or is 0 when there are none. */
    predicate Valid()
      reads this
    {
      0 <= currentIndex && (currentIndex < |exercises| || currentIndex == 0)
    }

    constructor ()
      ensures Valid()
      ensures selectedSubject == "Mathematics" && difficulty == "medium" && questionCount == 1
      ensures !loading && error == JStr("") && exercises == [] && currentIndex == 0
      ensures userAnswers == map[] && results == map[] && showSolutions == map[]
    {
      selectedSubject, difficulty, questionCount := "Mathematics", "medium", 1;
      loading, error := false, JStr("");
      exercises, currentIndex := [], 0;
      userAnswers, results, showSolutions := map[], map[], map[];
    }

    /** `generateExercises`. `reply` is the outcome of the generation call. */
    method GenerateExercises(reply: CallOutcome) returns (requested: bool)
      requires Valid()
      modifies this
      ensures Valid()
      ensures requested <==> old(selectedSubject) != ""
      ensures !requested ==>
        && error == JStr("Please select a subject")
        && exercises == old(exercises) && currentIndex == old(currentIndex) && loading == old(loading)
        && userAnswers == old(userAnswers) && results == old(results) && showSolutions == old(showSolutions)
      ensures requested ==>
        && currentIndex == 0 && userAnswers == map[] && results == map[] && showSolutions == map[]
        && !loading
        && Generated(exercises, error) == Generation(reply)
      ensures selectedSubject == old(selectedSubject) && difficulty == old(difficulty) && questionCount == old(questionCount)
    {
      if selectedSubject == "" {
        error := JStr("Please select a subject");
        return false;
      }
      requested := true;
      loading := true;
      error := JStr("");
      exercises := [];
      currentIndex := 0;
      userAnswers := map[];
      results := map[];
      showSolutions := map[];
      var generated := Generation(reply);
      exercises, error := generated.exercises, generated.error;
      loading := false;
    }

    /** `handleAnswerChange`. */
    method HandleAnswerChange(id: string, answer: string)
      requires Valid()
      modifies this
      ensures Valid()
      ensures userAnswers == old(userAnswers)[id := answer]
      ensures exercises == old(exercises) && currentIndex == old(currentIndex) && results == old(results)
      ensures showSolutions == old(showSolutions) && error == old(error) && loading == old(loading)
    {
      userAnswers := userAnswers[id := answer];
    }

    /** `checkAnswer` for the exercise keyed `id` whose expected answer is `answer`. `reply` is the
        outcome of the check call; when it fails the answers are compared locally. */
    method CheckAnswer(id: string, answer: string, reply: CallOutcome) returns (request: Option<CheckRequest>)
      requires Valid()
      modifies this
      ensures Valid()
      ensures userAnswers == old(userAnswers)
      ensures request.None? <==> IsBlank(GivenAnswer(userAnswers, id))
      ensures request.None? ==>
        && error == JStr("Please enter your answer")
        && results == old(results) && showSolutions == old(showSolutions)
      ensures request.Some? ==>
        && request.value == CheckRequest(answer, Trim(GivenAnswer(userAnswers, id)))
        && error == JStr("")
        && results == old(results)[id := ResultOf(Verdict(reply, answer, GivenAnswer(userAnswers, id)))]
        && showSolutions == Revealed(old(showSolutions), id, Verdict(reply, answer, GivenAnswer(userAnswers, id)))
      ensures exercises == old(exercises) && currentIndex == old(currentIndex) && loading == old(loading)
    {
      var given := GivenAnswer(userAnswers, id);
      if IsBlank(given) {
        SetError(JStr("Please enter your answer"));
        return None;
      }
      var verdict := Verdict(reply, answer, given);
      SetError(JStr(""));
      request := Some(CheckRequest(answer, Trim(given)));
      Record(id, verdict);
    }

    /** `setError`: shows `e` and changes nothing else. */
    method SetError(e: JsonValue)
      requires Valid()
      modifies this
      ensures Valid() && error == e
      ensures exercises == old(exercises) && currentIndex == old(currentIndex) && userAnswers == old(userAnswers)
      ensures results == old(results) && showSolutions == old(showSolutions) && loading == old(loading)
      ensures selectedSubject == old(selectedSubject) && difficulty == old(difficulty) && questionCount == old(questionCount)
    {
      error := e;
    }

    /** Records the result of a check and reveals the solution of an incorrect answer. */
    method Record(id: string, correct: Option<JsonValue>)
      requires Valid()
      modifies this
      ensures Valid()
      ensures results == old(results)[id := ResultOf(correct)]
      ensures showSolutions == Revealed(old(showSolutions), id, correct)
      ensures exercises == old(exercises) && currentIndex == old(currentIndex) && userAnswers == old(userAnswers)
      ensures error == old(error) && loading == old(loading)
    {
      results := results[id := ResultOf(correct)];
      if !Present(correct) {
        showSolutions := showSolutions[id := true];
      }
    }

    /** `toggleSolution`. */
    method ToggleSolution(id: string)
      requires Valid()
      modifies this
      ensures Valid()
      ensures showSolutions == Toggled(old(showSolutions), id)
      ensures exercises == old(exercises) && currentIndex == old(currentIndex) && userAnswers == old(userAnswers)
      ensures results == old(results) && error == old(error) && loading == old(loading)
    {
      showSolutions := showSolutions[id := !(id in showSolutions && showSolutions[id])];
    }

    /** `navigateExercise`: one step back or forward, never past either end. */
    method NavigateExercise(direction: string)
      requires Valid()
      modifies this
      ensures Valid()
      ensures direction == "prev" && old(currentIndex) > 0 ==> currentIndex == old(currentIndex) - 1
      ensures direction == "next" && old(currentIndex) < |exercises| - 1 ==> currentIndex == old(currentIndex) + 1
      ensures direction == "prev" && old(currentIndex) == 0 ==> currentIndex == 0
      ensures direction == "next" && old(currentIndex) >= |exercises| - 1 ==> currentIndex == old(currentIndex)
      ensures direction != "prev" && direction != "next" ==> currentIndex == old(currentIndex)
      ensures exercises == old(exercises) && userAnswers == old(userAnswers) && results == old(results)
      ensures showSolutions == old(showSolutions) && error == old(error) && loading == old(loading)
    {
      if direction == "prev" && currentIndex > 0 {
        currentIndex := currentIndex - 1;
      } else if direction == "next" && currentIndex < |exercises| - 1 {
        currentIndex := currentIndex + 1;
      }
    }

    /** `resetAll`. */
    method ResetAll()
      requires Valid()
      modifies this
      ensures Valid()
      ensures exercises == [] && currentIndex == 0 && userAnswers == map[] && results == map[]
      ensures showSolutions == map[] && error == JStr("")
      ensures CompletionStats(exercises, results) == Stats(0, 0, 0)
      ensures loading == old(loading) && selectedSubject == old(selectedSubject)
    {
      exercises := [];
      currentIndex := 0;
      userAnswers := map[];
      results := map[];
      showSolutions := map[];
      error := JStr("");
    }
  }
}
