/**
 * The decision logic of the AI routes of the backend: input validation, the question
 * count clamp, the fallback chains of exercise generation and answer checking, the
 * default subjects, the mapping of gateway errors to HTTP responses and the status of
 * the health route.
 *
 * Each handler receives the outcome of the gateway call it makes (as a `CallResult`)
 * and returns the HTTP response together with the gateway requests it issued.
 */
module AIRoutes {
  import opened Wrappers
  import opened Json
  import opened Text
  import opened AIServiceClient

  datatype HttpResponse = HttpResponse(status: int, body: JsonValue)

  function Reply(status: int, fields: map<string, JsonValue>): HttpResponse {
    HttpResponse(status, JObj(fields))
  }

  function Message(status: int, message: string): HttpResponse {
    Reply(status, map["message" := JStr(message)])
  }

  /** A field of a response body, undefined when absent. */
  function Field(r: HttpResponse, name: string): Option<JsonValue> {
    Get(r.body, name)
  }

  /** A gateway request: the operation and the payload it sends. */
  datatype AIRequest = AIRequest(op: Operation, data: JsonValue)

  /** A handled request: the response sent and the gateway requests made, in order. */
  datatype Handled = Handled(response: HttpResponse, calls: seq<AIRequest>)

  /** Something thrown inside a handler: a gateway error or a JavaScript error. */
  datatype RouteError = Service(error: AIServiceError) | Native(message: string)

  /** The error thrown when a handler reads a property of a `null` response body. */
  function NullRead(prop: string): RouteError {
    Native("Cannot read properties of null (reading '" + prop + "')")
  }

  /** The gateway call delivered a usable body (not `null`). */
  predicate Succeeded(r: CallResult) {
    r.Ok? && !r.data.JNull?
  }

  function CodeName(code: ErrorCode): string {
    match code
    case InvalidService => "INVALID_SERVICE"
    case ServiceUnavailable => "SERVICE_UNAVAILABLE"
    case Timeout => "TIMEOUT"
    case NetworkError => "NETWORK_ERROR"
    case ServiceError => "SERVICE_ERROR"
    case Unknown => "UNKNOWN"
  }

  /** `handleAIError`: a gateway error answers with its own status code, message and code;
      any other error with 500 and its message (or a generic one). */
  function HandleAIError(err: RouteError): (r: HttpResponse)
    ensures err.Service? ==> r.status == err.error.statusCode
    ensures err.Native? ==> r.status == 500
    ensures Field(r, "message") == Some(JStr(if err.Service? then err.error.message
                                            else if err.message != "" then err.message
                                            else "AI service error"))
    ensures Field(r, "code").Some? <==> err.Service?
    ensures err.Service? ==> Field(r, "code") == Some(JStr(CodeName(err.error.code)))
  {
    match err
    case Service(e) => Reply(e.statusCode, map["message" := JStr(e.message), "code" := JStr(CodeName(e.code))])
    case Native(m) => Message(500, if m != "" then m else "AI service error")
  }

  /** A gateway failure reaches the client with the status the normalizer chose:
      503 for an unreachable service, 504 for a timeout, the upstream status otherwise. */
  lemma GatewayFailureStatus(t: TransportError, service: string)
    ensures var e := Normalize(Transport(t), service);
      var r := HandleAIError(Service(e));
      && (t.code == "ECONNREFUSED" ==> r.status == 503)
      && (t.code in {"ECONNABORTED", "ETIMEDOUT"} ==> r.status == 504)
      && (t.code in {"ENOTFOUND", "EAI_AGAIN"} ==> r.status == 503)
      && (e.code == ServiceError ==> r.status == t.response.value.status)
      && (e.code == Unknown ==> r.status == 500)
      && Field(r, "code") == Some(JStr(CodeName(e.code)))
  {
    NormalizeTable(t, service);
  }

  // ---------------------------------------------------------------------------
  // Exercise generation
  // ---------------------------------------------------------------------------

  /** `Math.min(Math.max(parseInt(count) || 1, 1), 10)`, given `parseInt(count)` (None for NaN). */
  function QuestionCount(parsed: Option<int>): (n: int)
    ensures 1 <= n <= 10
    ensures parsed.None? || parsed.value < 1 ==> n == 1
    ensures parsed.Some? && 1 <= parsed.value <= 10 ==> n == parsed.value
    ensures parsed.Some? && parsed.value > 10 ==> n == 10
  {
    var requested := if parsed.Some? && parsed.value != 0 then parsed.value else 1;
    var atLeastOne := if requested > 1 then requested else 1;
    if atLeastOne < 10 then atLeastOne else 10
  }

  /** The payload of the count-aware generation request. */
  function GeneratePayload(subject: Option<JsonValue>, topic: Option<JsonValue>,
                           difficulty: Option<JsonValue>, count: Option<int>): (p: JsonValue)
    ensures p.JObj? && "count" in p.fields && p.fields["count"].JNum?
    ensures 1 <= p.fields["count"].n <= 10
    ensures "subject" in p.fields <==> OrElse(subject, topic).Some?
    ensures "subject" in p.fields ==> p.fields["subject"] == OrElse(subject, topic).value
    ensures "difficulty" in p.fields
    ensures p.fields["difficulty"] == (if Present(difficulty) then difficulty.value else JStr("medium"))
  {
    JObj(With(map["difficulty" := Or(difficulty, JStr("medium")), "count" := JNum(QuestionCount(count))],
              "subject", OrElse(subject, topic)))
  }

  /** The payload of the legacy single-exercise request used as a fallback. */
  function LegacyPayload(subject: Option<JsonValue>, topic: Option<JsonValue>, difficulty: Option<JsonValue>): JsonValue {
    JObj(With(map["difficulty" := Or(difficulty, JStr("medium")),
                  "exerciseType" := JStr("problem-solving"),
                  "additionalContext" := JStr("")],
              "subject", OrElse(subject, topic)))
  }

  /** The error the generation route reports when both attempts fail: the first one's. */
  function PrimaryError(primary: CallResult): RouteError {
    if primary.Err? then Service(primary.error) else NullRead("total")
  }

  /** The answer built from the count-aware reply: its exercise list, else its single exercise
      wrapped in a list; its total, else 1. */
  function GeneratedReply(result: JsonValue, subject: Option<JsonValue>, topic: Option<JsonValue>,
                          difficulty: Option<JsonValue>): (r: HttpResponse)
    ensures r.status == 200
    ensures Field(r, "exercises") == Some(Or(Get(result, "exercises"), JArr([Get(result, "exercise").GetOr(JNull)])))
    ensures Field(r, "total") == Some(Or(Get(result, "total"), JNum(1)))
  {
    var fields := map["success" := JBool(true),
                      "exercises" := Or(Get(result, "exercises"), JArr([Get(result, "exercise").GetOr(JNull)])),
                      "total" := Or(Get(result, "total"), JNum(1)),
                      "difficulty" := Or(Get(result, "difficulty"), Or(difficulty, JStr("medium")))];
    Reply(200, With(fields, "subject", OrElse(Get(result, "subject"), OrElse(subject, topic))))
  }

  /** The answer built from the legacy reply: its one exercise as a list of one, total 1. */
  function LegacyReply(result: JsonValue, subject: Option<JsonValue>, topic: Option<JsonValue>,
                       difficulty: Option<JsonValue>): (r: HttpResponse)
    ensures r.status == 200
    ensures Field(r, "exercises") ==
              Some(if Present(Get(result, "exercise")) then JArr([Get(result, "exercise").value]) else JArr([]))
    ensures Field(r, "total") == Some(JNum(1))
  {
    var exercise := Get(result, "exercise");
    var fields := map["success" := JBool(true),
                      "exercises" := if Present(exercise) then JArr([exercise.value]) else JArr([]),
                      "total" := JNum(1),
                      "difficulty" := Or(difficulty, JStr("medium"))];
    Reply(200, With(fields, "subject", OrElse(subject, topic)))
  }

  /** `POST /exercise/generate`: the count-aware request, then the legacy endpoint as a fallback. */
  method ExerciseGenerate(subject: Option<JsonValue>, difficulty: Option<JsonValue>, topic: Option<JsonValue>,
                          count: Option<int>, primary: CallResult, legacy: CallResult)
    returns (h: Handled)
    ensures !Present(subject) && !Present(topic) ==>
              h == Handled(Message(400, "Subject or topic is required"), [])
    ensures Present(subject) || Present(topic) ==>
      && 1 <= |h.calls| <= 2
      && h.calls[0] == AIRequest(Request("exercise", "/generate", POST), GeneratePayload(subject, topic, difficulty, count))
      && (|h.calls| == 1 <==> Succeeded(primary))
      && (|h.calls| == 2 ==> h.calls[1] == AIRequest(GenerateExercise, LegacyPayload(subject, topic, difficulty)))
    ensures (Present(subject) || Present(topic)) && Succeeded(primary) ==>
      && h.response.status == 200
      && Field(h.response, "exercises") ==
           Some(Or(Get(primary.data, "exercises"), JArr([Get(primary.data, "exercise").GetOr(JNull)])))
      && Field(h.response, "total") == Some(Or(Get(primary.data, "total"), JNum(1)))
    ensures (Present(subject) || Present(topic)) && !Succeeded(primary) && Succeeded(legacy) ==>
      && h.response.status == 200
      && Field(h.response, "exercises") ==
           Some(if Present(Get(legacy.data, "exercise")) then JArr([Get(legacy.data, "exercise").value]) else JArr([]))
      && Field(h.response, "total") == Some(JNum(1))
    ensures (Present(subject) || Present(topic)) && !Succeeded(primary) && !Succeeded(legacy) ==>
      h.response == HandleAIError(PrimaryError(primary))
  {
    if !Present(subject) && !Present(topic) {
      return Handled(Message(400, "Subject or topic is required"), []);
    }
    var calls := [AIRequest(Request("exercise", "/generate", POST), GeneratePayload(subject, topic, difficulty, count))];
    if Succeeded(primary) {
      return Handled(GeneratedReply(primary.data, subject, topic, difficulty), calls);
    }
    var error := PrimaryError(primary);
    calls := calls + [AIRequest(GenerateExercise, LegacyPayload(subject, topic, difficulty))];
    if Succeeded(legacy) {
      return Handled(LegacyReply(legacy.data, subject, topic, difficulty), calls);
    }
    return Handled(HandleAIError(error), calls);
  }

  /** `POST /generate-exercise`: one legacy generation request with defaults filled in. */
  function GenerateExerciseRoute(subject: Option<JsonValue>, difficulty: Option<JsonValue>,
                                 exerciseType: Option<JsonValue>, additionalContext: Option<JsonValue>,
                                 outcome: CallResult): (h: Handled)
    ensures !Present(subject) <==> h.calls == []
    ensures !Present(subject) ==> h.response == Message(400, "Subject is required")
    ensures Present(subject) ==> h.calls == [AIRequest(GenerateExercise, JObj(map[
              "subject" := subject.value,
              "difficulty" := Or(difficulty, JStr("medium")),
              "exerciseType" := Or(exerciseType, JStr("multiple-choice")),
              "additionalContext" := Or(additionalContext, JStr(""))]))]
    ensures Present(subject) && outcome.Err? ==> h.response == HandleAIError(Service(outcome.error))
    ensures Present(subject) && Succeeded(outcome) ==>
              h.response.status == 200 && Field(h.response, "exercise") == Get(outcome.data, "exercise")
  {
    if !Present(subject) then Handled(Message(400, "Subject is required"), [])
    else
      var call := AIRequest(GenerateExercise, JObj(map[
                    "subject" := subject.value,
                    "difficulty" := Or(difficulty, JStr("medium")),
                    "exerciseType" := Or(exerciseType, JStr("multiple-choice")),
                    "additionalContext" := Or(additionalContext, JStr(""))]));
      var response :=
        match outcome
        case Err(e) => HandleAIError(Service(e))
        case Ok(result) =>
          if result.JNull? then HandleAIError(NullRead("exercise"))
          else Reply(200, With(map["success" := JBool(true),
                                   "retrievedDocs" := Or(Get(result, "retrievedDocs"), JNum(0))],
                               "exercise", Get(result, "exercise")));
      Handled(response, [call])
  }

  // ---------------------------------------------------------------------------
  // Subjects
  // ---------------------------------------------------------------------------

  const DefaultSubjects: seq<JsonValue> :=
    [JStr("Mathematics"), JStr("Algebra"), JStr("Calculus"), JStr("Statistics"), JStr("Trigonometry"), JStr("Geometry")]

  /** `GET /exercise/subjects`: always 200 with an array, the six defaults on failure or on
      anything that is not an array. */
  function ExerciseSubjectsRoute(outcome: CallResult): (r: HttpResponse)
    ensures r.status == 200
    ensures Field(r, "subjects").Some? && Field(r, "subjects").value.JArr?
    ensures outcome.Err? ==> Field(r, "subjects") == Some(JArr(DefaultSubjects)) && Field(r, "fromCache") == Some(JBool(true))
    ensures outcome.Ok? ==>
              Field(r, "subjects").value == JArr(DefaultSubjects)
              || Field(r, "subjects") == Get(outcome.data, "subjects")
              || Field(r, "subjects") == Some(outcome.data)
    ensures outcome.Ok? && Get(outcome.data, "subjects").Some? && Get(outcome.data, "subjects").value.JArr? ==>
              Field(r, "subjects") == Get(outcome.data, "subjects")
    ensures outcome.Ok? && outcome.data.JArr? ==> Field(r, "subjects") == Some(outcome.data)
    ensures outcome.Ok? && !outcome.data.JArr? && !outcome.data.JObj? ==> Field(r, "subjects") == Some(JArr(DefaultSubjects))
  {
    match outcome
    case Err(_) =>
      Reply(200, map["success" := JBool(true), "subjects" := JArr(DefaultSubjects), "fromCache" := JBool(true)])
    case Ok(result) =>
      var chosen := Or(OrElse(Get(result, "subjects"), Some(result)), JArr(DefaultSubjects));
      Reply(200, map["success" := JBool(true), "subjects" := if chosen.JArr? then chosen else JArr(DefaultSubjects)])
  }

  /** `GET /subjects`: the service's subjects, or 500 with an empty list. */
  function SubjectsRoute(outcome: CallResult): (r: HttpResponse)
    ensures r.status == 200 <==> Succeeded(outcome)
    ensures Succeeded(outcome) ==> Field(r, "subjects") == Get(outcome.data, "subjects")
    ensures !Succeeded(outcome) ==> r.status == 500 && Field(r, "subjects") == Some(JArr([]))
  {
    if Succeeded(outcome) then
      Reply(200, With(map["success" := JBool(true)], "subjects", Get(outcome.data, "subjects")))
    else
      Reply(500, map["message" := JStr("Failed to fetch subjects"), "subjects" := JArr([])])
  }

  // ---------------------------------------------------------------------------
  // Answer checking
  // ---------------------------------------------------------------------------

  /** `student || userAnswer`: the new field takes precedence. */
  function StudentAnswer(student: Option<JsonValue>, userAnswer: Option<JsonValue>): (r: Option<JsonValue>)
    ensures Present(student) ==> r == student
    ensures !Present(student) ==> r == userAnswer
    ensures Present(r) <==> Present(student) || Present(userAnswer)
  {
    OrElse(student, userAnswer)
  }

  /** `expected || correctAnswer || exercise?.answer`. */
  function ExpectedAnswer(expected: Option<JsonValue>, correctAnswer: Option<JsonValue>, exercise: Option<JsonValue>)
    : (r: Option<JsonValue>)
    ensures Present(expected) ==> r == expected
    ensures !Present(expected) && Present(correctAnswer) ==> r == correctAnswer
    ensures !Present(expected) && !Present(correctAnswer) ==> r == GetIn(exercise, "answer")
  {
    OrElse(expected, OrElse(correctAnswer, GetIn(exercise, "answer")))
  }

  /** The last tier: the answers, converted to strings, lower-cased and trimmed, are equal. */
  predicate ComparisonCorrect(expected: Option<JsonValue>, student: JsonValue) {
    AnswersMatch(ToJsString(Or(expected, JStr(""))), ToJsString(student))
  }

  /** For two string answers the comparison is `AnswersMatch`, so it is symmetric. */
  lemma ComparisonSymmetric(a: string, b: string)
    ensures ComparisonCorrect(Some(JStr(a)), JStr(b)) <==> AnswersMatch(a, b)
    ensures ComparisonCorrect(Some(JStr(a)), JStr(b)) <==> ComparisonCorrect(Some(JStr(b)), JStr(a))
  {
    assert Or(Some(JStr(a)), JStr("")) == JStr(a);
    assert Or(Some(JStr(b)), JStr("")) == JStr(b);
  }

  /** White space around the student's answer does not change the verdict. */
  lemma ComparisonIgnoresPadding(a: string, b: string, pad: string)
    requires AllSpace(pad)
    ensures ComparisonCorrect(Some(JStr(a)), JStr(pad + b + pad)) <==> ComparisonCorrect(Some(JStr(a)), JStr(b))
  {
    assert Or(Some(JStr(a)), JStr("")) == JStr(a);
    AnswersMatchIgnoresPadding(b, a, pad);
  }

  /** Case does not change the verdict: an answer matches its own lower-cased form. */
  lemma ComparisonIgnoresCase(a: string)
    ensures ComparisonCorrect(Some(JStr(a)), JStr(Lower(a)))
  {
    assert Or(Some(JStr(a)), JStr("")) == JStr(a);
    LowerIdempotent(a);
  }

  /** Without an expected answer the comparison is against `''`, so exactly the answers made
      of white space only are judged correct. */
  lemma ComparisonWithoutExpected(s: string)
    ensures ComparisonCorrect(None, JStr(s)) <==> AllSpace(s)
  {
    assert ToJsString(Or(None, JStr(""))) == "" && ToJsString(JStr(s)) == s;
    assert ComparisonCorrect(None, JStr(s)) == AnswersMatch("", s);
    assert Trim(Lower("")) == "";
    BlankIffAllSpace(Lower(s));
    LowerKeepsSpace(s);
  }

  /** The reply of the Python tier. */
  function PythonReply(result: JsonValue): (r: HttpResponse)
    ensures r.status == 200
    ensures Field(r, "correct") == Get(result, "correct")
    ensures Field(r, "expected") == Get(result, "expected") && Field(r, "student") == Get(result, "student")
    ensures Field(r, "feedback") ==
              Some(JStr(if Present(Get(result, "correct")) then "Correct! \U{1F389}" else "Not quite right."))
  {
    var fields := map["success" := JBool(true),
                      "feedback" := JStr(if Present(Get(result, "correct")) then "Correct! \U{1F389}" else "Not quite right.")];
    Reply(200, With(With(With(fields, "correct", Get(result, "correct")),
                         "expected", Get(result, "expected")),
                    "student", Get(result, "student")))
  }

  /** The reply of the AI tier: the verdict's fields, with the exercise's steps as a fallback. */
  function AIReply(verdict: JsonValue, exercise: Option<JsonValue>): (r: HttpResponse)
    ensures r.status == 200
    ensures Field(r, "correct") == Get(verdict, "correct")
    ensures Field(r, "feedback") == Get(verdict, "feedback")
    ensures Field(r, "steps") == Some(Or(Get(verdict, "steps"), Or(GetIn(exercise, "solution_steps"), JArr([]))))
  {
    var fields := map["success" := JBool(true),
                      "steps" := Or(Get(verdict, "steps"), Or(GetIn(exercise, "solution_steps"), JArr([])))];
    Reply(200, With(With(fields, "correct", Get(verdict, "correct")), "feedback", Get(verdict, "feedback")))
  }

  /** The reply of the comparison tier. */
  function ComparisonReply(correct: bool, exercise: Option<JsonValue>): (r: HttpResponse)
    ensures r.status == 200
    ensures Field(r, "correct") == Some(JBool(correct))
    ensures Field(r, "feedback") == Some(JStr(if correct then "Your answer is correct! Well done!"
                                              else "Your answer is not quite right. Review the solution below."))
  {
    Reply(200, map["success" := JBool(true),
                   "correct" := JBool(correct),
                   "feedback" := JStr(if correct then "Your answer is correct! Well done!"
                                      else "Your answer is not quite right. Review the solution below."),
                   "steps" := Or(GetIn(exercise, "solution_steps"), JArr([]))])
  }

  /** Which tier decided an answer check. */
  datatype Tier = Rejected | PythonCheck | AICheck | Comparison

  /** `POST /exercise/check`: the Python checker first, then an AI verdict when one could be
      parsed from the chat reply (`aiVerdict`), then the string comparison. */
  method CheckAnswer(exercise: Option<JsonValue>, userAnswer: Option<JsonValue>, correctAnswer: Option<JsonValue>,
                     expected: Option<JsonValue>, student: Option<JsonValue>,
                     python: CallResult, aiVerdict: Option<JsonValue>)
    returns (response: HttpResponse, tier: Tier)
    ensures var answer := StudentAnswer(student, userAnswer);
      && (tier == Rejected <==> !Present(answer))
      && (tier == PythonCheck <==> Present(answer) && Succeeded(python))
      && (tier == AICheck <==> Present(answer) && !Succeeded(python) && Present(aiVerdict))
    ensures tier == Rejected ==> response == Message(400, "Student answer is required")
    ensures tier == PythonCheck ==> response == PythonReply(python.data)
    ensures tier == AICheck ==> response == AIReply(aiVerdict.value, exercise)
    ensures tier == Comparison ==>
              response == ComparisonReply(ComparisonCorrect(ExpectedAnswer(expected, correctAnswer, exercise),
                                                            StudentAnswer(student, userAnswer).value), exercise)
  {
    var studentAnswer := StudentAnswer(student, userAnswer);
    var expectedAnswer := ExpectedAnswer(expected, correctAnswer, exercise);
    if !Present(studentAnswer) {
      return Message(400, "Student answer is required"), Rejected;
    }
    if Succeeded(python) {
      return PythonReply(python.data), PythonCheck;
    }
    var parsed: Option<JsonValue> := None;
    if aiVerdict.Some? {
      parsed := aiVerdict;
    }
    if Present(parsed) {
      return AIReply(parsed.value, exercise), AICheck;
    }
    var correct := ComparisonCorrect(expectedAnswer, studentAnswer.value);
    response, tier := ComparisonReply(correct, exercise), Comparison;
  }

  // ---------------------------------------------------------------------------
  // Chat, search and sentiment
  // ---------------------------------------------------------------------------

  /** `POST /chat`. The message is logged with `substring`, so a truthy non-string message
      throws before any request is made. */
  function ChatRoute(message: Option<JsonValue>, sessionId: Option<JsonValue>, history: Option<JsonValue>,
                     outcome: CallResult): (h: Handled)
    ensures !Present(message) ==> h == Handled(Message(400, "Message is required"), [])
    ensures Present(message) && !message.value.JStr? ==> h.calls == [] && h.response.status == 500
    ensures |h.calls| == 1 <==> Present(message) && message.value.JStr?
    ensures |h.calls| == 1 ==>
              && h.calls[0].op == Chat
              && h.calls[0].data == JObj(With(map["message" := message.value, "history" := Or(history, JArr([]))],
                                              "sessionId", sessionId))
    ensures |h.calls| == 1 && outcome.Err? ==> h.response == HandleAIError(Service(outcome.error))
    ensures |h.calls| == 1 && Succeeded(outcome) ==>
      h.response.status == 200 && Field(h.response, "sources") == Some(Or(Get(outcome.data, "sources"), JArr([])))
  {
    if !Present(message) then Handled(Message(400, "Message is required"), [])
    else if !message.value.JStr? then Handled(HandleAIError(Native("message.substring is not a function")), [])
    else
      var call := AIRequest(Chat, JObj(With(map["message" := message.value, "history" := Or(history, JArr([]))],
                                            "sessionId", sessionId)));
      var response :=
        match outcome
        case Err(e) => HandleAIError(Service(e))
        case Ok(result) =>
          if result.JNull? then HandleAIError(NullRead("response"))
          else Reply(200, With(map["success" := JBool(true), "sources" := Or(Get(result, "sources"), JArr([]))],
                               "response", Get(result, "response")));
      Handled(response, [call])
  }

  /** `POST /search`: any failure becomes a generic 500. */
  function SearchRoute(query: Option<JsonValue>, k: Option<JsonValue>, outcome: CallResult): (h: Handled)
    ensures !Present(query) ==> h == Handled(Message(400, "Query is required"), [])
    ensures Present(query) ==> h.calls == [AIRequest(Search, JObj(map["query" := query.value, "k" := Or(k, JNum(5))]))]
    ensures Present(query) && !Succeeded(outcome) ==> h.response == Message(500, "Search failed")
    ensures Present(query) && Succeeded(outcome) ==> h.response.status == 200
  {
    if !Present(query) then Handled(Message(400, "Query is required"), [])
    else
      var call := AIRequest(Search, JObj(map["query" := query.value, "k" := Or(k, JNum(5))]));
      if Succeeded(outcome) then
        var fields := With(With(map["success" := JBool(true)], "results", Get(outcome.data, "results")),
                           "count", Get(outcome.data, "count"));
        Handled(Reply(200, fields), [call])
      else Handled(Message(500, "Search failed"), [call])
  }

  /** The body of a successful sentiment response: `{ success: true, ...result }`. */
  function SentimentReply(result: JsonValue): HttpResponse {
    Reply(200, map["success" := JBool(true)] + Spread(result))
  }

  /** `POST /analyze-sentiment`: a single text takes precedence over a list of reviews. */
  function AnalyzeSentimentRoute(text: Option<JsonValue>, reviews: Option<JsonValue>, outcome: CallResult): (h: Handled)
    ensures !Present(text) && !Present(reviews) ==> h == Handled(Message(400, "Text or reviews array is required"), [])
    ensures Present(text) ==> h.calls == [AIRequest(AnalyzeSentiment, JObj(map["text" := text.value]))]
    ensures !Present(text) && Present(reviews) ==>
              h.calls == [AIRequest(BatchAnalyzeSentiment, JObj(map["reviews" := reviews.value]))]
    ensures h.calls != [] && outcome.Err? ==> h.response == HandleAIError(Service(outcome.error))
    ensures h.calls != [] && outcome.Ok? ==> h.response == SentimentReply(outcome.data)
  {
    if !Present(text) && !Present(reviews) then Handled(Message(400, "Text or reviews array is required"), [])
    else
      var call := if Present(text) then AIRequest(AnalyzeSentiment, JObj(map["text" := text.value]))
                  else AIRequest(BatchAnalyzeSentiment, JObj(map["reviews" := reviews.value]));
      match outcome
      case Err(e) => Handled(HandleAIError(Service(e)), [call])
      case Ok(result) => Handled(SentimentReply(result), [call])
  }

  /** `POST /batch-sentiment`: the reviews must be an array. */
  function BatchSentimentRoute(reviews: Option<JsonValue>, outcome: CallResult): (h: Handled)
    ensures !(reviews.Some? && reviews.value.JArr?) ==> h == Handled(Message(400, "Reviews array is required"), [])
    ensures reviews.Some? && reviews.value.JArr? ==>
              h.calls == [AIRequest(BatchAnalyzeSentiment, JObj(map["reviews" := reviews.value]))]
    ensures h.calls != [] && outcome.Err? ==> h.response == HandleAIError(Service(outcome.error))
    ensures h.calls != [] && outcome.Ok? ==> h.response == SentimentReply(outcome.data)
  {
    if !Present(reviews) || !reviews.value.JArr? then Handled(Message(400, "Reviews array is required"), [])
    else
      var call := AIRequest(BatchAnalyzeSentiment, JObj(map["reviews" := reviews.value]));
      match outcome
      case Err(e) => Handled(HandleAIError(Service(e)), [call])
      case Ok(result) => Handled(SentimentReply(result), [call])
  }

  // ---------------------------------------------------------------------------
  // Health
  // ---------------------------------------------------------------------------

  function ReportJson(report: HealthReport): JsonValue {
    JObj(map[
      "overall" := JStr(if report.overall == Healthy then "healthy" else "degraded"),
      "services" := JObj(map[
        "exerciseGenerator" := JObj(report.exerciseGenerator),
        "chatbot" := JObj(report.chatbot),
        "sentimentAnalysis" := JObj(report.sentimentAnalysis)])])
  }

  /** `GET /services-health`: 200 exactly when the report, as `checkAllServicesHealth` builds
      it, is healthy, 503 otherwise, with the report as the body. A 200 means every service
      answered its probe, and a failed probe always gives 503. */
  function ServicesHealthRoute(cfg: Config, exercise: nat -> Outcome, chat: nat -> Outcome, sentiment: nat -> Outcome)
    : (r: HttpResponse)
    requires ValidConfig(cfg)
    ensures r.status == 200 || r.status == 503
    ensures r.status == 200 <==> CheckAllServicesHealthAsWritten(cfg, exercise, chat, sentiment).overall == Healthy
    ensures r.status == 200 ==>
              Probe(cfg, "exercise", exercise).Ok? && Probe(cfg, "chat", chat).Ok? && Probe(cfg, "sentiment", sentiment).Ok?
    ensures (Probe(cfg, "exercise", exercise).Err? || Probe(cfg, "chat", chat).Err? ||
             Probe(cfg, "sentiment", sentiment).Err?) ==> r.status == 503
    ensures !OwnStatus(Probe(cfg, "exercise", exercise)) && !OwnStatus(Probe(cfg, "chat", chat)) &&
            !OwnStatus(Probe(cfg, "sentiment", sentiment)) ==>
              (r.status == 200 <==>
                 Probe(cfg, "exercise", exercise).Ok? && Probe(cfg, "chat", chat).Ok? && Probe(cfg, "sentiment", sentiment).Ok?)
    ensures r.body == ReportJson(CheckAllServicesHealthAsWritten(cfg, exercise, chat, sentiment))
  {
    HealthAsWritten(cfg, exercise, chat, sentiment);
    var report := CheckAllServicesHealthAsWritten(cfg, exercise, chat, sentiment);
    HttpResponse(if report.overall == Healthy then 200 else 503, ReportJson(report))
  }
}
