/**
 * The AI-service gateway of the backend: a registry of the three Python services,
 * a normalizer that turns every transport failure into one `AIServiceError`, a
 * bounded retry loop with exponential backoff that never retries a 4xx error, the
 * convenience bindings the routes use, and the aggregate health check.
 *
 * The HTTP transport is a parameter: `transport(k)` is what the k-th attempt of a
 * call gets back (a response or a transport failure). Sleeping is recorded as the
 * list of delays, in milliseconds, the call waits before its attempts.
 */
module AIServiceClient {
  import opened Wrappers
  import opened Json

  // ---------------------------------------------------------------------------
  // Service registry and timeouts
  // ---------------------------------------------------------------------------

  /** Process-lifetime configuration: base URL per service and the two
      configurable timeouts (already parsed as integers). */
  datatype Config = Config(
    exerciseUrl: string,
    chatUrl: string,
    sentimentUrl: string,
    chatTimeout: int,
    exerciseTimeout: int)

  /** Every base URL is non-empty, so every registered name resolves. */
  predicate ValidConfig(cfg: Config) {
    cfg.exerciseUrl != "" && cfg.chatUrl != "" && cfg.sentimentUrl != ""
  }

  /** The configuration read from the environment: `process.env.X || default` for the
      URLs, and the parsed timeout values when they are set. */
  function ConfigFromEnv(
    exerciseEnv: Option<string>, chatEnv: Option<string>, sentimentEnv: Option<string>,
    chatTimeoutEnv: Option<int>, exerciseTimeoutEnv: Option<int>): (cfg: Config)
    ensures ValidConfig(cfg)
    ensures cfg.chatTimeout == chatTimeoutEnv.GetOr(300000)
    ensures cfg.exerciseTimeout == exerciseTimeoutEnv.GetOr(120000)
    ensures exerciseEnv.Some? && exerciseEnv.value != "" ==> cfg.exerciseUrl == exerciseEnv.value
    ensures chatEnv.Some? && chatEnv.value != "" ==> cfg.chatUrl == chatEnv.value
    ensures sentimentEnv.Some? && sentimentEnv.value != "" ==> cfg.sentimentUrl == sentimentEnv.value
    ensures exerciseEnv.None? || exerciseEnv.value == "" ==> cfg.exerciseUrl == "http://localhost:5001"
    ensures chatEnv.None? || chatEnv.value == "" ==> cfg.chatUrl == "http://localhost:5002"
    ensures sentimentEnv.None? || sentimentEnv.value == "" ==> cfg.sentimentUrl == "http://localhost:5003"
  {
    Config(
      OrStr(exerciseEnv, "http://localhost:5001"),
      OrStr(chatEnv, "http://localhost:5002"),
      OrStr(sentimentEnv, "http://localhost:5003"),
      chatTimeoutEnv.GetOr(300000),
      exerciseTimeoutEnv.GetOr(120000))
  }

  /** `AI_SERVICES[service]`. */
  function BaseUrl(cfg: Config, service: string): Option<string> {
    if service == "exercise" then Some(cfg.exerciseUrl)
    else if service == "chat" then Some(cfg.chatUrl)
    else if service == "sentiment" then Some(cfg.sentimentUrl)
    else None
  }

  /** The registry check of `callAIService`: the name resolves to a truthy URL. */
  predicate Registered(cfg: Config, service: string) {
    BaseUrl(cfg, service).Some? && BaseUrl(cfg, service).value != ""
  }

  /** Under a valid configuration the registered names are exactly the three services. */
  lemma RegisteredNames(cfg: Config, service: string)
    requires ValidConfig(cfg)
    ensures Registered(cfg, service) <==> service in {"exercise", "chat", "sentiment"}
  {
  }

  /** `TIMEOUTS[service]`, undefined for names outside the table. */
  function TimeoutEntry(cfg: Config, service: string): Option<int> {
    if service == "health" then Some(5000)
    else if service == "chat" then Some(cfg.chatTimeout)
    else if service == "exercise" then Some(cfg.exerciseTimeout)
    else if service == "sentiment" then Some(30000)
    else if service == "default" then Some(60000)
    else None
  }

  /** The default timeout of a call, `TIMEOUTS[service] || TIMEOUTS.default`: a call never
      runs with a zero timeout (which axios would read as "no limit"), the fixed entries keep
      their values, a configured timeout is used unless it is 0, and any other name gets the
      60-second default. */
  function DefaultTimeout(cfg: Config, service: string): (t: int)
    ensures t != 0
    ensures service == "health" ==> t == 5000
    ensures service == "sentiment" ==> t == 30000
    ensures service !in {"health", "chat", "exercise", "sentiment"} ==> t == 60000
    ensures service == "chat" ==> t == (if cfg.chatTimeout != 0 then cfg.chatTimeout else 60000)
    ensures service == "exercise" ==> t == (if cfg.exerciseTimeout != 0 then cfg.exerciseTimeout else 60000)
  {
    var e := TimeoutEntry(cfg, service);
    if e.Some? && e.value != 0 then e.value else 60000
  }

  // ---------------------------------------------------------------------------
  // Errors and their normalization
  // ---------------------------------------------------------------------------

  /** The closed set of gateway error kinds. */
  datatype ErrorCode =
    | InvalidService
    | ServiceUnavailable
    | Timeout
    | NetworkError
    | ServiceError
    | Unknown

  datatype AIServiceError = AIServiceError(message: string, code: ErrorCode, statusCode: int)

  /** An HTTP response as the transport delivers it. */
  datatype Response = Response(status: int, data: JsonValue)

  /** A rejection of the HTTP client: its error code (`""` when it has none), the
      response when the server answered, and its message. */
  datatype TransportError = TransportError(code: string, response: Option<Response>, message: string)

  /** What one attempt gets back from the transport. */
  datatype Outcome = Responded(response: Response) | Failed(failure: TransportError)

  /** Something thrown inside the retry loop: a gateway error, or a transport rejection. */
  datatype Thrown = Gateway(error: AIServiceError) | Transport(failure: TransportError)

  /** `data?.error || data?.message || fallback`, converted to a string by the error constructor. */
  function ErrorText(data: JsonValue, fallback: string): string {
    var err := Get(data, "error");
    var msg := Get(data, "message");
    if Present(err) then ToJsString(err.value)
    else if Present(msg) then ToJsString(msg.value)
    else fallback
  }

  function UnavailableMessage(service: string): string {
    service + " service is not available. Please ensure the Python API is running."
  }

  function TimeoutMessage(service: string): string {
    service + " request timed out. The AI model may be loading. Please try again."
  }

  function NetworkMessage(service: string): string {
    "Cannot connect to " + service + " service. Network error."
  }

  /** `normalizeError`. */
  function Normalize(thrown: Thrown, service: string): AIServiceError {
    match thrown
    case Gateway(e) => e
    case Transport(t) =>
      if t.code == "ECONNREFUSED" then
        AIServiceError(UnavailableMessage(service), ServiceUnavailable, 503)
      else if t.code == "ECONNABORTED" || t.code == "ETIMEDOUT" then
        AIServiceError(TimeoutMessage(service), Timeout, 504)
      else if t.code == "ENOTFOUND" || t.code == "EAI_AGAIN" then
        AIServiceError(NetworkMessage(service), NetworkError, 503)
      else if t.response.Some? then
        AIServiceError(ErrorText(t.response.value.data, t.message), ServiceError, t.response.value.status)
      else
        AIServiceError(if t.message != "" then t.message else "Unknown error", Unknown, 500)
  }

  /** The status code that goes with each error kind, except `SERVICE_ERROR`, which carries the upstream status. */
  function FixedStatus(code: ErrorCode): int
    requires code != ServiceError
  {
    match code
    case InvalidService => 500
    case ServiceUnavailable => 503
    case Timeout => 504
    case NetworkError => 503
    case Unknown => 500
  }

  /** The normalizer's table: each transport failure lands in exactly one kind, with its fixed status. */
  lemma NormalizeTable(t: TransportError, service: string)
    ensures var e := Normalize(Transport(t), service);
      && e.code != InvalidService
      && (e.code != ServiceError ==> e.statusCode == FixedStatus(e.code))
      && (t.code == "ECONNREFUSED" <==> e.code == ServiceUnavailable)
      && (e.code == Timeout <==> t.code in {"ECONNABORTED", "ETIMEDOUT"})
      && (e.code == NetworkError <==> t.code in {"ENOTFOUND", "EAI_AGAIN"})
      && (e.code == ServiceError <==>
            t.response.Some? && t.code !in {"ECONNREFUSED", "ECONNABORTED", "ETIMEDOUT", "ENOTFOUND", "EAI_AGAIN"})
      && (e.code == ServiceError ==> e.statusCode == t.response.value.status)
  {
    var e := Normalize(Transport(t), service);
    if t.code == "ECONNREFUSED" {
      assert e.code == ServiceUnavailable;
    } else if t.code == "ECONNABORTED" || t.code == "ETIMEDOUT" {
      assert e.code == Timeout;
    } else if t.code == "ENOTFOUND" || t.code == "EAI_AGAIN" {
      assert e.code == NetworkError;
    } else if t.response.Some? {
      assert e.code == ServiceError;
    } else {
      assert e.code == Unknown;
    }
  }

  /** A gateway error passes through unchanged, so normalizing twice is normalizing once. */
  lemma NormalizeIdempotent(thrown: Thrown, service: string)
    ensures Normalize(Gateway(Normalize(thrown, service)), service) == Normalize(thrown, service)
    ensures thrown.Gateway? ==> Normalize(thrown, service) == thrown.error
  {
  }

  // ---------------------------------------------------------------------------
  // One attempt, and the retry policy
  // ---------------------------------------------------------------------------

  /** The result of one attempt: the response body, or the normalized error it threw. */
  datatype AttemptResult = Returned(data: JsonValue) | Threw(error: AIServiceError)

  /** The result of a whole call: the body returned, or the error thrown to the caller. */
  datatype CallResult = Ok(data: JsonValue) | Err(error: AIServiceError)

  /** A call's result, the number of attempts it made and the delays it slept before them. */
  datatype Trace = Trace(result: CallResult, attempts: nat, delays: seq<nat>)

  /** The HTTP client rejects every status of 500 or above (`validateStatus: status < 500`). */
  function Rejection(r: Response): TransportError {
    TransportError("ERR_BAD_RESPONSE", Some(r), "Request failed with status code " + IntToString(r.status))
  }

  /** One pass through the body of the loop: the request, the 4xx check and the catch clause. */
  function Attempt(service: string, outcome: Outcome): AttemptResult {
    match outcome
    case Responded(r) =>
      if r.status >= 500 then Threw(Normalize(Transport(Rejection(r)), service))
      else if r.status >= 400 then
        Threw(Normalize(Gateway(AIServiceError(ErrorText(r.data, "HTTP " + IntToString(r.status)),
                                               ServiceError, r.status)), service))
      else Returned(r.data)
    case Failed(t) => Threw(Normalize(Transport(t), service))
  }

  /** Client errors are not transient: an error with a status in [400, 500) is never retried. */
  predicate IsClientError(statusCode: int) {
    400 <= statusCode < 500
  }

  /** The attempt ends the call: it returned, or it threw a client error. */
  predicate Stops(a: AttemptResult) {
    a.Returned? || IsClientError(a.error.statusCode)
  }

  function Conclude(a: AttemptResult): CallResult {
    match a
    case Returned(d) => Ok(d)
    case Threw(e) => Err(e)
  }

  function Pow2(n: nat): (p: nat)
    ensures p >= 1
  {
    if n == 0 then 1 else 2 * Pow2(n - 1)
  }

  /** The delay before attempt `attempt` (attempt 0 has none): 1000 * 2^(attempt-1) ms. */
  function Backoff(attempt: nat): nat
    requires attempt >= 1
  {
    1000 * Pow2(attempt - 1)
  }

  /** What each attempt of a call to `service` ends in, attempt by attempt. */
  function AttemptsOf(service: string, transport: nat -> Outcome): nat -> AttemptResult {
    (k: nat) => Attempt(service, transport(k))
  }

  /** The attempts of a call from attempt `k` on, given what each attempt ends in. */
  function Run(retries: nat, results: nat -> AttemptResult, k: nat): (t: Trace)
    requires k <= retries
    ensures 1 <= t.attempts <= retries - k + 1
    ensures |t.delays| == (if k == 0 then t.attempts - 1 else t.attempts)
    decreases retries - k
  {
    var before := if k > 0 then [Backoff(k)] else [];
    var a := results(k);
    if Stops(a) || k == retries then Trace(Conclude(a), 1, before)
    else
      var rest := Run(retries, results, k + 1);
      Trace(rest.result, 1 + rest.attempts, before + rest.delays)
  }

  /** The error thrown for a name the registry does not know. */
  function InvalidServiceError(service: string): AIServiceError {
    AIServiceError("Unknown AI service: " + service, InvalidService, 500)
  }

  /** The specification of `callAIService`. */
  function CallSpec(cfg: Config, service: string, retries: nat, transport: nat -> Outcome): Trace {
    if !Registered(cfg, service) then Trace(Err(InvalidServiceError(service)), 0, [])
    else Run(retries, AttemptsOf(service, transport), 0)
  }

  /** `callAIService`: the loop over attempts, with the backoff sleep recorded in `delays`. */
  method CallAIService(cfg: Config, service: string, retries: nat, transport: nat -> Outcome)
    returns (result: CallResult, attempts: nat, delays: seq<nat>)
    ensures Trace(result, attempts, delays) == CallSpec(cfg, service, retries, transport)
  {
    if !Registered(cfg, service) {
      return Err(InvalidServiceError(service)), 0, [];
    }
    attempts, delays := 0, [];
    var lastError: Option<AIServiceError> := None;
    var attempt: nat := 0;
    ghost var results := AttemptsOf(service, transport);
    ghost var spec := Run(retries, results, 0);
    while true
      invariant attempt <= retries
      invariant attempts == attempt
      invariant spec.result == Run(retries, results, attempt).result
      invariant spec.attempts == attempts + Run(retries, results, attempt).attempts
      invariant spec.delays == delays + Run(retries, results, attempt).delays
      decreases retries - attempt
    {
      ghost var delaysBefore := delays;
      ghost var before := if attempt > 0 then [Backoff(attempt)] else [];
      if attempt > 0 {
        delays := delays + [Backoff(attempt)];
      }
      attempts := attempts + 1;
      var a := Attempt(service, transport(attempt));
      assert a == results(attempt);
      if a.Returned? {
        return Ok(a.data), attempts, delays;
      }
      lastError := Some(a.error);
      if IsClientError(a.error.statusCode) {
        return Err(lastError.value), attempts, delays;
      }
      if attempt == retries {
        return Err(lastError.value), attempts, delays;
      }
      ghost var later := Run(retries, results, attempt + 1).delays;
      assert delays + later == delaysBefore + (before + later);
      attempt := attempt + 1;
    }
  }

  /** The index of the last attempt a call from attempt `k` on makes. */
  function LastAttempt(retries: nat, results: nat -> AttemptResult, k: nat): (last: nat)
    requires k <= retries
    ensures k <= last <= retries
  {
    k + Run(retries, results, k).attempts - 1
  }

  /** Every attempt before the last one threw a retryable error. */
  lemma {:induction false} RunRetriesOnlyTransient(retries: nat, results: nat -> AttemptResult, k: nat)
    requires k <= retries
    ensures forall j :: k <= j < LastAttempt(retries, results, k) ==> !Stops(results(j))
    decreases retries - k
  {
    if !Stops(results(k)) && k < retries {
      RunRetriesOnlyTransient(retries, results, k + 1);
    }
  }

  /** The last attempt stopped the call or was the final permitted one, and its outcome is the call's result. */
  lemma {:induction false} RunEndsAtStop(retries: nat, results: nat -> AttemptResult, k: nat)
    requires k <= retries
    ensures var last := LastAttempt(retries, results, k);
      && (last == retries || Stops(results(last)))
      && Run(retries, results, k).result == Conclude(results(last))
    decreases retries - k
  {
    if !Stops(results(k)) && k < retries {
      RunEndsAtStop(retries, results, k + 1);
    }
  }

  /** `delays` are the backoffs before consecutive attempts, the first one before attempt `first`. */
  predicate BackoffsFrom(delays: seq<nat>, first: nat)
    requires first >= 1
  {
    forall i :: 0 <= i < |delays| ==> delays[i] == Backoff(i + first)
  }

  /** The delay before attempt i is 1000 * 2^(i-1): the delays double. */
  lemma {:induction false} RunDelaysDouble(retries: nat, results: nat -> AttemptResult, k: nat)
    requires k <= retries
    ensures BackoffsFrom(Run(retries, results, k).delays, if k == 0 then 1 else k)
    decreases retries - k
  {
    if !Stops(results(k)) && k < retries {
      RunDelaysDouble(retries, results, k + 1);
      var t := Run(retries, results, k);
      var rest := Run(retries, results, k + 1);
      var before: seq<nat> := if k > 0 then [Backoff(k)] else [];
      assert t.delays == before + rest.delays;
      forall i | 0 <= i < |t.delays|
        ensures t.delays[i] == Backoff(i + (if k == 0 then 1 else k))
      {
        if k == 0 {
          assert t.delays[i] == rest.delays[i];
        } else if i > 0 {
          assert t.delays[i] == rest.delays[i - 1];
        }
      }
    }
  }

  /** An unknown service name fails with `INVALID_SERVICE` and status 500 before any attempt. */
  lemma UnknownServiceFailsFast(cfg: Config, service: string, retries: nat, transport: nat -> Outcome)
    requires !Registered(cfg, service)
    ensures var t := CallSpec(cfg, service, retries, transport);
      && t.attempts == 0 && t.delays == []
      && t.result.Err? && t.result.error.code == InvalidService && t.result.error.statusCode == 500
  {
  }

  /** A call to a registered service makes between 1 and `retries + 1` attempts and waits
      1000 * 2^i ms before attempt i + 1, with no wait before attempt 0. */
  lemma CallBounds(cfg: Config, service: string, retries: nat, transport: nat -> Outcome)
    requires Registered(cfg, service)
    ensures var t := CallSpec(cfg, service, retries, transport);
      && 1 <= t.attempts <= retries + 1
      && |t.delays| == t.attempts - 1
      && (forall i :: 0 <= i < |t.delays| ==> t.delays[i] == 1000 * Pow2(i))
  {
    RunDelaysDouble(retries, AttemptsOf(service, transport), 0);
    var t := CallSpec(cfg, service, retries, transport);
    forall i | 0 <= i < |t.delays|
      ensures t.delays[i] == 1000 * Pow2(i)
    {
      assert t.delays[i] == Backoff(i + 1);
    }
  }

  /** With `retries = 0` a call makes exactly one attempt and never sleeps. */
  lemma SingleAttemptWithoutRetries(cfg: Config, service: string, transport: nat -> Outcome)
    requires Registered(cfg, service)
    ensures CallSpec(cfg, service, 0, transport).attempts == 1
    ensures CallSpec(cfg, service, 0, transport).delays == []
  {
    CallBounds(cfg, service, 0, transport);
  }

  /** The first attempt that returns or throws a client error ends the call: no further
      attempt is made and its outcome is what the caller sees. */
  lemma FirstStopDecides(cfg: Config, service: string, retries: nat, transport: nat -> Outcome, j: nat)
    requires Registered(cfg, service)
    requires j <= retries
    requires forall i :: 0 <= i < j ==> !Stops(Attempt(service, transport(i)))
    requires Stops(Attempt(service, transport(j)))
    ensures CallSpec(cfg, service, retries, transport).attempts == j + 1
    ensures CallSpec(cfg, service, retries, transport).result == Conclude(Attempt(service, transport(j)))
  {
    var results := AttemptsOf(service, transport);
    RunRetriesOnlyTransient(retries, results, 0);
    RunEndsAtStop(retries, results, 0);
    var last := LastAttempt(retries, results, 0);
    assert results(last) == Attempt(service, transport(last));
    assert results(j) == Attempt(service, transport(j));
  }

  /** When every permitted attempt throws a retryable error, the call makes all `retries + 1`
      attempts and throws the normalization of the last failure. */
  lemma AllAttemptsFail(cfg: Config, service: string, retries: nat, transport: nat -> Outcome)
    requires Registered(cfg, service)
    requires forall i :: 0 <= i <= retries ==> !Stops(Attempt(service, transport(i)))
    ensures CallSpec(cfg, service, retries, transport).attempts == retries + 1
    ensures CallSpec(cfg, service, retries, transport).result.Err?
    ensures CallSpec(cfg, service, retries, transport).result == Conclude(Attempt(service, transport(retries)))
  {
    var results := AttemptsOf(service, transport);
    RunRetriesOnlyTransient(retries, results, 0);
    RunEndsAtStop(retries, results, 0);
    var last := LastAttempt(retries, results, 0);
    assert results(last) == Attempt(service, transport(last));
  }

  /** A call that ends in a client error made no attempt after the one that produced it,
      and a call that made a second attempt saw only retryable errors before it. */
  lemma ClientErrorsAreNotRetried(cfg: Config, service: string, retries: nat, transport: nat -> Outcome)
    requires Registered(cfg, service)
    ensures var t := CallSpec(cfg, service, retries, transport);
      forall j :: 0 <= j < t.attempts - 1 ==>
        var a := Attempt(service, transport(j));
        a.Threw? && !IsClientError(a.error.statusCode)
  {
    var results := AttemptsOf(service, transport);
    RunRetriesOnlyTransient(retries, results, 0);
    var t := CallSpec(cfg, service, retries, transport);
    forall j | 0 <= j < t.attempts - 1
      ensures Attempt(service, transport(j)).Threw? && !IsClientError(Attempt(service, transport(j)).error.statusCode)
    {
      assert !Stops(results(j));
    }
  }

  /** A normalized error is never `INVALID_SERVICE`: that kind is thrown only by the registry check. */
  lemma AttemptNeverInvalid(service: string, outcome: Outcome)
    ensures Attempt(service, outcome).Threw? ==> Attempt(service, outcome).error.code != InvalidService
  {
    match outcome
    case Responded(r) =>
      if r.status >= 500 {
        NormalizeTable(Rejection(r), service);
      }
    case Failed(f) =>
      NormalizeTable(f, service);
  }

  /** A call to a registered service never fails with `INVALID_SERVICE`. */
  lemma RegisteredNeverInvalid(cfg: Config, service: string, retries: nat, transport: nat -> Outcome)
    requires Registered(cfg, service)
    ensures CallSpec(cfg, service, retries, transport).result.Err? ==>
              CallSpec(cfg, service, retries, transport).result.error.code != InvalidService
  {
    RunEndsAtStop(retries, AttemptsOf(service, transport), 0);
    AttemptNeverInvalid(service, transport(LastAttempt(retries, AttemptsOf(service, transport), 0)));
  }

  /** A transport that gives the same outcome on every attempt. */
  function Always(o: Outcome): nat -> Outcome {
    _ => o
  }

  /** Connection refused on every attempt, default `retries = 1`: two attempts, one second
      of backoff, `SERVICE_UNAVAILABLE` with status 503. */
  lemma ConnectionRefusedScenario(cfg: Config)
    requires ValidConfig(cfg)
    ensures var t := CallSpec(cfg, "chat", 1, Always(Failed(TransportError("ECONNREFUSED", None, "connect ECONNREFUSED"))));
      && t.attempts == 2 && t.delays == [1000]
      && t.result == Err(AIServiceError(UnavailableMessage("chat"), ServiceUnavailable, 503))
  {
    var tr: nat -> Outcome := Always(Failed(TransportError("ECONNREFUSED", None, "connect ECONNREFUSED")));
    AllAttemptsFail(cfg, "chat", 1, tr);
    CallBounds(cfg, "chat", 1, tr);
  }

  /** A 404 whose body carries a message: one attempt, no retry, status 404 and that message. */
  lemma NotFoundScenario(cfg: Config)
    requires ValidConfig(cfg)
    ensures var body := JObj(map["message" := JStr("bad input")]);
      var t := CallSpec(cfg, "exercise", 1, Always(Responded(Response(404, body))));
      && t.attempts == 1 && t.delays == []
      && t.result == Err(AIServiceError("bad input", ServiceError, 404))
  {
    var body := JObj(map["message" := JStr("bad input")]);
    var tr: nat -> Outcome := Always(Responded(Response(404, body)));
    assert Get(body, "error") == None;
    FirstStopDecides(cfg, "exercise", 1, tr, 0);
    CallBounds(cfg, "exercise", 1, tr);
  }

  /** A timeout on every attempt with `retries = 2`: three attempts, delays of one then two
      seconds, and a `TIMEOUT` error. */
  lemma TimeoutScenario(cfg: Config)
    requires ValidConfig(cfg)
    ensures var t := CallSpec(cfg, "exercise", 2, Always(Failed(TransportError("ECONNABORTED", None, "timeout"))));
      && t.attempts == 3 && t.delays == [1000, 2000]
      && t.result.Err? && t.result.error.code == Timeout && t.result.error.statusCode == 504
  {
    var tr: nat -> Outcome := Always(Failed(TransportError("ECONNABORTED", None, "timeout")));
    AllAttemptsFail(cfg, "exercise", 2, tr);
    CallBounds(cfg, "exercise", 2, tr);
    assert Pow2(1) == 2;
  }

  // ---------------------------------------------------------------------------
  // Convenience bindings
  // ---------------------------------------------------------------------------

  datatype HttpMethod = GET | POST

  /** The fixed choice of service, endpoint, method, timeout and retry count of one operation. */
  datatype Binding = Binding(service: string, endpoint: string, verb: HttpMethod, timeout: int, retries: nat)

  datatype Operation =
    | Request(service: string, endpoint: string, verb: HttpMethod)
    | Chat
    | Search
    | GenerateExercise
    | GetSubjects
    | AnalyzeSentiment
    | BatchAnalyzeSentiment
    | HealthProbe(probed: string)

  /** The `aiClient` operations and the health probes, each a fixed binding over `callAIService`. */
  function BindingOf(cfg: Config, op: Operation): Binding {
    match op
    case Request(s, e, m) => Binding(s, e, m, DefaultTimeout(cfg, s), 1)
    case Chat => Binding("chat", "/chat", POST, cfg.chatTimeout, 1)
    case Search => Binding("chat", "/search", POST, 15000, 1)
    case GenerateExercise => Binding("exercise", "/generate-exercise", POST, cfg.exerciseTimeout, 1)
    case GetSubjects => Binding("exercise", "/subjects", GET, 30000, 1)
    case AnalyzeSentiment => Binding("sentiment", "/analyze", POST, 30000, 1)
    case BatchAnalyzeSentiment => Binding("sentiment", "/batch-analyze", POST, 60000, 1)
    case HealthProbe(s) => Binding(s, "/health", GET, 5000, 0)
  }

  /** The call an operation makes. */
  function Invoke(cfg: Config, op: Operation, transport: nat -> Outcome): Trace {
    var b := BindingOf(cfg, op);
    CallSpec(cfg, b.service, b.retries, transport)
  }

  /** Every named convenience operation reaches a registered service, so it never fails with
      `INVALID_SERVICE`, and with its one retry it makes one or two attempts. */
  lemma ConvenienceOperationsBounded(cfg: Config, op: Operation, transport: nat -> Outcome)
    requires ValidConfig(cfg)
    requires !op.Request? && !op.HealthProbe?
    ensures var t := Invoke(cfg, op, transport);
      && 1 <= t.attempts <= 2
      && (t.result.Err? ==> t.result.error.code != InvalidService)
  {
    var b := BindingOf(cfg, op);
    assert Registered(cfg, b.service);
    CallBounds(cfg, b.service, b.retries, transport);
    RegisteredNeverInvalid(cfg, b.service, b.retries, transport);
  }

  // ---------------------------------------------------------------------------
  // Aggregate health check
  // ---------------------------------------------------------------------------

  /** An entry of the health report: an object with `url`, `status` and more. */
  type Entry = map<string, JsonValue>

  datatype Overall = Healthy | Degraded

  datatype HealthReport = HealthReport(
    overall: Overall,
    exerciseGenerator: Entry,
    chatbot: Entry,
    sentimentAnalysis: Entry)

  /** `formatResult` as written: `{ status: "healthy", ...result.value }`, so a field named
      `status` in the probe's body replaces `"healthy"`. */
  function FormatResultAsWritten(r: CallResult): (entry: Entry)
    ensures "status" in entry
    ensures r.Err? ==> entry["status"] == JStr("down")
    ensures r.Ok? && !OwnStatus(r) ==> entry["status"] == JStr("healthy")
    ensures OwnStatus(r) ==> entry["status"] == r.data.fields["status"]
    ensures entry["status"] == JStr("healthy") ==> r.Ok?
  {
    match r
    case Ok(body) => map["status" := JStr("healthy")] + Spread(body)
    case Err(e) => map["status" := JStr("down"),
                       "error" := JStr(if e.message != "" then e.message else "Service unavailable")]
  }

  /** A fulfilled probe whose reply body carries a `status` field of its own. */
  predicate OwnStatus(r: CallResult) {
    r.Ok? && "status" in Spread(r.data)
  }

  /** `formatResult` with the status written after the body, so that a fulfilled probe is
      always reported healthy. */
  function FormatResult(r: CallResult): (entry: Entry)
    ensures "status" in entry
    ensures entry["status"] == JStr("healthy") <==> r.Ok?
  {
    match r
    case Ok(body) => Spread(body)["status" := JStr("healthy")]
    case Err(e) => map["status" := JStr("down"),
                       "error" := JStr(if e.message != "" then e.message else "Service unavailable")]
  }

  /** `{ url, ...formatResult(...) }`. */
  function WithUrl(url: string, formatted: Entry): Entry {
    map["url" := JStr(url)] + formatted
  }

  predicate EntryHealthy(e: Entry) {
    "status" in e && e["status"] == JStr("healthy")
  }

  /** The three probe results: single-attempt health calls, settled independently. */
  function Probe(cfg: Config, service: string, transport: nat -> Outcome): CallResult {
    Invoke(cfg, HealthProbe(service), transport).result
  }

  function Reduce(exercise: Entry, chat: Entry, sentiment: Entry): HealthReport {
    var allHealthy := EntryHealthy(exercise) && EntryHealthy(chat) && EntryHealthy(sentiment);
    HealthReport(if allHealthy then Healthy else Degraded, exercise, chat, sentiment)
  }

  /** `checkAllServicesHealth` as written. */
  function CheckAllServicesHealthAsWritten(
    cfg: Config, exercise: nat -> Outcome, chat: nat -> Outcome, sentiment: nat -> Outcome): HealthReport
  {
    Reduce(WithUrl(cfg.exerciseUrl, FormatResultAsWritten(Probe(cfg, "exercise", exercise))),
           WithUrl(cfg.chatUrl, FormatResultAsWritten(Probe(cfg, "chat", chat))),
           WithUrl(cfg.sentimentUrl, FormatResultAsWritten(Probe(cfg, "sentiment", sentiment))))
  }

  /** What does hold as written: a healthy report means all three probes fulfilled, a failed
      probe is reported `down`, and when no reply body carries a `status` field of its own the
      report is healthy exactly when all three probes fulfilled. */
  lemma HealthAsWritten(cfg: Config, exercise: nat -> Outcome, chat: nat -> Outcome, sentiment: nat -> Outcome)
    ensures var report := CheckAllServicesHealthAsWritten(cfg, exercise, chat, sentiment);
      && (report.overall == Healthy ==>
            Probe(cfg, "exercise", exercise).Ok? && Probe(cfg, "chat", chat).Ok? && Probe(cfg, "sentiment", sentiment).Ok?)
      && (Probe(cfg, "exercise", exercise).Err? ==> report.exerciseGenerator["status"] == JStr("down"))
      && (Probe(cfg, "chat", chat).Err? ==> report.chatbot["status"] == JStr("down"))
      && (Probe(cfg, "sentiment", sentiment).Err? ==> report.sentimentAnalysis["status"] == JStr("down"))
      && (!OwnStatus(Probe(cfg, "exercise", exercise)) && !OwnStatus(Probe(cfg, "chat", chat)) &&
          !OwnStatus(Probe(cfg, "sentiment", sentiment)) ==>
            (report.overall == Healthy <==>
               Probe(cfg, "exercise", exercise).Ok? && Probe(cfg, "chat", chat).Ok? && Probe(cfg, "sentiment", sentiment).Ok?))
  {
    WithUrlKeepsStatus(cfg.exerciseUrl, FormatResultAsWritten(Probe(cfg, "exercise", exercise)));
    WithUrlKeepsStatus(cfg.chatUrl, FormatResultAsWritten(Probe(cfg, "chat", chat)));
    WithUrlKeepsStatus(cfg.sentimentUrl, FormatResultAsWritten(Probe(cfg, "sentiment", sentiment)));
  }

  /** `checkAllServicesHealth`, with the corrected `formatResult`. It never fails: every
      probe outcome becomes an entry of the report. */
  function CheckAllServicesHealth(
    cfg: Config, exercise: nat -> Outcome, chat: nat -> Outcome, sentiment: nat -> Outcome): HealthReport
  {
    Reduce(WithUrl(cfg.exerciseUrl, FormatResult(Probe(cfg, "exercise", exercise))),
           WithUrl(cfg.chatUrl, FormatResult(Probe(cfg, "chat", chat))),
           WithUrl(cfg.sentimentUrl, FormatResult(Probe(cfg, "sentiment", sentiment))))
  }

  /** The report is healthy exactly when all three probes fulfilled; a failed probe is
      reported `down`; every probe is a single attempt with no backoff. */
  lemma HealthOverall(cfg: Config, exercise: nat -> Outcome, chat: nat -> Outcome, sentiment: nat -> Outcome)
    requires ValidConfig(cfg)
    ensures var report := CheckAllServicesHealth(cfg, exercise, chat, sentiment);
      && (report.overall == Healthy <==>
            Probe(cfg, "exercise", exercise).Ok? && Probe(cfg, "chat", chat).Ok? && Probe(cfg, "sentiment", sentiment).Ok?)
      && (Probe(cfg, "exercise", exercise).Err? ==> report.exerciseGenerator["status"] == JStr("down"))
      && (Probe(cfg, "chat", chat).Err? ==> report.chatbot["status"] == JStr("down"))
      && (Probe(cfg, "sentiment", sentiment).Err? ==> report.sentimentAnalysis["status"] == JStr("down"))
    ensures Invoke(cfg, HealthProbe("exercise"), exercise).attempts == 1
    ensures Invoke(cfg, HealthProbe("chat"), chat).attempts == 1
    ensures Invoke(cfg, HealthProbe("sentiment"), sentiment).attempts == 1
  {
    SingleAttemptWithoutRetries(cfg, "exercise", exercise);
    SingleAttemptWithoutRetries(cfg, "chat", chat);
    SingleAttemptWithoutRetries(cfg, "sentiment", sentiment);
    WithUrlKeepsStatus(cfg.exerciseUrl, FormatResult(Probe(cfg, "exercise", exercise)));
    WithUrlKeepsStatus(cfg.chatUrl, FormatResult(Probe(cfg, "chat", chat)));
    WithUrlKeepsStatus(cfg.sentimentUrl, FormatResult(Probe(cfg, "sentiment", sentiment)));
  }

  lemma WithUrlKeepsStatus(url: string, formatted: Entry)
    requires "status" in formatted
    ensures EntryHealthy(WithUrl(url, formatted)) <==> formatted["status"] == JStr("healthy")
    ensures WithUrl(url, formatted)["status"] == formatted["status"]
  {
  }

  /** As written, three healthy services whose health bodies say `"status": "ok"` are
      reported `degraded`, although every probe fulfilled. */
  lemma HealthAsWrittenMisreports(cfg: Config)
    requires ValidConfig(cfg)
    ensures var ok: nat -> Outcome := Always(Responded(Response(200, JObj(map["status" := JStr("ok")]))));
      && Probe(cfg, "exercise", ok).Ok? && Probe(cfg, "chat", ok).Ok? && Probe(cfg, "sentiment", ok).Ok?
      && CheckAllServicesHealthAsWritten(cfg, ok, ok, ok).overall == Degraded
      && CheckAllServicesHealth(cfg, ok, ok, ok).overall == Healthy
  {
    var ok: nat -> Outcome := Always(Responded(Response(200, JObj(map["status" := JStr("ok")]))));
    var entry := FormatResultAsWritten(Ok(JObj(map["status" := JStr("ok")])));
    assert entry["status"] == JStr("ok");
    assert !EntryHealthy(WithUrl(cfg.exerciseUrl, entry));
    FirstStopDecides(cfg, "exercise", 0, ok, 0);
    FirstStopDecides(cfg, "chat", 0, ok, 0);
    FirstStopDecides(cfg, "sentiment", 0, ok, 0);
    HealthOverall(cfg, ok, ok, ok);
  }
}
