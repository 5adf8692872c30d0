/** The HTTP side of the registry service: the test/production path
    rewriting and the retry policy shared by the four list fetchers. The
    transport is abstract: a fetch is modelled by the sequence of outcomes
    the server gives to successive attempts. */
module RegistryClient {
  import opened Wrappers
  import opened Text

  // ---------------------------------------------------------------------
  // Test/production path rewriting
  // ---------------------------------------------------------------------

  datatype Mode = TestMode | ProdMode

  /** Test mode is every environment other than `production`. */
  function ModeOf(nodeEnv: Option<string>): (m: Mode)
    ensures m == ProdMode <==> nodeEnv == Some("production")
  {
    if nodeEnv == Some("production") then ProdMode else TestMode
  }

  function Segment(m: Mode): string {
    match m
    case TestMode => "/test/"
    case ProdMode => "/prod/"
  }

  function OtherMode(m: Mode): Mode {
    match m
    case TestMode => ProdMode
    case ProdMode => TestMode
  }

  /** `path.replace('/prod/', seg).replace('/test/', seg)` for the mode's
      segment `seg`. In effect only the first segment of the other mode is
      rewritten: the step that replaces the mode's own segment by itself is
      a no-op. */
  function EndpointPath(m: Mode, path: string): (r: string)
    ensures r == ReplaceFirst(path, Segment(OtherMode(m)), Segment(m))
    ensures !Contains(path, "/prod/") && !Contains(path, "/test/") ==> r == path
  {
    var seg := Segment(m);
    var r := ReplaceFirst(ReplaceFirst(path, "/prod/", seg), "/test/", seg);
    match m
    case TestMode =>
      ReplaceFirstSelf(ReplaceFirst(path, "/prod/", seg), "/test/");
      r
    case ProdMode =>
      ReplaceFirstSelf(path, "/prod/");
      r
  }

  /** Rewriting a path again leaves it alone exactly when the first rewrite
      left no segment of the other mode behind. */
  lemma EndpointPathIdempotentIff(m: Mode, path: string)
    ensures EndpointPath(m, EndpointPath(m, path)) == EndpointPath(m, path)
            <==> !Contains(EndpointPath(m, path), Segment(OtherMode(m)))
  {
    match m
    case TestMode =>
      ReplaceFirstTwiceIff(path, "/prod/", "/test/");
    case ProdMode =>
      ReplaceFirstTwiceIff(path, "/test/", "/prod/");
  }

  /** Idempotence is not unconditional: a path with two production segments
      is rewritten one segment per application. */
  lemma RepeatedSegmentNotIdempotent()
    ensures EndpointPath(TestMode, "/prod/prod/") == "/test/prod/"
    ensures EndpointPath(TestMode, "/test/prod/") == "/test/test/"
  {
    FirstOfTwoSegmentsRewritten();
    SecondOfTwoSegmentsRewritten();
  }

  lemma SecondOfTwoSegmentsRewritten()
    ensures ReplaceFirst("/test/prod/", "/prod/", "/test/") == "/test/test/"
  {
    SecondSegmentFound();
    var s := "/test/prod/";
    assert s[..5] + "/test/" + s[11..] == "/test/test/";
  }

  lemma FirstOfTwoSegmentsRewritten()
    ensures ReplaceFirst("/prod/prod/", "/prod/", "/test/") == "/test/prod/"
  {
    var p := "/prod/prod/";
    assert p[0..6] == "/prod/";
    assert IndexOf(p, "/prod/") == Some(0);
    assert p[6..] == "prod/";
  }

  lemma SecondSegmentFound()
    ensures IndexOf("/test/prod/", "/prod/") == Some(5)
  {
    var s := "/test/prod/";
    assert s[5..11] == "/prod/";
    assert !IsAt(s, "/prod/", 0) by { assert s[1] == 't'; }
    assert !IsAt(s, "/prod/", 1) by { assert s[1] == 't'; }
    assert !IsAt(s, "/prod/", 2) by { assert s[2] == 'e'; }
    assert !IsAt(s, "/prod/", 3) by { assert s[3] == 's'; }
    assert !IsAt(s, "/prod/", 4) by { assert s[4] == 't'; }
  }

  // ---------------------------------------------------------------------
  // Retry policy
  // ---------------------------------------------------------------------

  /** What one GET attempt yields: a response body, or an error with the
      HTTP status of the response (absent when no response arrived). */
  datatype Outcome<T> = Response(body: T) | Failure(status: Option<int>, message: string)

  datatype FetchError =
    | TokenExpired              // status 401
    | ApiError(message: string) // any error that is not retried
    | LimitExceeded             // the loop ran out of attempts

  function FetchErrorMessage(e: FetchError): string {
    match e
    case TokenExpired => "Token IRZ+ wygasł"
    case ApiError(m) => "Błąd API IRZ+: " + m
    case LimitExceeded => "Przekroczono limit prób połączenia z IRZ+"
  }

  /** The outcome of a whole fetch: the result, how many requests were sent
      and the backoff delays slept in between. */
  datatype Fetched<T> = Fetched(result: Result<T, FetchError>, attempts: nat, delays: seq<nat>)

  /** The default number of attempts of every fetcher. */
  const Retries: nat := 3

  function Pow2(n: nat): (r: nat)
    ensures r >= 1
  {
    if n == 0 then 1 else 2 * Pow2(n - 1)
  }

  /** `Math.pow(2, attempt) * 1000` milliseconds. */
  function BackoffDelay(attempt: nat): nat {
    Pow2(attempt) * 1000
  }

  predicate ServerError<T>(o: Outcome<T>) {
    o.Failure? && o.status.Some? && o.status.value >= 500
  }

  /** How an attempt that is not retried ends the fetch. */
  function Settle<T>(o: Outcome<T>): (r: Result<T, FetchError>)
    ensures r.Ok? <==> o.Response?
    ensures r == Err(TokenExpired) <==> (o.Failure? && o.status == Some(401))
  {
    match o
    case Response(b) => Ok(b)
    case Failure(status, msg) => if status == Some(401) then Err(TokenExpired) else Err(ApiError(msg))
  }

  /** Attempts `attempt`..`retries`, `outcomes[0]` answering attempt
      `attempt`. A 5xx is retried while attempt < retries; anything else
      settles the fetch at once. */
  function RetryFrom<T>(outcomes: seq<Outcome<T>>, attempt: nat, retries: nat): (r: Fetched<T>)
    requires 1 <= attempt
    requires retries + 1 - attempt <= |outcomes|
    decreases retries + 1 - attempt
    ensures attempt > retries <==> r.attempts == 0
    ensures attempt > retries ==> r.result == Err(LimitExceeded) && r.delays == []
    ensures r.attempts <= retries + 1 - attempt || r.attempts == 0
    ensures r.attempts > 0 ==>
      && |r.delays| == r.attempts - 1
      && (forall k :: 0 <= k < r.attempts - 1 ==> ServerError(outcomes[k]) && r.delays[k] == BackoffDelay(attempt + k))
      && r.result == Settle(outcomes[r.attempts - 1])
      && (attempt + r.attempts - 1 < retries ==> !ServerError(outcomes[r.attempts - 1]))
  {
    if attempt > retries then Fetched(Err(LimitExceeded), 0, [])
    else if ServerError(outcomes[0]) && attempt < retries then
      var rest := RetryFrom(outcomes[1..], attempt + 1, retries);
      Fetched(rest.result, rest.attempts + 1, [BackoffDelay(attempt)] + rest.delays)
    else
      Fetched(Settle(outcomes[0]), 1, [])
  }

  /** The retry loop of `fetchWithRetry` and its three siblings, with
      `retries` attempts in all. */
  function FetchWithRetry<T>(outcomes: seq<Outcome<T>>, retries: nat): (r: Fetched<T>)
    requires retries <= |outcomes|
    ensures r.attempts <= retries
    ensures retries > 0 ==> r.attempts >= 1 && r.result != Err(LimitExceeded)
    ensures retries == 0 ==> r.result == Err(LimitExceeded)
  {
    RetryFrom(outcomes, 1, retries)
  }

  /** A 401 on the first attempt fails the fetch at once, with no retry. */
  lemma UnauthorizedFailsImmediately<T>(outcomes: seq<Outcome<T>>)
    requires Retries <= |outcomes|
    requires outcomes[0].Failure? && outcomes[0].status == Some(401)
    ensures FetchWithRetry(outcomes, Retries) == Fetched(Err(TokenExpired), 1, [])
  {
  }

  /** A success settles the fetch on the attempt that received it. */
  lemma SuccessAfterServerErrors<T>(outcomes: seq<Outcome<T>>, k: nat)
    requires Retries <= |outcomes| && k < Retries
    requires forall j :: 0 <= j < k ==> ServerError(outcomes[j])
    requires outcomes[k].Response?
    ensures FetchWithRetry(outcomes, Retries).result == Ok(outcomes[k].body)
    ensures FetchWithRetry(outcomes, Retries).attempts == k + 1
  {
    var r := FetchWithRetry(outcomes, Retries);
    assert !ServerError(outcomes[k]);
  }

  /** Three server errors in a row exhaust the attempts after sleeping 2000
      and then 4000 milliseconds; the last error is reported. */
  lemma ServerErrorsExhaustAttempts<T>(outcomes: seq<Outcome<T>>)
    requires Retries <= |outcomes|
    requires forall j :: 0 <= j < Retries ==> ServerError(outcomes[j])
    ensures FetchWithRetry(outcomes, Retries)
            == Fetched(Err(ApiError(outcomes[2].message)), 3, [2000, 4000])
  {
    var r := FetchWithRetry(outcomes, Retries);
    assert ServerError(outcomes[r.attempts - 1]);
    assert r.delays[0] == BackoffDelay(1) && r.delays[1] == BackoffDelay(2);
  }

  /** Only server errors are retried: a 4xx other than 401, or an error
      without a response, fails on the attempt that saw it. */
  lemma ClientErrorNotRetried<T>(outcomes: seq<Outcome<T>>)
    requires Retries <= |outcomes|
    requires outcomes[0].Failure? && !ServerError(outcomes[0]) && outcomes[0].status != Some(401)
    ensures FetchWithRetry(outcomes, Retries) == Fetched(Err(ApiError(outcomes[0].message)), 1, [])
  {
  }

  /** A fetch's result mapped through the fetcher's post-processing. */
  function MapFetched<T, U>(f: Fetched<T>, g: T -> U): (r: Fetched<U>)
    ensures r.attempts == f.attempts && r.delays == f.delays
    ensures r.result.Ok? <==> f.result.Ok?
    ensures r.result.Ok? ==> r.result.value == g(f.result.value)
    ensures r.result.Err? ==> r.result.error == f.result.error
  {
    match f.result
    case Ok(v) => Fetched(Ok(g(v)), f.attempts, f.delays)
    case Err(e) => Fetched(Err(e), f.attempts, f.delays)
  }
}
