/**
 * The retrying request executor of src/notion/utils/api-client.ts.
 *
 * The network is a parameter: `transport(k)` is what the k-th attempt (from
 * 0) observes: a response whose body parsed, a response whose body did not
 * parse, or a transport failure (including the per-attempt timeout). The
 * executor records what it does as a trace of events: an `Acquire` of the
 * rate limiter, a `Send` of the request, and a `Backoff` with the base of
 * the jittered delay. What the limiter does on `Acquire` is modelled in
 * module RateLimiting.
 */
module Api {
  import opened Wrappers
  import opened Json

  const DefaultMaxRetries := 3
  const DefaultRetryDelay := 1000
  const DefaultTimeout := 30000
  const RequestFailedCode := "request_failed"
  const ExhaustedMessage := "Request failed after multiple attempts"
  /**
   * The message of the TypeError that reading `.message` off a `null` body
   * raises (as Node's engine words it).
   */
  const NullBodyError := "Cannot read properties of null (reading 'message')"

  /** Query parameters in insertion order; `None` stands for `undefined` or `null`. */
  type Query = seq<(string, Option<string>)>

  /**
   * The options of one request. `None` for `maxRetries` or `retryDelay` is
   * `undefined`, for which the defaults apply; JavaScript's defaults do not
   * apply to `null`, which the loop's comparison and the delay's product read
   * as 0, so a `null` is passed here as `Some(0)`.
   */
  datatype RequestOptions = RequestOptions(
    httpMethod: string,
    path: string,
    body: Option<Json>,
    query: Option<Query>,
    maxRetries: Option<int>,
    retryDelay: Option<int>)

  /**
   * The request URL: base, path and, when present, the parameters after the
   * `?` (possibly none). Percent-encoding is not modelled.
   */
  datatype Url = Url(base: string, path: string, search: Option<seq<(string, string)>>)

  /** What one attempt hands to `fetch`. */
  datatype HttpCall = HttpCall(httpMethod: string, url: Url, headers: seq<(string, string)>, body: Option<Json>, timeout: int)

  datatype AttemptOutcome =
    | Responded(status: int, statusText: string, body: Json)
    | BodyUnparseable(status: int, parseError: string)
    | TransportFailed(error: string)

  /** What the attempt's `catch` sees: the error's message and, for HTTP errors, its status. */
  datatype AttemptError = AttemptError(message: string, status: Option<int>)

  datatype ApiResponse =
    | Success(data: Json)
    | Failure(code: string, message: string, status: Option<int>)

  datatype Event = Acquire | Send(call: HttpCall) | Backoff(baseMs: int)

  /** `response.ok`. */
  predicate IsOkStatus(status: int) {
    200 <= status <= 299
  }

  /**
   * `responseData.message`, rendered, when it is truthy: only an object with a
   * truthy `message` field supplies one, and a string message is kept verbatim.
   */
  function MessageField(body: Json): (r: Option<string>)
    ensures r.Some? <==> body.Obj? && "message" in Keys(body.fields) && Truthy(Lookup(body.fields, "message").value)
    ensures r.Some? && Lookup(body.fields, "message").value.Str? ==> r.value == Lookup(body.fields, "message").value.s
  {
    if body.Obj? then
      match Lookup(body.fields, "message")
      case Some(m) => if Truthy(m) then Some(Render(m)) else None
      case None => None
    else None
  }

  /** `API Error: <status> <body.message || statusText>`. */
  function HttpErrorMessage(status: int, statusText: string, body: Json): string {
    "API Error: " + IntToDecimal(status) + " " + MessageField(body).GetOr(statusText)
  }

  /**
   * The HTTP error message is the fixed prefix, the status in decimal (which
   * reads back as the status), a space, and the detail: the body's message
   * when it has a truthy one, the status text otherwise.
   */
  lemma HttpErrorMessageParts(status: int, statusText: string, body: Json)
    ensures var m, d := HttpErrorMessage(status, statusText, body), |IntToDecimal(status)|;
      && |m| >= 12 + d
      && m[..11] == "API Error: "
      && ParseDecimal(m[11..11 + d]) == Some(status)
      && m[11 + d] == ' '
      && m[12 + d..] == if MessageField(body).Some? then MessageField(body).value else statusText
  {
    DecimalRoundTrip(status);
    ConcatSlices("API Error: ", IntToDecimal(status), " ", MessageField(body).GetOr(statusText));
  }

  lemma ConcatSlices(a: string, b: string, c: string, d: string)
    ensures var m := a + b + c + d;
      && m[..|a|] == a
      && m[|a|..|a| + |b|] == b
      && m[|a| + |b|..|a| + |b| + |c|] == c
      && m[|a| + |b| + |c|..] == d
  {
    var m := a + b + c + d;
    assert m == a + (b + (c + d));
    assert m[|a|..] == b + (c + d);
    assert m[|a| + |b|..] == c + d;
  }

  /**
   * The outcome of one attempt: parsing comes before the status check, and an
   * error status with a `null` body fails while building the message, so
   * without a status.
   */
  function AttemptResult(o: AttemptOutcome): (r: Result<Json, AttemptError>)
    ensures r.Ok? <==> o.Responded? && IsOkStatus(o.status)
    ensures r.Ok? ==> r.value == o.body
    ensures r.Err? ==> (r.error.status.Some? <==> o.Responded? && !o.body.Null?)
    ensures r.Err? && r.error.status.Some? ==> r.error.status.value == o.status
    ensures o.BodyUnparseable? ==> r.error.message == o.parseError
    ensures o.TransportFailed? ==> r.error.message == o.error
  {
    match o
    case Responded(status, statusText, body) =>
      if IsOkStatus(status) then Ok(body)
      else if body.Null? then Err(AttemptError(NullBodyError, None))
      else Err(AttemptError(HttpErrorMessage(status, statusText, body), Some(status)))
    case BodyUnparseable(_, parseError) => Err(AttemptError(parseError, None))
    case TransportFailed(error) => Err(AttemptError(error, None))
  }

  predicate Succeeds(o: AttemptOutcome) {
    AttemptResult(o).Ok?
  }

  /** The number of attempts the loop `while (attempts <= maxRetries)` allows. */
  function Budget(maxRetries: int): nat {
    if maxRetries < 0 then 0 else maxRetries + 1
  }

  function Pow2(k: nat): (p: nat)
    ensures p >= 1
  {
    if k == 0 then 1 else 2 * Pow2(k - 1)
  }

  /** The delay after failure number `failures` (from 1), before jitter: `retryDelay * 2^(failures-1)`. */
  function BackoffBase(retryDelay: int, failures: nat): int
    requires failures >= 1
  {
    retryDelay * Pow2(failures - 1)
  }

  /**
   * The terminal failure, folded from the last error: always `request_failed`
   * with a non-empty message, the last error's message when it has one, and
   * the last error's status.
   */
  function Exhausted(lastError: Option<AttemptError>): (r: ApiResponse)
    ensures r.Failure? && r.code == RequestFailedCode && r.message != ""
    ensures r.status == if lastError.Some? then lastError.value.status else None
    ensures lastError.Some? && lastError.value.message != "" ==> r.message == lastError.value.message
    ensures lastError.None? || lastError.value.message == "" ==> r.message == ExhaustedMessage
  {
    match lastError
    case Some(e) => Failure(RequestFailedCode, if e.message != "" then e.message else ExhaustedMessage, e.status)
    case None => Failure(RequestFailedCode, ExhaustedMessage, None)
  }

  // ---------------------------------------------------------------------------
  // The URL and the body

  /** The parameters `URLSearchParams` receives: entries whose value is present, in order. */
  function PresentParams(q: Query): (ps: seq<(string, string)>)
    ensures forall k, v :: (k, v) in ps <==> (k, Some(v)) in q
    ensures |ps| <= |q|
  {
    if q == [] then []
    else
      var last := q[|q| - 1];
      var init := PresentParams(q[..|q| - 1]);
      assert q == q[..|q| - 1] + [last];
      if last.1.Some? then init + [(last.0, last.1.value)] else init
  }

  lemma {:induction false} PresentParamsAppend(a: Query, b: Query)
    ensures PresentParams(a + b) == PresentParams(a) + PresentParams(b)
    decreases |b|
  {
    if b == [] {
      assert a + b == a;
    } else {
      var b' := b[..|b| - 1];
      assert (a + b)[..|a + b| - 1] == a + b';
      assert (a + b)[|a + b| - 1] == b[|b| - 1];
      PresentParamsAppend(a, b');
    }
  }

  /** `baseUrl + path`, then `?` and the parameters only when the query has at least one key. */
  function UrlFor(baseUrl: string, path: string, query: Option<Query>): Url {
    if query.Some? && |query.value| > 0 then Url(baseUrl, path, Some(PresentParams(query.value)))
    else Url(baseUrl, path, None)
  }

  // ---------------------------------------------------------------------------
  // The retry loop, specified

  /** The first successful attempt among `from..budget-1`, if any. */
  function FirstSuccess(transport: nat -> AttemptOutcome, from: nat, budget: nat): (r: Option<nat>)
    ensures r.Some? ==> from <= r.value < budget && Succeeds(transport(r.value))
    ensures r.Some? ==> forall j :: from <= j < r.value ==> !Succeeds(transport(j))
    ensures r.None? ==> forall j :: from <= j < budget ==> !Succeeds(transport(j))
    decreases budget - from
  {
    if from >= budget then None
    else if Succeeds(transport(from)) then Some(from)
    else FirstSuccess(transport, from + 1, budget)
  }

  /** The events of attempt `k`: acquire, send, and a backoff when it failed and a retry follows. */
  function AttemptEvents(call: HttpCall, o: AttemptOutcome, k: nat, maxRetries: int, retryDelay: int): seq<Event> {
    [Acquire, Send(call)] + if !Succeeds(o) && k + 1 <= maxRetries then [Backoff(BackoffBase(retryDelay, k + 1))] else []
  }

  /** The events of attempts `0..n-1`. */
  function TraceOf(call: HttpCall, transport: nat -> AttemptOutcome, n: nat, maxRetries: int, retryDelay: int): seq<Event> {
    if n == 0 then [] else TraceOf(call, transport, n - 1, maxRetries, retryDelay) + AttemptEvents(call, transport(n - 1), n - 1, maxRetries, retryDelay)
  }

  /**
   * The result of a request and the number of transport invocations: the
   * first successful attempt within the budget wins; otherwise every attempt
   * ran and the last error is folded into the failure.
   */
  function Expected(transport: nat -> AttemptOutcome, maxRetries: int): (res: (ApiResponse, nat))
    ensures res.1 <= Budget(maxRetries)
    ensures res.0.Success? <==> exists k :: 0 <= k < Budget(maxRetries) && Succeeds(transport(k))
    ensures res.0.Success? ==> res.1 >= 1 && Succeeds(transport(res.1 - 1)) && res.0.data == AttemptResult(transport(res.1 - 1)).value
    ensures forall j :: 0 <= j < res.1 - 1 ==> !Succeeds(transport(j))
    ensures res.0.Failure? ==> res.1 == Budget(maxRetries) && res.0.code == RequestFailedCode
  {
    var budget := Budget(maxRetries);
    match FirstSuccess(transport, 0, budget)
    case Some(k) => (Success(AttemptResult(transport(k)).value), k + 1)
    case None =>
      (Exhausted(if budget == 0 then None else Some(AttemptResult(transport(budget - 1)).error)), budget)
  }

  // ---------------------------------------------------------------------------
  // Properties of the retry loop

  function CountSends(t: seq<Event>): nat {
    if t == [] then 0 else CountSends(t[..|t| - 1]) + if t[|t| - 1].Send? then 1 else 0
  }

  function CountAcquires(t: seq<Event>): nat {
    if t == [] then 0 else CountAcquires(t[..|t| - 1]) + if t[|t| - 1].Acquire? then 1 else 0
  }

  lemma {:induction false} CountsAppend(a: seq<Event>, b: seq<Event>)
    ensures CountSends(a + b) == CountSends(a) + CountSends(b)
    ensures CountAcquires(a + b) == CountAcquires(a) + CountAcquires(b)
    decreases |b|
  {
    if b == [] {
      assert a + b == a;
    } else {
      assert (a + b)[..|a + b| - 1] == a + b[..|b| - 1];
      CountsAppend(a, b[..|b| - 1]);
    }
  }

  /** A trace of `n` attempts sends exactly `n` requests and acquires the limiter exactly `n` times. */
  lemma {:induction false} TraceCounts(call: HttpCall, transport: nat -> AttemptOutcome, n: nat, maxRetries: int, retryDelay: int)
    ensures CountSends(TraceOf(call, transport, n, maxRetries, retryDelay)) == n
    ensures CountAcquires(TraceOf(call, transport, n, maxRetries, retryDelay)) == n
  {
    if n > 0 {
      TraceCounts(call, transport, n - 1, maxRetries, retryDelay);
      var e := AttemptEvents(call, transport(n - 1), n - 1, maxRetries, retryDelay);
      CountsAppend(TraceOf(call, transport, n - 1, maxRetries, retryDelay), e);
      AttemptEventCounts(call, transport(n - 1), n - 1, maxRetries, retryDelay);
    }
  }

  lemma AttemptEventCounts(call: HttpCall, o: AttemptOutcome, k: nat, maxRetries: int, retryDelay: int)
    ensures CountSends(AttemptEvents(call, o, k, maxRetries, retryDelay)) == 1
    ensures CountAcquires(AttemptEvents(call, o, k, maxRetries, retryDelay)) == 1
  {
    var head: seq<Event> := [Acquire, Send(call)];
    var first: seq<Event> := [Acquire];
    assert head[..1] == first && first[..0] == [];
    var tail: seq<Event> := if !Succeeds(o) && k + 1 <= maxRetries then [Backoff(BackoffBase(retryDelay, k + 1))] else [];
    if tail != [] {
      assert tail[..0] == [];
    }
    CountsAppend(head, tail);
  }

  /** Every request sent is immediately preceded by an acquire of the limiter. */
  lemma {:induction false} AcquireBeforeEverySend(call: HttpCall, transport: nat -> AttemptOutcome, n: nat, maxRetries: int, retryDelay: int)
    ensures forall i :: 0 <= i < |TraceOf(call, transport, n, maxRetries, retryDelay)| && TraceOf(call, transport, n, maxRetries, retryDelay)[i].Send?
              ==> i > 0 && TraceOf(call, transport, n, maxRetries, retryDelay)[i - 1] == Acquire
  {
    if n > 0 {
      AcquireBeforeEverySend(call, transport, n - 1, maxRetries, retryDelay);
      var prefix := TraceOf(call, transport, n - 1, maxRetries, retryDelay);
      var e := AttemptEvents(call, transport(n - 1), n - 1, maxRetries, retryDelay);
      var t := prefix + e;
      forall i | 0 <= i < |t| && t[i].Send?
        ensures i > 0 && t[i - 1] == Acquire
      {
        if i >= |prefix| {
          assert t[i] == e[i - |prefix|];
          assert i - |prefix| == 1;
          assert t[i - 1] == e[0];
        } else {
          assert t[i] == prefix[i] && prefix[i].Send?;
          assert i > 0 && t[i - 1] == prefix[i - 1];
        }
      }
    }
  }

  /** Backoff delays follow failures 1..maxRetries only: never the last allowed attempt. */
  lemma NoBackoffAfterFinalAttempt(call: HttpCall, o: AttemptOutcome, maxRetries: int, retryDelay: int)
    requires maxRetries >= 0
    ensures AttemptEvents(call, o, maxRetries as nat, maxRetries, retryDelay) == [Acquire, Send(call)]
  {
  }

  /** With a non-negative base delay, each backoff base is double the previous one, starting at `retryDelay`. */
  lemma BackoffGrowth(retryDelay: int, k: nat)
    requires retryDelay >= 0 && k >= 1
    ensures BackoffBase(retryDelay, 1) == retryDelay
    ensures BackoffBase(retryDelay, k + 1) == 2 * BackoffBase(retryDelay, k)
    ensures BackoffBase(retryDelay, k) <= BackoffBase(retryDelay, k + 1)
  {
  }

  /**
   * A backoff base stays below `retryDelay * 2^k` for failure number `k`, so
   * every jittered delay `base * f` with `f` in [0.5, 1) does too.
   */
  lemma {:induction false} BackoffBounded(retryDelay: int, k: nat)
    requires retryDelay >= 0 && k >= 1
    ensures 0 <= BackoffBase(retryDelay, k) <= retryDelay * Pow2(k)
  {
    assert Pow2(k) == 2 * Pow2(k - 1);
  }

  /**
   * A failed request reports the last attempt's error: its status, and its
   * message unless that is empty; without any attempt, the default message
   * and no status.
   */
  lemma FailureReportsLastError(transport: nat -> AttemptOutcome, maxRetries: int)
    ensures var (r, n) := Expected(transport, maxRetries);
      r.Failure? && n > 0 ==>
        && AttemptResult(transport(n - 1)).Err?
        && var e := AttemptResult(transport(n - 1)).error;
        && r.status == e.status
        && r.message == if e.message != "" then e.message else ExhaustedMessage
    ensures var (r, n) := Expected(transport, maxRetries);
      n == 0 ==> r == Failure(RequestFailedCode, ExhaustedMessage, None)
  {
  }

  /** A successful attempt within `maxRetries + 1` attempts ends the retries, at the latest there. */
  lemma SuccessEndsRetries(transport: nat -> AttemptOutcome, maxRetries: int, k: nat)
    requires k < Budget(maxRetries) && Succeeds(transport(k))
    ensures Expected(transport, maxRetries).0.Success?
    ensures Expected(transport, maxRetries).1 <= k + 1
  {
  }

  /**
   * An unparseable body is a failure without a status, even when the status
   * was not 2xx; so is an error status whose body is `null`.
   */
  lemma FailuresWithoutStatus(status: int, statusText: string, parseError: string)
    ensures AttemptResult(BodyUnparseable(status, parseError)) == Err(AttemptError(parseError, None))
    ensures !IsOkStatus(status) ==> AttemptResult(Responded(status, statusText, Null)) == Err(AttemptError(NullBodyError, None))
  {
  }

  /**
   * A non-2xx response with a non-null body fails with its status and the
   * message `API Error: <status> <detail>`, whose detail is the body's
   * `message` (rendered) when truthy and the status text otherwise.
   */
  lemma HttpErrorCarriesStatus(status: int, statusText: string, body: Json)
    requires !IsOkStatus(status) && !body.Null?
    ensures AttemptResult(Responded(status, statusText, body)).Err?
    ensures AttemptResult(Responded(status, statusText, body)).error.status == Some(status)
    ensures var m := AttemptResult(Responded(status, statusText, body)).error.message;
      var d := |IntToDecimal(status)|;
      var given := body.Obj? && "message" in Keys(body.fields) && Truthy(Lookup(body.fields, "message").value);
      && |m| >= 12 + d
      && m[..11] == "API Error: "
      && ParseDecimal(m[11..11 + d]) == Some(status)
      && m[11 + d] == ' '
      && (given ==> m[12 + d..] == Render(Lookup(body.fields, "message").value))
      && (!given ==> m[12 + d..] == statusText)
  {
    HttpErrorMessageParts(status, statusText, body);
  }

  /** No attempt runs when `maxRetries` is negative: the generic failure, without status. */
  lemma NegativeRetriesNeverSend(transport: nat -> AttemptOutcome, maxRetries: int)
    requires maxRetries < 0
    ensures Expected(transport, maxRetries) == (Failure(RequestFailedCode, ExhaustedMessage, None), 0)
  {
  }

  /** A server that always answers 500 is tried `maxRetries + 1` times; the failure carries status 500. */
  lemma AlwaysServerError(statusText: string, body: Json, maxRetries: nat)
    requires !body.Null?
    ensures var (r, n) := Expected(_ => Responded(500, statusText, body), maxRetries);
      n == maxRetries + 1 && r.Failure? && r.code == RequestFailedCode && r.status == Some(500)
      && r.message == HttpErrorMessage(500, statusText, body)
  {
  }

  /** Two failures then a 200: three attempts, and the body of the third is the data. */
  lemma SucceedsOnThirdAttempt(error: string, body: Json)
    ensures var transport := (k: nat) => if k < 2 then TransportFailed(error) else Responded(200, "OK", body);
      Expected(transport, DefaultMaxRetries) == (Success(body), 3)
  {
    var transport := (k: nat) => if k < 2 then TransportFailed(error) else Responded(200, "OK", body);
    assert Succeeds(transport(2));
    assert !Succeeds(transport(0)) && !Succeeds(transport(1));
  }

  // ---------------------------------------------------------------------------
  // The client

  class ApiClient {
    const baseUrl: string
    const headers: seq<(string, string)>
    const timeout: int

    constructor (baseUrl: string, headers: seq<(string, string)>, timeout: Option<int>)
      ensures this.baseUrl == baseUrl && this.headers == headers
      ensures this.timeout == timeout.GetOr(DefaultTimeout)
    {
      this.baseUrl := baseUrl;
      this.headers := headers;
      this.timeout := timeout.GetOr(DefaultTimeout);
    }

    /** What every attempt of a request with these options hands to `fetch`. */
    function CallFor(options: RequestOptions): HttpCall {
      HttpCall(options.httpMethod, UrlFor(baseUrl, options.path, options.query), headers, JsonArg(options.body), timeout)
    }

    /** Builds the URL, appending the present query parameters one by one. */
    method BuildUrl(path: string, query: Option<Query>) returns (url: Url)
      ensures url == UrlFor(baseUrl, path, query)
    {
      url := Url(baseUrl, path, None);
      if query.Some? && |query.value| > 0 {
        var q := query.value;
        var params: seq<(string, string)> := [];
        var i := 0;
        while i < |q|
          invariant 0 <= i <= |q|
          invariant params == PresentParams(q[..i])
        {
          var (key, value) := q[i];
          if value.Some? {
            params := params + [(key, value.value)];
          }
          assert q[..i + 1][..i] == q[..i];
          i := i + 1;
        }
        assert q[..|q|] == q;
        url := Url(baseUrl, path, Some(params));
      }
    }

    /**
     * Sends a request with retries. Returns the response, the number of
     * transport invocations and the trace of limiter acquires, sends and
     * backoffs.
     */
    method Request(options: RequestOptions, transport: nat -> AttemptOutcome)
      returns (response: ApiResponse, sent: nat, trace: seq<Event>)
      ensures var maxRetries := options.maxRetries.GetOr(DefaultMaxRetries);
        && (response, sent) == Expected(transport, maxRetries)
        && trace == TraceOf(CallFor(options), transport, sent, maxRetries, options.retryDelay.GetOr(DefaultRetryDelay))
      ensures sent <= Budget(options.maxRetries.GetOr(DefaultMaxRetries))
    {
      var maxRetries := options.maxRetries.GetOr(DefaultMaxRetries);
      var retryDelay := options.retryDelay.GetOr(DefaultRetryDelay);
      var budget := Budget(maxRetries);
      ghost var call := CallFor(options);
      var attempts: nat := 0;
      var lastError: Option<AttemptError> := None;
      trace := [];
      while attempts <= maxRetries
        invariant attempts <= budget
        invariant forall j :: 0 <= j < attempts ==> !Succeeds(transport(j))
        invariant lastError == if attempts == 0 then None else Some(AttemptResult(transport(attempts - 1)).error)
        invariant trace == TraceOf(call, transport, attempts, maxRetries, retryDelay)
        decreases budget - attempts
      {
        ghost var before := trace;
        trace := trace + [Acquire];
        var url := BuildUrl(options.path, options.query);
        var body := if Given(options.body) then options.body else None;
        var sending := HttpCall(options.httpMethod, url, headers, body, timeout);
        assert sending == call;
        trace := trace + [Send(sending)];
        assert trace == before + [Acquire, Send(call)];
        TraceExtends(call, transport, attempts, maxRetries, retryDelay);
        var outcome := AttemptResult(transport(attempts));
        if outcome.Ok? {
          ExpectedOnSuccess(transport, maxRetries, attempts);
          return Success(outcome.value), attempts + 1, trace;
        }
        lastError := Some(outcome.error);
        attempts := attempts + 1;
        if attempts <= maxRetries {
          trace := trace + [Backoff(BackoffBase(retryDelay, attempts))];
        }
      }
      ExpectedOnExhaustion(transport, maxRetries);
      response, sent := Exhausted(lastError), attempts;
    }
  }

  /** Attempt `k` extends the trace by an acquire, a send and, after a failure with a retry to come, a backoff. */
  lemma TraceExtends(call: HttpCall, transport: nat -> AttemptOutcome, k: nat, maxRetries: int, retryDelay: int)
    ensures TraceOf(call, transport, k + 1, maxRetries, retryDelay)
         == TraceOf(call, transport, k, maxRetries, retryDelay) + [Acquire, Send(call)]
            + if !Succeeds(transport(k)) && k + 1 <= maxRetries then [Backoff(BackoffBase(retryDelay, k + 1))] else []
  {
  }

  /** The first successful attempt within the budget decides the result. */
  lemma ExpectedOnSuccess(transport: nat -> AttemptOutcome, maxRetries: int, k: nat)
    requires k < Budget(maxRetries) && Succeeds(transport(k))
    requires forall j :: 0 <= j < k ==> !Succeeds(transport(j))
    ensures Expected(transport, maxRetries) == (Success(AttemptResult(transport(k)).value), k + 1)
  {
    FirstSuccessIsFirst(transport, Budget(maxRetries), k);
  }

  /** With no successful attempt, the result is the last error folded after every attempt. */
  lemma ExpectedOnExhaustion(transport: nat -> AttemptOutcome, maxRetries: int)
    requires forall j :: 0 <= j < Budget(maxRetries) ==> !Succeeds(transport(j))
    ensures Expected(transport, maxRetries)
         == (Exhausted(if Budget(maxRetries) == 0 then None else Some(AttemptResult(transport(Budget(maxRetries) - 1)).error)), Budget(maxRetries))
  {
    NoSuccessWithinBudget(transport, Budget(maxRetries));
  }

  lemma FirstSuccessIsFirst(transport: nat -> AttemptOutcome, budget: nat, k: nat)
    requires k < budget && Succeeds(transport(k))
    requires forall j :: 0 <= j < k ==> !Succeeds(transport(j))
    ensures FirstSuccess(transport, 0, budget) == Some(k)
  {
  }

  lemma NoSuccessWithinBudget(transport: nat -> AttemptOutcome, budget: nat)
    requires forall j :: 0 <= j < budget ==> !Succeeds(transport(j))
    ensures FirstSuccess(transport, 0, budget) == None
  {
  }
}
