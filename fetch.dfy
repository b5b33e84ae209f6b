/**
 * celestrak.go: the Client, one fetch attempt (fetchOnce) with its ETag cache, the retry
 * classifier and the retry loop (fetch). The network, the clock and the context are
 * oracles: each attempt of the loop is described by an Attempt value saying what the
 * context reported and what http.Client.Do returned.
 */
module Fetching {
  import opened Wrappers
  import opened Text
  import opened Errors
  import opened Queries

  const DefaultOrigin := Origin("https", "celestrak.org")
  const DefaultUserAgent := "celestrak-go/0.0.1"
  const DefaultMaxRetries := 3
  /** One second as a time.Duration, in nanoseconds. */
  const Second := 1_000_000_000
  /** maxResponseSize: 100 MiB. */
  const MaxResponseSize := 100 * 1024 * 1024
  /** How much of a non-2xx body becomes the error message: 8 KiB. */
  const ErrorBodyLimit := 8 * 1024

  const NilContextMessage := "context must be non-nil"
  const NotModifiedMessage := "304 Not Modified but no cached body available"
  const EmptyBodyMessage := "empty response body"
  const TooLargeMessage := "response too large (exceeds " + Decimal(MaxResponseSize) + " bytes)"

  /** The prefix of the error fetch returns once every attempt has failed. */
  function MaxRetriesPrefix(n: int): (p: string)
    ensures |p| == 23 + |Decimal(n)|
    ensures p[..13] == "max retries (" && p[|p| - 10..] == ") exceeded"
    ensures p[13..|p| - 10] == Decimal(n)
  {
    "max retries (" + Decimal(n) + ") exceeded"
  }

  /** The endpoints FetchGP, FetchGPFirst, FetchGPLast and FetchTable pass to fetch. */
  datatype Endpoint = GP | GPFirst | GPLast | Table {
    function Path(): (p: string)
      ensures p != ""
      ensures p == TableEndpoint <==> this == Table
    {
      match this
      case GP => "gp.php"
      case GPFirst => "gp-first.php"
      case GPLast => "gp-last.php"
      case Table => "table.php"
    }
  }

  /** Only FetchTable's endpoint carries the table flags: the others never send a flag key. */
  lemma EndpointNoFlags(q: Query, base: Origin, e: Endpoint)
    requires e != Table && Build(q, Some(base), e.Path()).Ok?
    ensures forall p :: p in Build(q, Some(base), e.Path()).value.query ==> p.key !in FlagKeys
  {
    BuildNoFlagsOffTable(q, Some(base), e.Path());
  }

  /** What the cache holds for one URL. */
  datatype Entry = Entry(data: seq<byte>, etag: string)

  /** The contents of a configured Cache, keyed by the full URL. */
  type Store = map<Url, Entry>

  /**
   * What http.Client.Do answered: status code and text, the whole body stream, the ETag
   * header, and whether reading the body fails.
   */
  datatype Response = Response(code: int, status: string, body: seq<byte>, etag: string, readFails: bool)

  /** Do either fails or returns a response. */
  datatype Outcome = TransportFailure | Received(response: Response)

  /** What ctx.Err() reports at the start of fetchOnce and after Do has failed. */
  datatype ContextView = ContextView(doneAtStart: bool, doneAfterFailure: bool)

  /**
   * One turn of fetch's loop: whether ctx.Err() is set before the attempt, whether the
   * select picks ctx.Done() over the timer, what fetchOnce's context reports, and Do's outcome.
   */
  datatype Attempt = Attempt(cancelledBefore: bool, cancelledDuringWait: bool, ctx: ContextView, outcome: Outcome)

  /** The request fetchOnce hands to Do: the URL and the two optional headers. */
  datatype Request = Request(url: Url, userAgent: Option<string>, ifNoneMatch: Option<string>)

  /** The Client settings fetch reads. */
  datatype Config = Config(origin: Origin, userAgent: string, maxRetries: int, retryDelay: int)

  /** One fetchOnce call: its result, the cache afterwards, and the request sent, if any. */
  datatype Step = Step(result: Result<seq<byte>>, cache: Option<Store>, sent: Option<Request>)

  /**
   * One fetch call: its result, the cache afterwards, the result of every fetchOnce call
   * in order, and every backoff delay waited out in order.
   */
  datatype Trace = Trace(result: Result<seq<byte>>, cache: Option<Store>, results: seq<Result<seq<byte>>>, waits: seq<int>)

  // ---------------------------------------------------------------- shouldRetry

  /**
   * shouldRetry: nil and a bare QueryError are final, a bare ErrorResponse is retried
   * when it is a server error, and every other error, wrapped ones included, is retried.
   */
  function ShouldRetry(err: Option<Error>): (r: bool)
    ensures r ==> err.Some? && !IsQueryError(err)
    ensures IsErrorResponse(err) ==> (r <==> err.value.resp.IsServerError())
    ensures err.Some? && !err.value.QueryErr? && !err.value.RespErr? ==> r
  {
    if err.None? then false
    else if IsQueryError(err) then false
    else if err.value.RespErr? then err.value.resp.IsServerError()
    else true
  }

  /** Whatever a wrapper holds, the wrapped error is retried. */
  lemma WrappedRetried(prefix: string, inner: Option<Error>)
    ensures ShouldRetry(Some(Wrapped(prefix, inner)))
  {
  }

  /** A 2xx, 3xx or 4xx ErrorResponse is final; 5xx is retried. */
  lemma StatusRetried(r: ErrorResponse)
    requires r.response.Some?
    ensures ShouldRetry(Some(RespErr(r))) <==> r.response.value.code >= 500
  {
  }

  // ---------------------------------------------------------------- fetchOnce

  /** The first min(n, |s|) elements: what io.LimitReader lets through. */
  function Prefix<T>(s: seq<T>, n: nat): (p: seq<T>)
    ensures |p| <= n && |p| <= |s|
    ensures |s| <= n ==> p == s
    ensures |s| > n ==> |p| == n
    ensures forall i :: 0 <= i < |p| ==> p[i] == s[i]
  {
    if |s| <= n then s else s[..n]
  }

  /** Get on a configured cache. */
  function Lookup(cache: Option<Store>, u: Url): (hit: Option<Entry>)
    ensures hit.Some? <==> cache.Some? && u in cache.value
    ensures hit.Some? ==> hit.value == cache.value[u]
  {
    if cache.Some? && u in cache.value then Some(cache.value[u]) else None
  }

  /** Put on a configured cache; no cache, nothing stored. */
  function Put(cache: Option<Store>, u: Url, e: Entry): (c: Option<Store>)
    ensures c.Some? <==> cache.Some?
    ensures c.Some? ==> u in c.value && c.value[u] == e
    ensures c.Some? ==> forall v :: v != u ==> (v in c.value <==> v in cache.value)
    ensures c.Some? ==> forall v :: v != u && v in cache.value ==> c.value[v] == cache.value[v]
  {
    if cache.Some? then Some(cache.value[u := e]) else None
  }

  /**
   * The message of an ErrorResponse for a non-2xx status: the first 8 KiB of the body with
   * ASCII white space trimmed from both ends, or the status text when nothing is left.
   */
  function ErrorMessage(resp: Response): (m: string)
    ensures m == resp.status || (m != "" && |m| <= ErrorBodyLimit)
  {
    var trimmed := AsText(Trim(Prefix(resp.body, ErrorBodyLimit), IsAsciiSpace));
    if trimmed == "" then resp.status else trimmed
  }

  /** The request for u: User-Agent when one is configured, If-None-Match when the hit has an ETag. */
  function RequestFor(cfg: Config, u: Url, hit: Option<Entry>): Request {
    Request(u,
            if cfg.userAgent != "" then Some(cfg.userAgent) else None,
            if hit.Some? && hit.value.etag != "" then Some(hit.value.etag) else None)
  }

  /** The exchange step of fetchOnce: from Do's outcome to the result and the cache afterwards. */
  function Exchange(cache: Option<Store>, u: Url, hit: Option<Entry>, req: Request, cancelled: bool, outcome: Outcome): Step {
    match outcome
    case TransportFailure =>
      var e := if cancelled then Wrapped("request cancelled", Some(ContextErr)) else Wrapped("request failed", Some(TransportErr));
      Step(Err(e), cache, Some(req))
    case Received(resp) =>
      var status := Some(HttpStatus(resp.code, resp.status));
      if resp.code == 304 then
        if hit.Some? then Step(Ok(hit.value.data), cache, Some(req))
        else Step(Err(RespErr(ErrorResponse(status, NotModifiedMessage))), cache, Some(req))
      else if resp.code < 200 || resp.code > 299 then
        Step(Err(RespErr(ErrorResponse(status, ErrorMessage(resp)))), cache, Some(req))
      else if resp.readFails then
        Step(Err(Wrapped("read response", Some(TransportErr))), cache, Some(req))
      else
        var body := Prefix(resp.body, MaxResponseSize);
        if |body| == MaxResponseSize && |resp.body| > MaxResponseSize then
          Step(Err(RespErr(ErrorResponse(status, TooLargeMessage))), cache, Some(req))
        else if |body| == 0 then
          Step(Err(RespErr(ErrorResponse(status, EmptyBodyMessage))), cache, Some(req))
        else
          Step(Ok(body), Put(cache, u, Entry(body, TrimSpace(resp.etag))), Some(req))
  }

  /**
   * fetchOnce as a function: the nil-context check, the context check, BuildURL, the
   * cache lookup, then the exchange with the server.
   */
  function Once(cfg: Config, cache: Option<Store>, ctx: Option<ContextView>, built: Result<Url>, outcome: Outcome): Step {
    if ctx.None? then Step(Err(QueryErr(QueryError(NilContextMessage))), cache, None)
    else if ctx.value.doneAtStart then Step(Err(Wrapped("context error", Some(ContextErr))), cache, None)
    else match built
      case Err(e) => Step(Err(Wrapped("build URL", Some(e))), cache, None)
      case Ok(u) =>
        var hit := Lookup(cache, u);
        Exchange(cache, u, hit, RequestFor(cfg, u, hit), ctx.value.doneAfterFailure, outcome)
  }

  // ---------------------------------------------------------------- properties of fetchOnce

  /** Checks that fail before any request is made: nil context, done context, bad query. */
  lemma OnceEarlyExits(cfg: Config, cache: Option<Store>, ctx: Option<ContextView>, built: Result<Url>, outcome: Outcome)
    ensures var s := Once(cfg, cache, ctx, built, outcome);
      && (ctx.None? ==> s.result == Err(QueryErr(QueryError(NilContextMessage))) && !ShouldRetry(Some(s.result.error)))
      && (ctx.Some? && ctx.value.doneAtStart ==>
            s.result == Err(Wrapped("context error", Some(ContextErr))) && ShouldRetry(Some(s.result.error)))
      && (ctx.Some? && !ctx.value.doneAtStart && built.Err? ==>
            s.result == Err(Wrapped("build URL", Some(built.error)))
            && ShouldRetry(Some(s.result.error)))
      && (s.sent.None? <==> ctx.None? || ctx.value.doneAtStart || built.Err?)
  {
  }

  /** The headers: User-Agent only when configured, If-None-Match only for a hit with an ETag. */
  lemma OnceRequest(cfg: Config, cache: Option<Store>, ctx: ContextView, built: Result<Url>, outcome: Outcome)
    requires !ctx.doneAtStart && built.Ok?
    ensures var u := built.value;
      var s := Once(cfg, cache, Some(ctx), built, outcome);
      && s.sent.Some? && s.sent.value.url == u
      && (s.sent.value.userAgent.Some? <==> cfg.userAgent != "")
      && (s.sent.value.userAgent.Some? ==> s.sent.value.userAgent.value == cfg.userAgent)
      && (s.sent.value.ifNoneMatch.Some? <==> cache.Some? && u in cache.value && cache.value[u].etag != "")
      && (s.sent.value.ifNoneMatch.Some? ==> s.sent.value.ifNoneMatch.value == cache.value[u].etag)
  {
  }

  /** Only a successful 2xx stores, and it stores the body under the URL with the trimmed ETag. */
  lemma OnceCache(cfg: Config, cache: Option<Store>, ctx: Option<ContextView>, built: Result<Url>, outcome: Outcome)
    ensures var s := Once(cfg, cache, ctx, built, outcome);
      && (s.result.Err? ==> s.cache == cache)
      && (s.cache.Some? <==> cache.Some?)
      && (s.cache != cache ==>
            s.result.Ok? && s.sent.Some? && outcome.Received?
            && s.cache == Some(cache.value[s.sent.value.url := Entry(s.result.value, TrimSpace(outcome.response.etag))]))
  {
  }

  /** What a successful fetchOnce returns: the cached bytes on a 304 hit, else the whole non-empty body within the cap. */
  lemma OnceSuccess(cfg: Config, cache: Option<Store>, ctx: Option<ContextView>, built: Result<Url>, outcome: Outcome)
    requires Once(cfg, cache, ctx, built, outcome).result.Ok?
    ensures var data := Once(cfg, cache, ctx, built, outcome).result.value;
      var u := built.value;
      && ctx.Some? && !ctx.value.doneAtStart && built.Ok? && outcome.Received?
      && ((outcome.response.code == 304 && cache.Some? && u in cache.value && data == cache.value[u].data)
          || (200 <= outcome.response.code <= 299 && data == outcome.response.body
              && 0 < |data| <= MaxResponseSize))
  {
  }

  /** 304: the cached bytes and no Put on a hit, whether or not If-None-Match was sent; a final error otherwise. */
  lemma OnceNotModified(cfg: Config, cache: Option<Store>, ctx: ContextView, built: Result<Url>, resp: Response)
    requires !ctx.doneAtStart && built.Ok? && resp.code == 304
    ensures var u := built.value;
      var s := Once(cfg, cache, Some(ctx), built, Received(resp));
      && s.cache == cache
      && (cache.Some? && u in cache.value ==> s.result == Ok(cache.value[u].data))
      && (!(cache.Some? && u in cache.value) ==>
            s.result == Err(RespErr(ErrorResponse(Some(HttpStatus(304, resp.status)), NotModifiedMessage)))
            && !ShouldRetry(Some(s.result.error)))
  {
  }

  /**
   * Other non-2xx statuses: an ErrorResponse carrying the status, whose message is the
   * trimmed head of the body or the status text; it is retried exactly for 5xx.
   */
  lemma OnceErrorStatus(cfg: Config, cache: Option<Store>, ctx: ContextView, built: Result<Url>, resp: Response)
    requires !ctx.doneAtStart && built.Ok?
    requires resp.code != 304 && (resp.code < 200 || resp.code > 299)
    ensures var s := Once(cfg, cache, Some(ctx), built, Received(resp));
      var head := Prefix(resp.body, ErrorBodyLimit);
      && s.cache == cache
      && s.result.Err? && s.result.error.RespErr?
      && s.result.error.resp.response == Some(HttpStatus(resp.code, resp.status))
      && (IsBlank(TrimSpace(AsText(head))) || !IsAscii(head) ||
            s.result.error.resp.message == TrimSpace(AsText(head)))
      && (IsAscii(head) && IsBlank(AsText(head)) ==> s.result.error.resp.message == resp.status)
      && (ShouldRetry(Some(s.result.error)) <==> resp.code >= 500)
  {
    var head := Prefix(resp.body, ErrorBodyLimit);
    if IsAscii(head) {
      TrimAsciiBody(head);
    }
  }

  /**
   * A readable 2xx: success exactly when the body is non-empty and within the cap, and
   * then the body is returned whole; a body at the cap with more behind it is "too large".
   */
  lemma OnceBody(cfg: Config, cache: Option<Store>, ctx: ContextView, built: Result<Url>, resp: Response)
    requires !ctx.doneAtStart && built.Ok?
    requires 200 <= resp.code <= 299 && !resp.readFails
    ensures var s := Once(cfg, cache, Some(ctx), built, Received(resp));
      var status := Some(HttpStatus(resp.code, resp.status));
      && (s.result.Ok? <==> 0 < |resp.body| <= MaxResponseSize)
      && (s.result.Ok? ==> s.result.value == resp.body)
      && (|resp.body| > MaxResponseSize ==> s.result == Err(RespErr(ErrorResponse(status, TooLargeMessage))))
      && (|resp.body| == 0 ==> s.result == Err(RespErr(ErrorResponse(status, EmptyBodyMessage))))
  {
  }

  /**
   * When Do fails, the error says "request cancelled" if the context is done by then and
   * "request failed" otherwise; both are retried and the cache is left alone.
   */
  lemma OnceTransportFailure(cfg: Config, cache: Option<Store>, ctx: ContextView, built: Result<Url>)
    requires !ctx.doneAtStart && built.Ok?
    ensures var s := Once(cfg, cache, Some(ctx), built, TransportFailure);
      && s.cache == cache && s.sent.Some?
      && s.result == Err(if ctx.doneAfterFailure then Wrapped("request cancelled", Some(ContextErr))
                         else Wrapped("request failed", Some(TransportErr)))
      && ShouldRetry(Some(s.result.error))
  {
  }

  /** A 2xx whose body cannot be read gives the retried "read response" error and no Put. */
  lemma OnceReadFails(cfg: Config, cache: Option<Store>, ctx: ContextView, built: Result<Url>, resp: Response)
    requires !ctx.doneAtStart && built.Ok?
    requires 200 <= resp.code <= 299 && resp.readFails
    ensures var s := Once(cfg, cache, Some(ctx), built, Received(resp));
      && s.cache == cache
      && s.result == Err(Wrapped("read response", Some(TransportErr)))
      && ShouldRetry(Some(s.result.error))
  {
  }

  /** A successful 2xx with a cache does one Put of the body and trimmed ETag, even an empty one. */
  lemma OnceStores(cfg: Config, store: Store, ctx: ContextView, built: Result<Url>, resp: Response)
    requires !ctx.doneAtStart && built.Ok?
    requires 200 <= resp.code <= 299 && !resp.readFails && 0 < |resp.body| <= MaxResponseSize
    ensures var u := built.value;
      Once(cfg, Some(store), Some(ctx), built, Received(resp))
      == Step(Ok(resp.body), Some(store[u := Entry(resp.body, TrimSpace(resp.etag))]), Once(cfg, Some(store), Some(ctx), built, Received(resp)).sent)
  {
  }

  /** The cap as the size message spells it out with %d. */
  lemma CapDigits()
    ensures Decimal(MaxResponseSize) == "104857600"
  {
    assert MaxResponseSize == 104857600;
    assert Digits(1) == "1";
    assert Digits(10) == Digits(1) + "0";
    assert Digits(104) == Digits(10) + "4";
    assert Digits(1048) == Digits(104) + "8";
    assert Digits(10485) == Digits(1048) + "5";
    assert Digits(104857) == Digits(10485) + "7";
    assert Digits(1048576) == Digits(104857) + "6";
    assert Digits(10485760) == Digits(1048576) + "0";
    assert Digits(104857600) == Digits(10485760) + "0";
  }

  // ---------------------------------------------------------------- fetch

  /** 2 to the power n. */
  function Pow2(n: nat): nat {
    if n == 0 then 1 else 2 * Pow2(n - 1)
  }

  /** Attempt a gets as far as fetchOnce: no cancellation before it, nor during its wait. */
  predicate Live(a: Attempt, attempt: nat) {
    !a.cancelledBefore && (attempt > 0 ==> !a.cancelledDuringWait)
  }

  /** A failed fetchOnce result that shouldRetry lets the loop go round on. */
  predicate Retryable(r: Result<seq<byte>>) {
    r.Err? && ShouldRetry(Some(r.error))
  }

  /** The error of a failed result. */
  function ErrorOf(r: Result<seq<byte>>): Option<Error> {
    if r.Err? then Some(r.error) else None
  }

  /** One fetchOnce call, from the cache it finds, for the attempt it is made in. */
  type Attempter = (Option<Store>, Attempt) -> Step

  /** fetchOnce for a client with settings cfg, for the URL the query builds to. */
  function OnceFor(cfg: Config, built: Result<Url>): Attempter {
    (c: Option<Store>, a: Attempt) => Once(cfg, c, Some(a.ctx), built, a.outcome)
  }

  /** Earlier results and waits in front of a trace. */
  function Then(results: seq<Result<seq<byte>>>, waits: seq<int>, t: Trace): Trace {
    Trace(t.result, t.cache, results + t.results, waits + t.waits)
  }

  /** The number of loop turns left from turn attempt on. */
  function Left(maxRetries: int, attempt: nat): nat {
    if attempt <= maxRetries then maxRetries + 1 - attempt else 0
  }

  /**
   * fetch from loop turn attempt on, with the current delay and last error: the context
   * check, the wait (not before the first attempt), fetchOnce, then return or go round.
   */
  function Run(maxRetries: int, cache: Option<Store>, env: nat -> Attempt, once: Attempter,
               attempt: nat, delay: int, lastErr: Option<Error>): Trace
    decreases Left(maxRetries, attempt)
  {
    if attempt > maxRetries then Trace(Err(Wrapped(MaxRetriesPrefix(maxRetries), lastErr)), cache, [], [])
    else
      var a := env(attempt);
      if a.cancelledBefore then Trace(Err(Wrapped("context cancelled", Some(ContextErr))), cache, [], [])
      else if attempt > 0 && a.cancelledDuringWait then
        Trace(Err(Wrapped("context cancelled during retry", Some(ContextErr))), cache, [], [])
      else
        var waits := if attempt > 0 then [delay] else [];
        var next := if attempt > 0 then delay * 2 else delay;
        var s := once(cache, a);
        if !Retryable(s.result) then Trace(s.result, s.cache, [s.result], waits)
        else Then([s.result], waits, Run(maxRetries, s.cache, env, once, attempt + 1, next, Some(s.result.error)))
  }

  lemma ThenThen(r1: seq<Result<seq<byte>>>, w1: seq<int>, r2: seq<Result<seq<byte>>>, w2: seq<int>, t: Trace)
    ensures Then(r1, w1, Then(r2, w2, t)) == Then(r1 + r2, w1 + w2, t)
  {
    assert r1 + (r2 + t.results) == (r1 + r2) + t.results;
    assert w1 + (w2 + t.waits) == (w1 + w2) + t.waits;
  }

  /** A stop of the loop that is not a fetchOnce result: all retries spent, or the context cancelled. */
  predicate LoopStop(maxRetries: int, r: Result<seq<byte>>) {
    r.Err? && r.error.Wrapped?
    && (r.error.prefix == MaxRetriesPrefix(maxRetries)
        || r.error == Wrapped("context cancelled", Some(ContextErr))
        || r.error == Wrapped("context cancelled during retry", Some(ContextErr)))
  }

  /** fetchOnce is called at most once per loop turn left. */
  lemma {:induction false} RunBounded(maxRetries: int, cache: Option<Store>, env: nat -> Attempt, once: Attempter,
                                      attempt: nat, delay: int, lastErr: Option<Error>)
    ensures |Run(maxRetries, cache, env, once, attempt, delay, lastErr).results| <= Left(maxRetries, attempt)
    decreases Left(maxRetries, attempt)
  {
    if attempt <= maxRetries && Live(env(attempt), attempt) {
      var s := once(cache, env(attempt));
      var next := if attempt > 0 then delay * 2 else delay;
      if Retryable(s.result) {
        RunBounded(maxRetries, s.cache, env, once, attempt + 1, next, Some(s.result.error));
      }
    }
  }

  /**
   * There is no wait before the first attempt and one before every later one, and the
   * i-th wait is delay times 2^i.
   */
  lemma {:induction false} RunBackoff(maxRetries: int, cache: Option<Store>, env: nat -> Attempt, once: Attempter,
                                      attempt: nat, delay: int, lastErr: Option<Error>)
    ensures var t := Run(maxRetries, cache, env, once, attempt, delay, lastErr);
      && |t.waits| == (if attempt > 0 || t.results == [] then |t.results| else |t.results| - 1)
      && forall i :: 0 <= i < |t.waits| ==> t.waits[i] == delay * Pow2(i)
    decreases Left(maxRetries, attempt)
  {
    if attempt <= maxRetries && Live(env(attempt), attempt) {
      var s := once(cache, env(attempt));
      var next := if attempt > 0 then delay * 2 else delay;
      if Retryable(s.result) {
        var t := Run(maxRetries, cache, env, once, attempt, delay, lastErr);
        var rest := Run(maxRetries, s.cache, env, once, attempt + 1, next, Some(s.result.error));
        RunBackoff(maxRetries, s.cache, env, once, attempt + 1, next, Some(s.result.error));
        assert t.waits == (if attempt > 0 then [delay] else []) + rest.waits;
        forall i | 0 <= i < |t.waits| ensures t.waits[i] == delay * Pow2(i) {
          if attempt > 0 && i > 0 {
            assert t.waits[i] == rest.waits[i - 1] == next * Pow2(i - 1);
          }
        }
      }
    }
  }

  /**
   * Every fetchOnce result before the last is a retryable error; a success or a final error
   * is returned as it is, without wrapping; anything else returned is one of the loop's stops.
   */
  lemma {:induction false} RunShape(maxRetries: int, cache: Option<Store>, env: nat -> Attempt, once: Attempter,
                                    attempt: nat, delay: int, lastErr: Option<Error>)
    ensures var t := Run(maxRetries, cache, env, once, attempt, delay, lastErr);
      && (forall i :: 0 <= i < |t.results| - 1 ==> Retryable(t.results[i]))
      && ((t.results != [] && !Retryable(t.results[|t.results| - 1])) ==> t.result == t.results[|t.results| - 1])
      && (t.result.Ok? ==> t.results != [] && t.result == t.results[|t.results| - 1])
      && (LoopStop(maxRetries, t.result) || (t.results != [] && t.result == t.results[|t.results| - 1]))
    decreases Left(maxRetries, attempt)
  {
    if attempt <= maxRetries && Live(env(attempt), attempt) {
      var s := once(cache, env(attempt));
      var next := if attempt > 0 then delay * 2 else delay;
      if Retryable(s.result) {
        var t := Run(maxRetries, cache, env, once, attempt, delay, lastErr);
        var rest := Run(maxRetries, s.cache, env, once, attempt + 1, next, Some(s.result.error));
        RunShape(maxRetries, s.cache, env, once, attempt + 1, next, Some(s.result.error));
        assert t.results == [s.result] + rest.results;
        if rest.results != [] {
          assert t.results[|t.results| - 1] == rest.results[|rest.results| - 1];
        }
        forall i | 0 <= i < |t.results| - 1 ensures Retryable(t.results[i]) {
          if i > 0 {
            assert t.results[i] == rest.results[i - 1];
          }
        }
      }
    }
  }

  /** A fetchOnce that leaves the cache alone whenever it fails. */
  ghost predicate KeepsCacheOnError(once: Attempter) {
    forall c, a :: once(c, a).result.Err? ==> once(c, a).cache == c
  }

  /** fetchOnce writes the cache only on success. */
  lemma OnceForKeepsCache(cfg: Config, built: Result<Url>)
    ensures KeepsCacheOnError(OnceFor(cfg, built))
  {
    forall c, a | OnceFor(cfg, built)(c, a).result.Err?
      ensures OnceFor(cfg, built)(c, a).cache == c
    {
      OnceCache(cfg, c, Some(a.ctx), built, a.outcome);
    }
  }

  /** A fetch that fails leaves the cache as it found it. */
  lemma {:induction false} RunKeepsCacheOnError(maxRetries: int, cache: Option<Store>, env: nat -> Attempt, once: Attempter,
                                                attempt: nat, delay: int, lastErr: Option<Error>)
    requires KeepsCacheOnError(once)
    ensures var t := Run(maxRetries, cache, env, once, attempt, delay, lastErr);
      t.result.Err? ==> t.cache == cache
    decreases Left(maxRetries, attempt)
  {
    if attempt <= maxRetries && Live(env(attempt), attempt) {
      var s := once(cache, env(attempt));
      var next := if attempt > 0 then delay * 2 else delay;
      if Retryable(s.result) {
        RunKeepsCacheOnError(maxRetries, s.cache, env, once, attempt + 1, next, Some(s.result.error));
      }
    }
  }

  /**
   * With a live context and only retryable failures, fetchOnce runs once per turn left
   * (none when maxRetries < 0), each result is that turn's failure, and the result wraps
   * the last failure as "max retries (N) exceeded".
   */
  lemma {:induction false} RunExhausts(maxRetries: int, cache: Option<Store>, env: nat -> Attempt, once: Attempter,
                                       attempt: nat, delay: int, lastErr: Option<Error>)
    requires KeepsCacheOnError(once)
    requires forall i :: attempt <= i <= maxRetries ==> Live(env(i), i) && Retryable(once(cache, env(i)).result)
    ensures var t := Run(maxRetries, cache, env, once, attempt, delay, lastErr);
      && |t.results| == Left(maxRetries, attempt)
      && (forall i :: 0 <= i < |t.results| ==> t.results[i] == once(cache, env(attempt + i)).result)
      && t.cache == cache
      && t.result == Err(Wrapped(MaxRetriesPrefix(maxRetries),
                                 if attempt <= maxRetries then ErrorOf(once(cache, env(maxRetries)).result) else lastErr))
    decreases Left(maxRetries, attempt)
  {
    if attempt <= maxRetries {
      var s := once(cache, env(attempt));
      var next := if attempt > 0 then delay * 2 else delay;
      assert s.cache == cache;
      var rest := Run(maxRetries, cache, env, once, attempt + 1, next, Some(s.result.error));
      RunExhausts(maxRetries, cache, env, once, attempt + 1, next, Some(s.result.error));
      var t := Run(maxRetries, cache, env, once, attempt, delay, lastErr);
      assert t.result == rest.result && t.cache == rest.cache;
      assert t.results == [s.result] + rest.results;
      forall i | 0 <= i < |t.results|
        ensures t.results[i] == once(cache, env(attempt + i)).result && Retryable(t.results[i])
      {
        if i > 0 {
          assert t.results[i] == rest.results[i - 1];
          assert attempt + 1 + (i - 1) == attempt + i;
        }
      }
    }
  }

  /**
   * The loop makes no fetchOnce call at or after a turn that finds the context cancelled
   * before its attempt or during its wait.
   */
  lemma {:induction false} RunStopsAtCancel(maxRetries: int, cache: Option<Store>, env: nat -> Attempt, once: Attempter,
                                            attempt: nat, delay: int, lastErr: Option<Error>, j: nat)
    requires attempt <= j && !Live(env(j), j)
    ensures |Run(maxRetries, cache, env, once, attempt, delay, lastErr).results| <= j - attempt
    decreases j - attempt
  {
    if attempt < j && attempt <= maxRetries && Live(env(attempt), attempt) {
      var s := once(cache, env(attempt));
      var next := if attempt > 0 then delay * 2 else delay;
      if Retryable(s.result) {
        RunStopsAtCancel(maxRetries, s.cache, env, once, attempt + 1, next, Some(s.result.error), j);
      }
    }
  }

  /**
   * When the turns before turn j go round on retryable failures and turn j finds the
   * context cancelled, fetch returns the cancellation, wrapped as that turn's check
   * words it, after exactly one fetchOnce per earlier turn.
   */
  lemma {:induction false} RunCancelled(maxRetries: int, cache: Option<Store>, env: nat -> Attempt, once: Attempter,
                                        attempt: nat, delay: int, lastErr: Option<Error>, j: nat)
    requires KeepsCacheOnError(once)
    requires attempt <= j <= maxRetries && !Live(env(j), j)
    requires forall i :: attempt <= i < j ==> Live(env(i), i) && Retryable(once(cache, env(i)).result)
    ensures var t := Run(maxRetries, cache, env, once, attempt, delay, lastErr);
      && |t.results| == j - attempt
      && t.cache == cache
      && t.result == Err(Wrapped(if env(j).cancelledBefore then "context cancelled" else "context cancelled during retry",
                                 Some(ContextErr)))
    decreases j - attempt
  {
    if attempt < j {
      var s := once(cache, env(attempt));
      var next := if attempt > 0 then delay * 2 else delay;
      assert s.cache == cache;
      RunCancelled(maxRetries, cache, env, once, attempt + 1, next, Some(s.result.error), j);
    }
  }

  /**
   * With a live context, a URL that fails to build fails every attempt the same way:
   * fetchOnce runs maxRetries + 1 times and the result wraps the wrapped build error.
   */
  lemma BuildFailureRetried(cfg: Config, cache: Option<Store>, env: nat -> Attempt, built: Result<Url>)
    requires built.Err? && cfg.maxRetries >= 0
    requires forall i :: 0 <= i <= cfg.maxRetries ==> Live(env(i), i) && !env(i).ctx.doneAtStart
    ensures var e := Err(Wrapped("build URL", Some(built.error)));
      var t := Run(cfg.maxRetries, cache, env, OnceFor(cfg, built), 0, cfg.retryDelay, None);
      && |t.results| == cfg.maxRetries + 1
      && (forall i :: 0 <= i < |t.results| ==> t.results[i] == e)
      && t.result == Err(Wrapped(MaxRetriesPrefix(cfg.maxRetries), Some(e.error)))
      && t.cache == cache
  {
    var once := OnceFor(cfg, built);
    forall i | 0 <= i <= cfg.maxRetries
      ensures once(cache, env(i)).result == Err(Wrapped("build URL", Some(built.error)))
    {
      OnceEarlyExits(cfg, cache, Some(env(i).ctx), built, env(i).outcome);
    }
    OnceForKeepsCache(cfg, built);
    RunExhausts(cfg.maxRetries, cache, env, once, 0, cfg.retryDelay, None);
  }

  /**
   * As written, an invalid query is retried: IsQueryError does not see through the
   * "build URL" wrapper, so a query without exactly one selector (or an empty endpoint)
   * costs maxRetries + 1 attempts before "max retries (N) exceeded".
   */
  lemma InvalidQueryRetried(cfg: Config, cache: Option<Store>, env: nat -> Attempt, q: Query, endpoint: string)
    requires endpoint == "" || !ExactlyOneSelector(q)
    requires cfg.maxRetries >= 0
    requires forall i :: 0 <= i <= cfg.maxRetries ==> Live(env(i), i) && !env(i).ctx.doneAtStart
    ensures var built := Build(q, Some(cfg.origin), endpoint);
      var t := Run(cfg.maxRetries, cache, env, OnceFor(cfg, built), 0, cfg.retryDelay, None);
      && built.Err? && built.error.QueryErr?
      && |t.results| == cfg.maxRetries + 1
      && t.result == Err(Wrapped(MaxRetriesPrefix(cfg.maxRetries), Some(Wrapped("build URL", Some(built.error)))))
  {
    if endpoint != "" {
      BuildSucceedsIff(q, cfg.origin, endpoint);
    }
    BuildFailureRetried(cfg, cache, env, Build(q, Some(cfg.origin), endpoint));
  }

  /** With maxRetries < 0 the loop body never runs and the error wraps nil. */
  lemma NoAttempts(maxRetries: int, cache: Option<Store>, env: nat -> Attempt, once: Attempter, delay: int)
    requires maxRetries < 0
    ensures Run(maxRetries, cache, env, once, 0, delay, None)
         == Trace(Err(Wrapped(MaxRetriesPrefix(maxRetries), None)), cache, [], [])
  {
  }

  // ---------------------------------------------------------------- Client

  /** The Client: base URL, User-Agent, optional cache and retry settings. */
  class Client {
    var origin: Origin
    var userAgent: string
    var cache: Option<Store>
    var maxRetries: int
    /** The initial backoff delay, a time.Duration in nanoseconds. */
    var retryDelay: int

    function Settings(): Config
      reads this
    {
      Config(origin, userAgent, maxRetries, retryDelay)
    }

    /** NewClient: https://celestrak.org, the package's User-Agent, no cache, 3 retries from 1s. */
    constructor ()
      ensures origin == DefaultOrigin && userAgent == DefaultUserAgent && cache.None?
      ensures maxRetries == DefaultMaxRetries && retryDelay == Second
    {
      origin := DefaultOrigin;
      userAgent := DefaultUserAgent;
      cache := None;
      maxRetries := DefaultMaxRetries;
      retryDelay := Second;
    }

    /** WithRetries: sets both retry settings and returns the same client. */
    method WithRetries(n: int, delay: int) returns (c: Client)
      modifies this
      ensures c == this && maxRetries == n && retryDelay == delay
      ensures origin == old(origin) && userAgent == old(userAgent) && cache == old(cache)
    {
      maxRetries := n;
      retryDelay := delay;
      return this;
    }

    /** WithCache: sets the cache and returns the same client. */
    method WithCache(store: Option<Store>) returns (c: Client)
      modifies this
      ensures c == this && cache == store
      ensures origin == old(origin) && userAgent == old(userAgent)
      ensures maxRetries == old(maxRetries) && retryDelay == old(retryDelay)
    {
      cache := store;
      return this;
    }

    /** WithUserAgent: sets the User-Agent and returns the same client. */
    method WithUserAgent(ua: string) returns (c: Client)
      modifies this
      ensures c == this && userAgent == ua
      ensures origin == old(origin) && cache == old(cache)
      ensures maxRetries == old(maxRetries) && retryDelay == old(retryDelay)
    {
      userAgent := ua;
      return this;
    }

    /** fetchOnce: one attempt; its only effect is the Put into the cache. */
    method FetchOnce(ctx: Option<ContextView>, q: Query, endpoint: string, outcome: Outcome)
      returns (r: Result<seq<byte>>, sent: Option<Request>)
      modifies this
      ensures Step(r, cache, sent) == Once(old(Settings()), old(cache), ctx, Build(q, Some(old(origin)), endpoint), outcome)
      ensures Settings() == old(Settings())
    {
      if ctx.None? {
        return Err(QueryErr(QueryError(NilContextMessage))), None;
      }
      if ctx.value.doneAtStart {
        return Err(Wrapped("context error", Some(ContextErr))), None;
      }
      var fullURL := BuildURL(q, Some(origin), endpoint);
      if fullURL.Err? {
        return Err(Wrapped("build URL", Some(fullURL.error))), None;
      }
      var cacheKey := fullURL.value;
      var cached: seq<byte> := [];
      var etag := "";
      var hasCache := false;
      if cache.Some? && cacheKey in cache.value {
        cached, etag, hasCache := cache.value[cacheKey].data, cache.value[cacheKey].etag, true;
      }
      var ua: Option<string> := None;
      if userAgent != "" {
        ua := Some(userAgent);
      }
      var ifNoneMatch: Option<string> := None;
      if hasCache && etag != "" {
        ifNoneMatch := Some(etag);
      }
      sent := Some(Request(cacheKey, ua, ifNoneMatch));
      ghost var hit := Lookup(cache, cacheKey);
      assert hasCache <==> hit.Some?;
      assert hasCache ==> hit.value == Entry(cached, etag);
      assert Once(Settings(), cache, ctx, Build(q, Some(origin), endpoint), outcome)
          == Exchange(cache, cacheKey, hit, sent.value, ctx.value.doneAfterFailure, outcome);
      if outcome.TransportFailure? {
        if ctx.value.doneAfterFailure {
          return Err(Wrapped("request cancelled", Some(ContextErr))), sent;
        }
        return Err(Wrapped("request failed", Some(TransportErr))), sent;
      }
      var resp := outcome.response;
      var status := Some(HttpStatus(resp.code, resp.status));
      if resp.code == 304 {
        if hasCache {
          return Ok(cached), sent;
        }
        return Err(RespErr(ErrorResponse(status, NotModifiedMessage))), sent;
      }
      if resp.code < 200 || resp.code > 299 {
        var b := Prefix(resp.body, ErrorBodyLimit);
        var message := AsText(Trim(b, IsAsciiSpace));
        if message == "" {
          message := resp.status;
        }
        return Err(RespErr(ErrorResponse(status, message))), sent;
      }
      if resp.readFails {
        return Err(Wrapped("read response", Some(TransportErr))), sent;
      }
      var body := Prefix(resp.body, MaxResponseSize);
      if |body| == MaxResponseSize {
        var more := |resp.body| > MaxResponseSize;
        if more {
          return Err(RespErr(ErrorResponse(status, TooLargeMessage))), sent;
        }
      }
      if |body| == 0 {
        return Err(RespErr(ErrorResponse(status, EmptyBodyMessage))), sent;
      }
      if cache.Some? {
        var newETag := TrimSpace(resp.etag);
        cache := Some(cache.value[cacheKey := Entry(body, newETag)]);
      }
      return Ok(body), sent;
    }

    /**
     * fetch: up to maxRetries + 1 attempts with a doubling delay between them, stopping at
     * a cancelled context, a success or a final error. env(i) is what turn i of the loop meets.
     */
    method Fetch(env: nat -> Attempt, q: Query, endpoint: string)
      returns (r: Result<seq<byte>>, ghost results: seq<Result<seq<byte>>>, ghost waits: seq<int>)
      modifies this
      ensures Trace(r, cache, results, waits)
              == Run(old(maxRetries), old(cache), env, OnceFor(old(Settings()), Build(q, Some(old(origin)), endpoint)),
                     0, old(retryDelay), None)
      ensures Settings() == old(Settings())
    {
      ghost var cfg := Settings();
      ghost var built := Build(q, Some(origin), endpoint);
      ghost var once := OnceFor(cfg, built);
      ghost var run := Run(cfg.maxRetries, cache, env, once, 0, retryDelay, None);
      var lastErr: Option<Error> := None;
      var delay := retryDelay;
      var attempt: nat := 0;
      results, waits := [], [];
      assert [] + run.results == run.results && [] + run.waits == run.waits;
      while attempt <= maxRetries
        invariant Settings() == cfg
        invariant run == Then(results, waits, Run(cfg.maxRetries, cache, env, once, attempt, delay, lastErr))
        decreases maxRetries + 1 - attempt
      {
        ghost var results0, waits0, delay0 := results, waits, delay;
        var a := env(attempt);
        if a.cancelledBefore {
          r := Err(Wrapped("context cancelled", Some(ContextErr)));
          assert results + [] == results && waits + [] == waits;
          return;
        }
        if attempt > 0 {
          if a.cancelledDuringWait {
            r := Err(Wrapped("context cancelled during retry", Some(ContextErr)));
            assert results + [] == results && waits + [] == waits;
            return;
          }
          waits := waits + [delay];
          delay := delay * 2;
        }
        ghost var w := if attempt > 0 then [delay0] else [];
        assert waits == waits0 + w;
        var data, sent := FetchOnce(Some(a.ctx), q, endpoint, a.outcome);
        results := results + [data];
        if data.Ok? {
          r := data;
          return;
        }
        lastErr := Some(data.error);
        if !ShouldRetry(lastErr) {
          r := data;
          return;
        }
        ThenThen(results0, waits0, [data], w, Run(cfg.maxRetries, cache, env, once, attempt + 1, delay, lastErr));
        attempt := attempt + 1;
      }
      r := Err(Wrapped(MaxRetriesPrefix(maxRetries), lastErr));
    }
  }
}
