# celestrak-go client core, modelled in Dafny

This project models the core of the `celestrak` Go package, a client for the CelesTrak
satellite-data service. It has three parts:

- The query builder (`Query`, the `QueryBy*` constructors, `BuildURL`, `singleSelector`,
  `addTableFlags`). It turns a query into the URL
  `https://celestrak.org/NORAD/elements/<endpoint>?<params>`.
- The error taxonomy (`ErrorResponse`, `QueryError`, `IsQueryError`, `IsErrorResponse`)
  and its retry classifier, `shouldRetry`.
- The fetch engine: the `Client` with its defaults and `With*` setters, one attempt
  (`fetchOnce`) with its ETag cache, and the retry loop (`fetch`) with doubling backoff and
  cancellation checks.

Files:

- `wrappers.dfy`: `Option`.
- `text.dfy` (module `Text`): the parts of Go's `strings`, `unicode`, `sort` and `fmt` the
  client relies on. These are `strings.TrimSpace`, `unicode.IsSpace`, byte-wise string
  order and `%d`.
- `errors.dfy` (module `Errors`): models `celestrak/errors.go`. Every error value is one
  datatype, `Error`. `Wrapped(prefix, inner)` stands for `fmt.Errorf("prefix: %w", inner)`.
- `query.dfy` (module `Queries`): models `celestrak/query.go`.
  - `Selector` and `Build` state what `singleSelector` and `BuildURL` compute.
  - The methods `SingleSelector`, `OfferAll`/`Offer` (the closure `set`), `AddTableFlags`,
    `NewParams` and `BuildURL` are the imperative code. Each is proved equal to those
    functions.
  - `url.Values` is the class `Values`. Its `pairs` field is updated in place by `Set`.
  - `Encode` sorts by key.
- `fetch.dfy` (module `Fetching`): models `celestrak/celestrak.go` and the endpoint
  strings of `celestrak/gp.go` and `celestrak/table.go`.
  - `Once` states what `fetchOnce` computes.
  - `Run` states what `fetch` computes: its result, the cache afterwards, every
    `fetchOnce` result in order and every backoff delay in order.
  - `Client.FetchOnce` and `Client.Fetch` are the imperative code over the `Client`'s
    fields, with the `cache` field as a map. Each is proved equal to its function.

The network, the clock and the context are inputs to the model:

- `http.Client.Do` answers with an `Outcome`: a transport failure, or a `Response` with
  status code, status text, the whole body stream, the `ETag` header, and whether reading
  fails.
- `ctx.Err()` is a `ContextView`, read at the start of `fetchOnce` and after a failed `Do`.
- Each turn `i` of the retry loop meets `env(i)`. That value says whether the context is
  cancelled before the attempt, and whether `ctx.Done()` wins the `select` during the wait.

The waits are recorded as integers (nanoseconds), not slept.

Where the comments or the documentation and the code disagree, the model follows the code:

- Parameters come out sorted by key, because `url.Values.Encode` sorts. They are not in
  `Set` order.
- The comment at `celestrak/celestrak.go:98` says query errors are not retried. But
  `fetchOnce` wraps the builder's `QueryError` as `"build URL: %w"`, and `IsQueryError`
  is a bare type assertion. So `shouldRetry` returns true, and an invalid query costs
  `maxRetries + 1` attempts. `Fetching.InvalidQueryRetried` states this.
- A successful 2xx with a cache stores the body even when the `ETag` header is empty.
- A 304 without a cached entry is an error. A 304 with a cache hit returns the cached
  bytes even if no `If-None-Match` was sent.

## Model

| member | source | states |
|---|---|---|
| `Errors.ErrorResponse.Error` | celestrak/errors.go:14-16 | the text is "celestrak: ", then the status text, then ": ", then the message, piece by piece and with that total length; it needs a non-nil Response |
| `Errors.ResponseTextInjective` | celestrak/errors.go:14-16 | under the same status text, equal error texts mean equal messages |
| `Errors.ErrorResponse.IsNotFound` | celestrak/errors.go:18-21 | 404 implies a client error, and neither a rate limit nor a server error |
| `Errors.ErrorResponse.IsRateLimit` | celestrak/errors.go:23-26 | 429 implies a client error and not a server error |
| `Errors.ErrorResponse.IsServerError` | celestrak/errors.go:28-31 | a server error has a Response and is not a client error |
| `Errors.ClientServerDisjoint` | celestrak/errors.go:28-36 | no status is both a client error (400-499) and a server error (500 and up) |
| `Errors.NilResponseHasNoStatus` | celestrak/errors.go:19-36 | with a nil Response none of the four status predicates holds |
| `Errors.QueryError.Error` | celestrak/errors.go:43-45 | the text is "celestrak: query error: " followed by the message |
| `Errors.QueryErrorTextInjective` | celestrak/errors.go:43-45 | two query errors with the same text have the same message |
| `Errors.ErrorResponse.IsClientError` | celestrak/errors.go:33-36 | a client error has a Response; ClientServerDisjoint and NilResponseHasNoStatus state the rest |
| `Errors.IsErrorResponse` | celestrak/errors.go:53-57 | the bare type check for ErrorResponse; no contract of its own, and IsQueryError and ShouldRetry state what it excludes and decides |
| `Errors.IsQueryError` | celestrak/errors.go:47-57 | the two type checks never hold together |
| `Errors.WrappedIsNeitherKind` | celestrak/errors.go:47-57 | neither type check holds for a wrapped error, whatever it wraps |
| `Text.IsSpace` | celestrak/query.go:94 | unicode.IsSpace: the Latin-1 white space and the other Unicode White_Space code points; no contract of its own |
| `Text.TrimSpace` | celestrak/query.go:94 | strings.TrimSpace: by TrimIsMiddle it is the middle slice of the input with only leading and trailing white space cut, and by Trim its ends are not white space |
| `Text.Trim` | celestrak/query.go:94 | TrimSpace is no longer than its input, is empty exactly when the input is all white space, and neither starts nor ends with white space |
| `Text.TrimIsMiddle` | celestrak/query.go:94 | the trimmed string is s[lo..hi] where everything before lo and from hi on is white space; with Trim's non-space ends this fixes the result exactly |
| `Text.TrimFixpoint` | celestrak/query.go:94 | trimming leaves a string alone exactly when it is empty or neither starts nor ends with white space |
| `Text.TrimIdempotent` | celestrak/query.go:94 | trimming twice is trimming once |
| `Text.TrimAsciiBody` | celestrak/celestrak.go:179-180 | on an ASCII body, trimming the bytes and then reading them as text equals strings.TrimSpace of the text |
| `Text.AsText` | celestrak/celestrak.go:180 | each byte read as the character with the same code: same length, same codes; equal to string(b) on ASCII bodies |
| `Text.Less` | celestrak/query.go:88 | the key order sort.Strings uses; no contract of its own, and LessTransitive, LessTotal and LessAsymmetric make it a strict total order |
| `Text.LessTransitive` | celestrak/query.go:88 | the key order Encode sorts by is transitive |
| `Text.LessTotal` | celestrak/query.go:88 | any two different keys are ordered one way or the other |
| `Text.LessAsymmetric` | celestrak/query.go:88 | no two keys are ordered both ways |
| `Queries.NonBlank` | celestrak/query.go:93-97 | the trimmed non-blank fields are no more than the fields, and every value kept is non-empty |
| `Queries.Selector` | celestrak/query.go:92-118 | a selected key is one of the five selector names and has a non-empty value; the only errors are "set exactly one of …" and "missing selector …" |
| `Queries.SelectorSingle` | celestrak/query.go:92-118 | when exactly field i is non-blank, the result is field i's key and its trimmed value |
| `Queries.SelectorAmbiguous` | celestrak/query.go:98-101 | two non-blank fields give the "set exactly one of …" QueryError |
| `Queries.SelectorMissing` | celestrak/query.go:114-116 | no non-blank field gives the "missing selector …" QueryError |
| `Queries.SelectorSucceedsIff` | celestrak/query.go:92-118 | singleSelector succeeds exactly when exactly one of the five fields is non-blank |
| `Queries.OfferedTracks` | celestrak/query.go:93-109 | after any run of set calls, the captured key/val/err are the first non-blank field, with the error recorded once a second one shows up (later fields ignored) |
| `Queries.TracksSelector` | celestrak/query.go:111-117 | after the five calls, the captured state decides the selector result |
| `Queries.SetStep` | celestrak/query.go:93-103 | one call of the closure set; no contract of its own, and Offer is proved to perform it |
| `Queries.Offered` | celestrak/query.go:105-109 | the closure's state after set has run over the fields in order; no contract of its own, and OfferedTracks ties it to counting the non-blank fields |
| `Queries.Offer` | celestrak/query.go:93-103 | one call of the closure set is one SetStep: skip when the value is blank or an error is recorded, flag a second selector, otherwise record the key and the trimmed value |
| `Queries.OfferAll` | celestrak/query.go:105-109 | the five calls in the order CATNR, INTDES, GROUP, NAME, SPECIAL leave the fold of SetStep over the fields |
| `Queries.SingleSelector` | celestrak/query.go:92-118 | the method returns exactly Selector's key and value, or its error with an empty key and value |
| `Queries.OnlyFieldSelects` | celestrak/query.go:92-118 | a query with only field i set selects that field, or "missing selector" when it is blank |
| `Queries.QueryByCATNR` | celestrak/query.go:34-37 | sets only CATNR and FORMAT: no flags, and it selects CATNR with the trimmed value unless that value is blank |
| `Queries.QueryByINTDES` | celestrak/query.go:39-42 | the same for INTDES |
| `Queries.QueryByGROUP` | celestrak/query.go:44-47 | the same for GROUP |
| `Queries.QueryByName` | celestrak/query.go:49-52 | the same for NAME |
| `Queries.QueryBySPECIAL` | celestrak/query.go:54-57 | the same for SPECIAL |
| `Queries.SetPair` | celestrak/query.go:80-81 | url.Values.Set on the pairs; no contract of its own, and SetPairMembers and SetPairFresh state its map semantics |
| `Queries.SetPairMembers` | celestrak/query.go:80-81 | Values.Set keeps keys distinct and afterwards holds exactly key=value plus the earlier pairs under other keys |
| `Queries.SetPairFresh` | celestrak/query.go:80-81 | Set of a new key appends the pair |
| `Queries.SetAllFresh` | celestrak/query.go:79-86 | Set calls for pairwise distinct new keys add exactly those pairs in call order |
| `Queries.Values.constructor` | celestrak/query.go:79 | a fresh url.Values holds no pairs |
| `Queries.Values.Set` | celestrak/query.go:80-81 | the pairs field becomes SetPair of the old pairs, and the keys stay distinct |
| `Queries.Values.Encode` | celestrak/query.go:88 | Encode is sorted by key and holds exactly the pairs that were set |
| `Queries.Insert` | celestrak/query.go:88 | inserting into a sorted sequence keeps it sorted and adds exactly the one parameter |
| `Queries.SortByKey` | celestrak/query.go:88 | Encode's order is sorted by key and a permutation of the parameters |
| `Queries.SortedUnique` | celestrak/query.go:88 | two key-sorted sequences with the same parameters are equal |
| `Queries.EncodeOrderFree` | celestrak/query.go:79-89 | Encode's output depends only on which parameters were set, not on the order of the Set calls |
| `Queries.FlagParams` | celestrak/query.go:120-136 | the flags addTableFlags sets, in its order; no contract of its own, and FlagParamsMembers and FlagParamsDistinct state it |
| `Queries.FlagParamsMembers` | celestrak/query.go:120-136 | the flag parameters are exactly the set flags, each with value "1" |
| `Queries.FlagParamsDistinct` | celestrak/query.go:120-136 | no flag key appears twice |
| `Queries.AddTableFlags` | celestrak/query.go:120-136 | the parameters become the old ones with one Set per true flag, in the order BSTAR, SHOW-OPS, OLDEST, DOCKED, MOVERS |
| `Queries.FormatOf` | celestrak/query.go:73-76 | the format is never empty, and a non-empty FORMAT passes through unvalidated (empty becomes TLE) |
| `Queries.Params` | celestrak/query.go:79-86 | the parameters in the order BuildURL sets them; no contract of its own, and ParamsMembers, ParamsDistinct and ParamsOffTable state it |
| `Queries.KeysDisjoint` | celestrak/query.go:80-86 | selector keys, flag keys and FORMAT never collide |
| `Queries.ParamsDistinct` | celestrak/query.go:79-86 | the parameters BuildURL sets have distinct keys |
| `Queries.Build` | celestrak/query.go:60-90 | a nil base gives "base URL is nil", an empty endpoint gives "endpoint is required", and a built query is sorted by key |
| `Queries.NewParams` | celestrak/query.go:79-86 | the url.Values built by the Set calls plus addTableFlags holds exactly the selector, FORMAT and (on table.php) the flags |
| `Queries.BuildURL` | celestrak/query.go:60-90 | the method returns exactly Build's result |
| `Queries.BuildChecksFirst` | celestrak/query.go:61-66 | the base and endpoint checks fail with a QueryError whatever the query holds |
| `Queries.BuildSucceedsIff` | celestrak/query.go:60-71 | with a base and an endpoint, BuildURL succeeds exactly when one selector is non-blank, and otherwise returns singleSelector's error unwrapped |
| `Queries.BuildQuery` | celestrak/query.go:78-89 | a built URL has the base's origin and path "/NORAD/elements/" + endpoint, sorted distinct keys, and exactly the selector, FORMAT and, only on table.php, each set flag with "1" |
| `Queries.ParamsMembers` | celestrak/query.go:79-86 | the parameters are the selector, FORMAT and, on table.php, the set flags |
| `Queries.BuildHolds` | celestrak/query.go:79-89 | the encoded query holds the parameters that were set and nothing else |
| `Queries.ParamsOffTable` | celestrak/query.go:83-86 | off table.php no parameter has a flag key |
| `Queries.BuildNoFlagsOffTable` | celestrak/query.go:83-86 | off table.php no flag key appears, whatever the flags say |
| `Queries.QueryBySucceedsIff` | celestrak/query.go:34-71 | BuildURL on any QueryByX (with a base and an endpoint) succeeds exactly when the value is non-blank |
| `Queries.SelectorIgnoresFlags` | celestrak/query.go:92-118 | the table flags play no part in selection |
| `Queries.ExampleCatalogNumber` | celestrak/query.go:60-90 | QueryByCATNR("25544", JSON) on gp.php gives /NORAD/elements/gp.php?CATNR=25544&FORMAT=JSON |
| `Queries.ExampleStationsTable` | celestrak/query.go:60-136 | GROUP=STATIONS as XML with SHOW-OPS on table.php gives FORMAT=XML&GROUP=STATIONS&SHOW-OPS=1 |
| `Fetching.Endpoint.Path` | celestrak/gp.go:8-18 | the four endpoint names are non-empty, and only FetchTable's (celestrak/table.go line 8) is "table.php" |
| `Fetching.EndpointNoFlags` | celestrak/query.go:83-86 | a URL built for the gp.php, gp-first.php or gp-last.php endpoint never carries a table flag |
| `Fetching.ShouldRetry` | celestrak/celestrak.go:93-116 | nil and a bare QueryError are final; a bare ErrorResponse is retried exactly when it is a server error; every other error is retried |
| `Fetching.WrappedRetried` | celestrak/celestrak.go:114-115 | every wrapped error is retried ("build URL", "context error", "request cancelled", "request failed", …) |
| `Fetching.StatusRetried` | celestrak/celestrak.go:107-109 | an ErrorResponse is retried exactly for status 500 and up |
| `Fetching.Prefix` | celestrak/celestrak.go:179 | a LimitReader read yields the first min(n, length) bytes |
| `Fetching.Lookup` | celestrak/celestrak.go:137-142 | a hit happens exactly when a cache is configured and holds the URL, and it returns that entry |
| `Fetching.Put` | celestrak/celestrak.go:216-219 | with a configured cache the entry is stored under the URL, no other URL is added or removed, and every other URL keeps its entry; without one nothing is stored |
| `Fetching.RequestFor` | celestrak/celestrak.go:144-153 | the request fetchOnce sends; no contract of its own, and OnceRequest states when each header is set and to what |
| `Fetching.Exchange` | celestrak/celestrak.go:155-221 | the step from Do's outcome to the result and the cache; no contract of its own, and OnceTransportFailure, OnceNotModified, OnceErrorStatus, OnceReadFails, OnceBody, OnceStores and OnceCache state its cases |
| `Fetching.Once` | celestrak/celestrak.go:119-222 | fetchOnce as a function; no contract of its own, and the Once lemmas (OnceEarlyExits, OnceRequest, OnceTransportFailure, OnceNotModified, OnceErrorStatus, OnceReadFails, OnceBody, OnceStores, OnceCache, OnceSuccess) state every branch's result and cache |
| `Fetching.OnceTransportFailure` | celestrak/celestrak.go:155-162 | when Do fails, the error is "request cancelled" wrapping the context error if the context is done by then, else "request failed" wrapping the transport error; a request was sent, the cache is unchanged, and both are retried |
| `Fetching.OnceReadFails` | celestrak/celestrak.go:190-194 | a 2xx whose body cannot be read gives "read response" wrapping the read error, retried, with the cache unchanged |
| `Fetching.ErrorMessage` | celestrak/celestrak.go:178-183 | the message is the status text or a non-empty text of at most 8 KiB |
| `Fetching.OnceEarlyExits` | celestrak/celestrak.go:119-132 | a nil ctx gives the final "context must be non-nil" QueryError; a done ctx and a failed build give retried wrapped errors; exactly these send no request |
| `Fetching.OnceRequest` | celestrak/celestrak.go:137-153 | User-Agent is sent exactly when configured and If-None-Match exactly for a cache hit with a non-empty ETag, each with the configured or cached value |
| `Fetching.OnceCache` | celestrak/celestrak.go:137-221 | every error leaves the cache as it was, a configured cache stays configured, and any change is the Put of the returned body with the trimmed ETag |
| `Fetching.OnceSuccess` | celestrak/celestrak.go:166-221 | a success is either the cached bytes of a 304 hit or the whole non-empty 2xx body of at most 100 MiB |
| `Fetching.OnceNotModified` | celestrak/celestrak.go:165-175 | a 304 with a hit returns the cached bytes with no Put; without a hit it gives a final ErrorResponse with status 304 |
| `Fetching.OnceErrorStatus` | celestrak/celestrak.go:177-188 | other non-2xx statuses give an ErrorResponse with that status, whose message is the trimmed first 8 KiB (on ASCII bodies) or the status text when that is blank; it is retried exactly for 5xx |
| `Fetching.OnceBody` | celestrak/celestrak.go:190-214 | a readable 2xx succeeds exactly when the body is non-empty and at most 100 MiB, returns it whole, and otherwise says "response too large" or "empty response body" |
| `Fetching.OnceStores` | celestrak/celestrak.go:216-221 | a successful 2xx with a cache does one Put of the body and the trimmed ETag, even an empty one |
| `Text.Decimal` | celestrak/celestrak.go:203 | fmt's %d; no contract of its own, and CapDigits states its value on maxResponseSize |
| `Fetching.CapDigits` | celestrak/celestrak.go:87-90 | maxResponseSize is 104857600, as the "too large" message prints it |
| `Fetching.RunBounded` | celestrak/celestrak.go:230 | fetchOnce runs at most once per loop turn left |
| `Fetching.RunBackoff` | celestrak/celestrak.go:228-245 | there is no wait before attempt 0, one wait before each later attempt, and the i-th wait is retryDelay·2^i |
| `Fetching.RunShape` | celestrak/celestrak.go:247-261 | every result but the last is a retryable error; the first success or final error is returned without wrapping; any other result is "max retries" or a cancellation |
| `Fetching.OnceForKeepsCache` | celestrak/celestrak.go:119-214 | a failing fetchOnce never writes the cache |
| `Fetching.RunKeepsCacheOnError` | celestrak/celestrak.go:226-262 | a failing fetch leaves the cache as it found it |
| `Fetching.RunExhausts` | celestrak/celestrak.go:230-261 | with a live context and only retryable failures, fetchOnce runs once per turn (maxRetries + 1 times from the start, none if maxRetries < 0), and the result wraps the last failure as "max retries (N) exceeded" |
| `Fetching.Run` | celestrak/celestrak.go:226-262 | fetch as a function; no contract of its own, and the Run lemmas, with Client.Fetch proved equal to it, state its bounds, waits, results and errors |
| `Fetching.MaxRetriesPrefix` | celestrak/celestrak.go:261 | the text is "max retries (", the %d of the limit, then ") exceeded" |
| `Fetching.RunCancelled` | celestrak/celestrak.go:232-240 | when earlier turns fail retryably and turn j finds the context cancelled, fetch returns "context cancelled" (before the attempt) or "context cancelled during retry" (during the wait) wrapping the context error, after one fetchOnce per earlier turn and with the cache unchanged |
| `Fetching.RunStopsAtCancel` | celestrak/celestrak.go:232-240 | no fetchOnce call happens at or after a turn that finds the context cancelled before the attempt or during the wait |
| `Fetching.BuildFailureRetried` | celestrak/celestrak.go:129-132 | a URL that fails to build is retried on every turn and ends in "max retries (N) exceeded" wrapping "build URL: …" |
| `Fetching.InvalidQueryRetried` | celestrak/celestrak.go:93-132 | an invalid query, or an empty endpoint, is a QueryError that is wrapped, retried maxRetries + 1 times, and reported as "max retries (N) exceeded" |
| `Fetching.NoAttempts` | celestrak/celestrak.go:230-261 | with maxRetries < 0 no attempt is made and the error wraps nil |
| `Fetching.Client.constructor` | celestrak/celestrak.go:48-64 | NewClient: https://celestrak.org, User-Agent "celestrak-go/0.0.1", no cache, 3 retries, 1 s delay |
| `Fetching.Client.WithRetries` | celestrak/celestrak.go:66-73 | sets maxRetries and retryDelay, returns the same client, and changes nothing else |
| `Fetching.Client.WithCache` | celestrak/celestrak.go:75-79 | sets the cache, returns the same client, and changes nothing else |
| `Fetching.Client.WithUserAgent` | celestrak/celestrak.go:81-85 | sets the User-Agent, returns the same client, and changes nothing else |
| `Fetching.Client.FetchOnce` | celestrak/celestrak.go:118-222 | the result, the request sent and the new cache are exactly Once's; the settings do not change |
| `Fetching.Client.Fetch` | celestrak/celestrak.go:224-262 | the result, the new cache, every fetchOnce result and every wait are exactly Run's from turn 0 with the initial delay; the settings do not change |

## Left out

- `http.Client.Do` and `http.NewRequestWithContext` are foreign I/O. Do's answer is an
  `Outcome` input. The "create request" error of `celestrak/celestrak.go:144-147` cannot
  happen for a URL that BuildURL produced, so it is not modelled.
- `io.ReadAll`/`io.LimitReader` are modelled by `Prefix` of the whole body. Partial
  failures while reading an error body (`celestrak/celestrak.go:179` ignores them) are
  not modelled. The one-byte look-ahead is "more bytes follow the cap".
- `Fetching.ErrorMessage`: trims ASCII white space byte by byte, then reads each byte as
  the character with the same code. For an ASCII body this is `strings.TrimSpace(string(b))`
  (`Text.TrimAsciiBody`). Multi-byte UTF-8 white space and UTF-8 decoding of non-ASCII
  bodies are not modelled.
- `time.After`, `select` and the clock are concurrency. Cancellation is an input per turn,
  and the delays are recorded, not waited.
- `Fetching.Client.Fetch`: `delay *= 2` is unbounded integer arithmetic. The overflow of
  the 64-bit `time.Duration` after about 33 doublings of one second is not modelled.
- Calling `fetch` with a nil context panics in Go at `ctx.Err()`, so `Fetch` always has a
  context. `FetchOnce` keeps its own nil-context check.
- `url.Parse`, `ResolveReference` and percent-encoding are treated as an injective
  rendering of the `Url` value. The base URL is the fixed `https://celestrak.org`,
  because there is no setter for it. The unreachable `url.Parse` error of `NewClient` is
  left out.
- The `httpClient` argument of `NewClient` and its 15-second timeout are not modelled.
- Concrete `Cache` implementations and their thread safety are not modelled. The
  `Cache` interface of `celestrak/celestrak.go:29-35` is a map from URL to (bytes, ETag).
- The text `fmt.Errorf` gives wrapped errors is not modelled: only their prefix and the
  wrapped value are.
- `FetchGP`, `FetchGPFirst`, `FetchGPLast` and `FetchTable` only call `fetch` with their
  endpoint names. Only those names are kept (`Fetching.Endpoint.Path`).
- `example/celestrak.go` is a demo program and is not part of this model.
- `Queries.SelectorSingle` and the other selector lemmas use a `unicode.IsSpace` of the
  Latin-1 and Unicode `White_Space` code points. Go decodes invalid UTF-8 differently, and
  that decoding is not modelled.
