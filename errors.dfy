/**
 * The error taxonomy of the client: the two error types the package defines, the
 * errors it receives from its transport and context, and the fmt.Errorf wrappers it
 * puts around them.
 */
module Errors {
  import opened Wrappers

  /** The parts of *http.Response an ErrorResponse looks at: StatusCode and Status. */
  datatype HttpStatus = HttpStatus(code: int, text: string)

  /** A non-2xx answer, an unusable 304 or an unusable 2xx body. A nil Response is None. */
  datatype ErrorResponse = ErrorResponse(response: Option<HttpStatus>, message: string) {

    /** "celestrak: <status>: <message>"; Go dereferences Response, so it must be present. */
    function Error(): (s: string)
      requires response.Some?
      ensures |s| == 13 + |response.value.text| + |message|
      ensures s[..11] == "celestrak: " && s[|s| - |message|..] == message
      ensures s[11..11 + |response.value.text|] == response.value.text
      ensures s[11 + |response.value.text|..13 + |response.value.text|] == ": "
    {
      "celestrak: " + response.value.text + ": " + message
    }

    /** 404 Not Found. */
    predicate IsNotFound()
      ensures IsNotFound() ==> IsClientError() && !IsRateLimit() && !IsServerError()
    {
      response.Some? && response.value.code == 404
    }

    /** 429 Too Many Requests. */
    predicate IsRateLimit()
      ensures IsRateLimit() ==> IsClientError() && !IsServerError()
    {
      response.Some? && response.value.code == 429
    }

    /** Any status from 500 up. */
    predicate IsServerError()
      ensures IsServerError() ==> response.Some? && !IsClientError()
    {
      response.Some? && response.value.code >= 500
    }

    /** 400 to 499. */
    predicate IsClientError()
      ensures IsClientError() ==> response.Some?
    {
      response.Some? && response.value.code >= 400 && response.value.code < 500
    }
  }

  /** A local validation failure. */
  datatype QueryError = QueryError(message: string) {

    /** "celestrak: query error: <message>". */
    function Error(): (s: string)
      ensures |s| == 24 + |message| && s[24..] == message
      ensures s[..24] == "celestrak: query error: "
    {
      "celestrak: query error: " + message
    }
  }

  /**
   * A Go error value. TransportErr is whatever http.Client.Do returns, ContextErr is
   * ctx.Err() (Canceled or DeadlineExceeded), and Wrapped(p, e) is fmt.Errorf("p: %w", e);
   * its inner error is None when fmt wrapped a nil error.
   */
  datatype Error =
    | QueryErr(query: QueryError)
    | RespErr(resp: ErrorResponse)
    | TransportErr
    | ContextErr
    | Wrapped(prefix: string, inner: Option<Error>)

  /** A function's (value, error) pair: exactly one of the two is meaningful. */
  datatype Result<+T> = Ok(value: T) | Err(error: Error)

  /** IsQueryError: a type assertion on the error itself, which does not look inside wrappers. */
  predicate IsQueryError(err: Option<Error>)
    ensures IsQueryError(err) ==> !IsErrorResponse(err)
  {
    err.Some? && err.value.QueryErr?
  }

  /** IsErrorResponse: a type assertion on the error itself. */
  predicate IsErrorResponse(err: Option<Error>)
  {
    err.Some? && err.value.RespErr?
  }

  /** Under the same status text, the text of an ErrorResponse determines its message. */
  lemma ResponseTextInjective(a: ErrorResponse, b: ErrorResponse)
    requires a.response.Some? && b.response.Some? && a.response.value.text == b.response.value.text
    requires a.Error() == b.Error()
    ensures a.message == b.message
  {
    var n := 13 + |a.response.value.text|;
    assert a.Error()[n..] == a.message;
    assert b.Error()[n..] == b.message;
  }

  /** A status is never both a client error and a server error. */
  lemma ClientServerDisjoint(r: ErrorResponse)
    ensures !(r.IsClientError() && r.IsServerError())
  {
  }

  /** With a nil Response none of the four status predicates holds. */
  lemma NilResponseHasNoStatus(r: ErrorResponse)
    requires r.response.None?
    ensures !r.IsNotFound() && !r.IsRateLimit() && !r.IsServerError() && !r.IsClientError()
  {
  }

  /** Neither type check sees through a wrapper, however deep the wrapped error is. */
  lemma WrappedIsNeitherKind(prefix: string, inner: Option<Error>)
    ensures !IsQueryError(Some(Wrapped(prefix, inner)))
    ensures !IsErrorResponse(Some(Wrapped(prefix, inner)))
  {
  }

  /** Two query errors with the same text carry the same message. */
  lemma QueryErrorTextInjective(a: QueryError, b: QueryError)
    requires a.Error() == b.Error()
    ensures a == b
  {
    assert a.message == a.Error()[24..];
  }
}
