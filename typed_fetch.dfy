/**
  A typed fetch: one network request whose every outcome -- a decoded body, a
  response with a failing status, or anything raised on the way -- is returned
  as a value of a closed two-branch result type instead of being thrown.

  The platform's `fetch` and `Response.json` cannot be seen from here, so what
  they do is an input: a `FetchOutcome` says whether `fetch` raised or produced a
  response, and for a response what decoding its body would give. `typedFetch`
  is then a total function from a request and an outcome to a result.
 */
module TypedFetchCore {

  // ---------------------------------------------------------------------------
  // Result model
  // ---------------------------------------------------------------------------

  /** A completed query: data on success, an error otherwise. No third state. */
  datatype QueryResult<T, E> = Result(result: T) | Error(error: E)

  /** A JavaScript `Error` object as raised by the platform (its name and message). */
  datatype JsError = JsError(name: string, message: string)

  /**
    The two kinds of failure: the request did not complete (something was
    raised), or a response arrived whose status the platform does not call ok.
   */
  datatype FetchError =
    | NetworkError(errorObject: JsError, url: string)
    | HTTPStatusError(code: int, statusText: string, url: string)

  // ---------------------------------------------------------------------------
  // The platform, as an input
  // ---------------------------------------------------------------------------

  /**
    The request target: a bare URL string, or a request object whose `url` is
    the target. Its other properties only matter to the transport; the method
    stands for them, so that two requests can differ in more than their URL.
   */
  datatype Request = Url(target: string) | RequestObject(url: string, httpMethod: string)

  /** What `Response.json` does with a body: yields a value, or raises. */
  datatype Body<T> = Decoded(value: T) | DecodeThrew(error: JsError)

  /** What the awaited `fetch` call does: raises, or resolves to a response. */
  datatype FetchOutcome<T> =
    | Threw(error: JsError)
    | Responded(status: int, statusText: string, ok: bool, body: Body<T>)

  /** A call `typedFetch` makes into the platform. */
  datatype PlatformCall = CallFetch | CallJson

  /** The platform calls one invocation made, in order, and the value it returned. */
  datatype Execution<T> = Execution(calls: seq<PlatformCall>, result: QueryResult<T, FetchError>)

  /** An "ok status" in the Fetch Standard: a status in the range 200 to 299. */
  predicate OkStatus(status: int)
  {
    200 <= status <= 299
  }

  /** A response whose `ok` flag is the one the Fetch Standard derives from its status. */
  ghost predicate Conforming<T>(o: FetchOutcome<T>)
  {
    o.Responded? ==> o.ok == OkStatus(o.status)
  }

  /** A response built the way the platform's `Response` constructor builds one. */
  function Respond<T>(status: int, statusText: string, body: Body<T>): (o: FetchOutcome<T>)
    ensures o.Responded? && o.status == status && o.statusText == statusText && o.body == body
    ensures Conforming(o)
  {
    Responded(status, statusText, OkStatus(status), body)
  }

  // ---------------------------------------------------------------------------
  // typedFetch
  // ---------------------------------------------------------------------------

  /** The URL reported in errors: the string itself, or the request object's `url`. */
  function RequestUrl(req: Request): (u: string)
    ensures req.Url? ==> u == req.target
    ensures req.RequestObject? ==> u == req.url
  {
    match req
    case Url(target) => target
    case RequestObject(url, _) => url
  }

  /**
    One invocation of `typedFetch`: the platform calls it makes and the result.
    `fetch` is called exactly once and first; the body is decoded once, and only
    after an ok response; every error carries the request URL.
   */
  function Run<T>(req: Request, o: FetchOutcome<T>): (x: Execution<T>)
    ensures |x.calls| > 0 && x.calls[0] == CallFetch
    ensures multiset(x.calls)[CallFetch] == 1
    ensures CallJson in x.calls <==> o.Responded? && o.ok
    ensures multiset(x.calls)[CallJson] == if o.Responded? && o.ok then 1 else 0
    ensures x.result.Error? ==> x.result.error.url == RequestUrl(req)
  {
    var url := RequestUrl(req);
    match o
    case Threw(e) =>
      Execution([CallFetch], Error(NetworkError(e, url)))
    case Responded(status, statusText, ok, body) =>
      if !ok then
        Execution([CallFetch], Error(HTTPStatusError(status, statusText, url)))
      else
        match body
        case Decoded(v) => Execution([CallFetch, CallJson], Result(v))
        case DecodeThrew(e) => Execution([CallFetch, CallJson], Error(NetworkError(e, url)))
  }

  /** The value `typedFetch(req)` resolves to when the platform behaves as `o` says. */
  function TypedFetch<T>(req: Request, o: FetchOutcome<T>): (r: QueryResult<T, FetchError>)
    ensures Promised(req, o, r)
  {
    Run(req, o).result
  }

  /**
    What `typedFetch` promises, outcome by outcome, stated independently of how
    it computes: a raise becomes a network error carrying the raised object, a
    not-ok response a status error carrying its status and status text, an ok
    response the decoded body or, when decoding raises, a network error.
   */
  ghost predicate Promised<T>(req: Request, o: FetchOutcome<T>, r: QueryResult<T, FetchError>)
  {
    && (o.Threw? ==>
          r.Error? && r.error.NetworkError?
          && r.error.errorObject == o.error && r.error.url == RequestUrl(req))
    && (o.Responded? && !o.ok ==>
          r.Error? && r.error.HTTPStatusError?
          && r.error.code == o.status && r.error.statusText == o.statusText
          && r.error.url == RequestUrl(req))
    && (o.Responded? && o.ok && o.body.Decoded? ==>
          r.Result? && r.result == o.body.value)
    && (o.Responded? && o.ok && o.body.DecodeThrew? ==>
          r.Error? && r.error.NetworkError?
          && r.error.errorObject == o.body.error && r.error.url == RequestUrl(req))
  }

  // ---------------------------------------------------------------------------
  // Properties
  // ---------------------------------------------------------------------------

  /** The promises leave no choice: exactly one result meets them for each input. */
  lemma PromisedDeterminesResult<T>(req: Request, o: FetchOutcome<T>, r: QueryResult<T, FetchError>)
    requires Promised(req, o, r)
    ensures r == TypedFetch(req, o)
  {
  }

  /** Which branch the result takes, each stated as an if-and-only-if on the outcome. */
  lemma Classification<T>(req: Request, o: FetchOutcome<T>)
    ensures TypedFetch(req, o).Result? <==> o.Responded? && o.ok && o.body.Decoded?
    ensures (TypedFetch(req, o).Error? && TypedFetch(req, o).error.HTTPStatusError?)
            <==> o.Responded? && !o.ok
    ensures (TypedFetch(req, o).Error? && TypedFetch(req, o).error.NetworkError?)
            <==> o.Threw? || (o.Responded? && o.ok && o.body.DecodeThrew?)
  {
  }

  /** Every error reports the request's URL, whichever form the request took. */
  lemma ErrorUrlIsRequestUrl<T>(req: Request, o: FetchOutcome<T>)
    ensures TypedFetch(req, o).Error? ==>
      TypedFetch(req, o).error.url == (if req.Url? then req.target else req.url)
  {
  }

  /** The request influences the result only through its URL. */
  lemma RequestOnlyThroughUrl<T>(req1: Request, req2: Request, o: FetchOutcome<T>)
    requires RequestUrl(req1) == RequestUrl(req2)
    ensures TypedFetch(req1, o) == TypedFetch(req2, o)
  {
  }

  /** On the not-ok path the body is never looked at: any two bodies give the same result. */
  lemma NotOkIgnoresBody<T>(req: Request, status: int, statusText: string, b1: Body<T>, b2: Body<T>)
    ensures TypedFetch(req, Responded(status, statusText, false, b1))
         == TypedFetch(req, Responded(status, statusText, false, b2))
  {
  }

  /**
    A body that fails to decode after an ok response cannot be told apart from
    the transport raising the same error: both become the same network error.
   */
  lemma DecodeFailureLooksLikeNetworkFailure<T>(req: Request, status: int, statusText: string, e: JsError)
    ensures TypedFetch(req, Responded(status, statusText, true, DecodeThrew(e)))
         == TypedFetch<T>(req, Threw(e))
  {
  }

  /**
    With an `ok` flag as the Fetch Standard sets it, a response is a status error
    exactly when its status lies outside 200 to 299.
   */
  lemma ConformingStatusError<T>(req: Request, o: FetchOutcome<T>)
    requires Conforming(o) && o.Responded?
    ensures (TypedFetch(req, o).Error? && TypedFetch(req, o).error.HTTPStatusError?)
            <==> !OkStatus(o.status)
  {
  }

  /** A 304 response is reported as a status error although it is neither 4xx nor 5xx. */
  lemma NotModifiedIsStatusError<T>(req: Request, body: Body<T>)
    ensures TypedFetch(req, Respond(304, "Not Modified", body))
         == Error(HTTPStatusError(304, "Not Modified", RequestUrl(req)))
  {
  }

  // ---------------------------------------------------------------------------
  // The range of typedFetch
  // ---------------------------------------------------------------------------

  /** A result that could describe a request to `req`: its error, if any, names `req`'s URL. */
  predicate Attributable<T>(req: Request, r: QueryResult<T, FetchError>)
  {
    r.Error? ==> r.error.url == RequestUrl(req)
  }

  /** A status error carrying an ok status, which a conforming platform never produces. */
  predicate OkCodeStatusError<T>(r: QueryResult<T, FetchError>)
  {
    r.Error? && r.error.HTTPStatusError? && OkStatus(r.error.code)
  }

  /** An outcome that explains a result: `typedFetch` turns it back into that result. */
  function Explain<T>(req: Request, r: QueryResult<T, FetchError>): (o: FetchOutcome<T>)
    requires Attributable(req, r)
    ensures TypedFetch(req, o) == r
    ensures Conforming(o) <==> !OkCodeStatusError(r)
  {
    match r
    case Result(v) => Respond(200, "OK", Decoded(v))
    case Error(NetworkError(e, _)) => Threw(e)
    case Error(HTTPStatusError(code, statusText, _)) =>
      Responded(code, statusText, false, DecodeThrew(JsError("", "")))
  }

  /** The results `typedFetch` can give for `req` are exactly the attributable ones. */
  lemma Range<T>(req: Request, r: QueryResult<T, FetchError>)
    ensures Attributable(req, r) <==> exists o: FetchOutcome<T> :: TypedFetch(req, o) == r
  {
    if Attributable(req, r) {
      var o := Explain(req, r);
      assert TypedFetch(req, o) == r;
    }
  }

  /**
    Against a conforming platform, the results are the attributable ones minus
    the status errors whose code is an ok status.
   */
  lemma ConformingRange<T>(req: Request, r: QueryResult<T, FetchError>)
    ensures (Attributable(req, r) && !OkCodeStatusError(r))
        <==> exists o: FetchOutcome<T> :: Conforming(o) && TypedFetch(req, o) == r
  {
    if Attributable(req, r) && !OkCodeStatusError(r) {
      var o := Explain(req, r);
      assert Conforming(o) && TypedFetch(req, o) == r;
    }
    if o: FetchOutcome<T> :| Conforming(o) && TypedFetch(req, o) == r {
      ConformingStatusErrorCode(req, o);
    }
  }

  /** A conforming response never yields a status error with an ok code. */
  lemma ConformingStatusErrorCode<T>(req: Request, o: FetchOutcome<T>)
    requires Conforming(o)
    ensures !OkCodeStatusError(TypedFetch(req, o))
  {
  }
}
