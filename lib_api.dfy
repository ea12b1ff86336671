/**
 * The `lib` API client: every request first passes the sliding-window rate
 * limiter (5 requests per 1000 ms), then has its options checked and
 * rewritten, then goes to the base URL plus the endpoint path. A response
 * records the rate-limit headers; a rejection throws the error's body.
 */
module LibApi {
  import opened Values
  import opened RateLimiting
  import opened Requests

  /** The error an options check throws here: `Error` when both lists are
      given, `TypeError` when a list is not an array. */
  function OptionError(reason: Reason): (t: Thrown)
    ensures t.Raised? && t.reason == reason
    ensures t.cls == Error <==> reason == KeysWithExclude
  {
    Raised(if reason == KeysWithExclude then Error else TypeError, reason)
  }

  /** What `.catch(err => { throw err.body; })` throws. */
  function Rejection(err: Js): (t: Thrown)
    ensures Nullish(err) ==> t == Raised(TypeError, PropertyOfNullish)
    ensures !Nullish(err) ==> t == ErrorBody(Field(err, "body"))
  {
    if Nullish(err) then Raised(TypeError, PropertyOfNullish) else ErrorBody(Field(err, "body"))
  }

  /** Everything one `_get` call decides: the limiter's recorded times, what
      the call resolves or rejects with, the request it sends, the options it
      writes back and the header values it stores. */
  datatype Exchange = Exchange(
    admission: Admission,
    result: Result<Js, Thrown>,
    request: Option<Request>,
    written: Option<(Js, Js)>,
    headers: Option<(Js, Js)>)

  /** `_get(endpoint, options)` at time `now`, where `given` holds
      `options.keys` and `options.exclude` and `response` is how the HTTP
      layer answers. */
  function Exchanged(requests: seq<int>, limit: int, window: int, now: int, given: (Js, Js), endpoint: string, response: Response): (x: Exchange)
    // the limiter runs first, whatever the options
    ensures x.admission == Admit(requests, limit, window, now)
    ensures !x.admission.admitted ==>
      x.result == Failure(Raised(Error, RateLimitExceeded(limit, window))) && x.request.None? && x.written.None? && x.headers.None?
    // then the options are checked; a bad one sends nothing and writes nothing
    ensures x.admission.admitted && ShapeOptions(given.0, given.1).Failure? ==>
      x.result == Failure(OptionError(ShapeOptions(given.0, given.1).error)) && x.request.None? && x.written.None? && x.headers.None?
    // a request is sent exactly when both checks pass, to the base URL plus the path
    ensures x.request.Some? <==> x.admission.admitted && ShapeOptions(given.0, given.1).Success?
    ensures x.request.Some? ==>
      && x.request.value == Request(BaseUrl + endpoint, ShapeOptions(given.0, given.1).value.0, ShapeOptions(given.0, given.1).value.1)
      && x.written == Some(ShapeOptions(given.0, given.1).value)
    // the headers are stored only from a delivered response
    ensures x.request.Some? && response.Delivered? ==>
      x.result == Success(response.body) && x.headers == Some((response.remaining, response.reset))
    ensures x.request.Some? && response.Rejected? ==>
      x.result == Failure(Rejection(response.error)) && x.headers.None?
  {
    var a := Admit(requests, limit, window, now);
    if !a.admitted then Exchange(a, Failure(Raised(Error, RateLimitExceeded(limit, window))), None, None, None)
    else
      match ShapeOptions(given.0, given.1)
      case Failure(reason) => Exchange(a, Failure(OptionError(reason)), None, None, None)
      case Success(shaped) =>
        var req := Some(Request(BaseUrl + endpoint, shaped.0, shaped.1));
        match response
        case Delivered(body, remaining, reset) => Exchange(a, Success(body), req, Some(shaped), Some((remaining, reset)))
        case Rejected(err) => Exchange(a, Failure(Rejection(err)), req, Some(shaped), None)
  }

  /** A call refused for its options still takes a slot in the limiter. */
  lemma BadOptionsStillCount(requests: seq<int>, limit: int, window: int, now: int, given: (Js, Js), endpoint: string, response: Response)
    requires ShapeOptions(given.0, given.1).Failure?
    requires var x := Exchanged(requests, limit, window, now, given, endpoint, response); x.admission.admitted
    ensures var x := Exchanged(requests, limit, window, now, given, endpoint, response);
      x.request.None? && x.admission.requests == Prune(requests, now - window) + [now]
  {
  }

  /** The builders missing from this client: `getClanWeeklyHistory` calls
      `this.get`, which does not exist, and there is no `getKeyStats` or
      `getEndpoints`. Calling any of them throws a `TypeError` at once. */
  predicate Missing(e: Endpoint)
  {
    e.ClanWeeklyHistory? || e.KeyStats? || e.EndpointList?
  }

  class Api {
    /** `this._rateLimiter`. */
    const limiter: RateLimiter
    /** `this._rateLimitRemaining`, unset until a response arrives. */
    var rateLimitRemaining: Js
    /** `this._rateLimitReset`, unset until a response arrives. */
    var rateLimitReset: Js

    constructor ()
      ensures fresh(limiter)
      ensures limiter.limit == 5 && limiter.window == 1000 && limiter.requests == []
      ensures rateLimitRemaining == Undefined && rateLimitReset == Undefined
    {
      limiter := new RateLimiter(5, 1000);
      rateLimitRemaining := Undefined;
      rateLimitReset := Undefined;
    }

    /** `_get(endpoint, options)` at time `now`; a `null` options object
        stands for the default `{}`. */
    method Get(endpoint: string, options: Options?, now: int, response: Response)
      returns (r: Result<Js, Thrown>, request: Option<Request>)
      modifies this`rateLimitRemaining, this`rateLimitReset, limiter`requests, options
      ensures var given := if options == null then (Undefined, Undefined) else (old(options.keys), old(options.exclude));
        var x := Exchanged(old(limiter.requests), limiter.limit, limiter.window, now, given, endpoint, response);
        && limiter.requests == x.admission.requests
        && r == x.result && request == x.request
        && (options != null && x.written.Some? ==> options.keys == x.written.value.0 && options.exclude == x.written.value.1)
        && (options != null && x.written.None? ==> options.keys == old(options.keys) && options.exclude == old(options.exclude))
        && (x.headers.Some? ==> rateLimitRemaining == x.headers.value.0 && rateLimitReset == x.headers.value.1)
        && (x.headers.None? ==> rateLimitRemaining == old(rateLimitRemaining) && rateLimitReset == old(rateLimitReset))
    {
      var admitted := limiter.MkRequest(now);
      if admitted.Fail? {
        return Failure(admitted.error), None;
      }
      var keys := if options == null then Undefined else options.keys;
      var exclude := if options == null then Undefined else options.exclude;
      if Truthy(keys) && Truthy(exclude) {
        return Failure(Raised(Error, KeysWithExclude)), None;
      }
      if Truthy(keys) {
        if !keys.Arr? {
          return Failure(Raised(TypeError, KeysNotArray)), None;
        }
        keys := Str(Join(keys.items, ", "));
        options.keys := keys;
      }
      if Truthy(exclude) {
        if !exclude.Arr? {
          return Failure(Raised(TypeError, ExcludeNotArray)), None;
        }
        exclude := Str(Join(exclude.items, ","));
        options.exclude := exclude;
      }
      request := Some(Request(BaseUrl + endpoint, keys, exclude));
      match response {
        case Delivered(body, remaining, reset) =>
          rateLimitRemaining := remaining;
          rateLimitReset := reset;
          r := Success(body);
        case Rejected(err) =>
          r := Failure(Rejection(err));
      }
    }

    /** The builder method for `e`, which passes its path and the caller's
        options to `_get`. */
    method Call(e: Endpoint, options: Options?, now: int, response: Response)
      returns (r: Result<Js, Thrown>, request: Option<Request>)
      modifies this`rateLimitRemaining, this`rateLimitReset, limiter`requests, options
      ensures Missing(e) ==>
        && r == Failure(Raised(TypeError, NotAFunction)) && request.None?
        && limiter.requests == old(limiter.requests)
        && rateLimitRemaining == old(rateLimitRemaining) && rateLimitReset == old(rateLimitReset)
        && (options != null ==> options.keys == old(options.keys) && options.exclude == old(options.exclude))
      ensures !Missing(e) ==>
        var given := if options == null then (Undefined, Undefined) else (old(options.keys), old(options.exclude));
        var x := Exchanged(old(limiter.requests), limiter.limit, limiter.window, now, given, Path(e), response);
        && limiter.requests == x.admission.requests
        && r == x.result && request == x.request
        && (options != null && x.written.Some? ==> options.keys == x.written.value.0 && options.exclude == x.written.value.1)
        && (options != null && x.written.None? ==> options.keys == old(options.keys) && options.exclude == old(options.exclude))
        && (x.headers.Some? ==> rateLimitRemaining == x.headers.value.0 && rateLimitReset == x.headers.value.1)
        && (x.headers.None? ==> rateLimitRemaining == old(rateLimitRemaining) && rateLimitReset == old(rateLimitReset))
    {
      if Missing(e) {
        return Failure(Raised(TypeError, NotAFunction)), None;
      }
      r, request := Get(Path(e), options, now, response);
    }
  }
}
