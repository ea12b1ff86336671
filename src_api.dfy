/**
 * The `src` API client: no sliding window; instead a gate built from the
 * last response's rate-limit headers refuses a request while the remaining
 * count is exactly 0 or the clock is below the reset value. Options are
 * checked as in the `lib` client, but every options error is a `TypeError`,
 * and only the profile builder passes options on.
 */
module SrcApi {
  import opened Values
  import opened Requests

  /** `this._rateLimitRemaining === 0 || Date.now() < this._rateLimitReset`. */
  predicate Throttled(remaining: Js, reset: Js, now: int)
  {
    remaining == Num(0) || Below(now, reset)
  }

  /** The two fields the gate reads. */
  datatype Gauge = Gauge(remaining: Js, reset: Js)

  /** Everything one `_get` call decides: the gauge afterwards, what the call
      resolves or rejects with, the request it sends and the options it
      writes back. */
  datatype Exchange = Exchange(gauge: Gauge, result: Result<Js, Thrown>, request: Option<Request>, written: Option<(Js, Js)>)

  /** `_get(endpoint, options)` at time `now`, where `given` holds
      `options.keys` and `options.exclude` and `response` is how the HTTP
      layer answers. */
  function Exchanged(g: Gauge, now: int, given: (Js, Js), endpoint: string, response: Response): (x: Exchange)
    // the gate comes first; a refused call changes nothing
    ensures Throttled(g.remaining, g.reset, now) ==>
      x == Exchange(g, Failure(Raised(Error, RequestsTooFast)), None, None)
    // then the options; every options error is a TypeError here
    ensures !Throttled(g.remaining, g.reset, now) && ShapeOptions(given.0, given.1).Failure? ==>
      x == Exchange(g, Failure(Raised(TypeError, ShapeOptions(given.0, given.1).error)), None, None)
    ensures x.request.Some? <==> !Throttled(g.remaining, g.reset, now) && ShapeOptions(given.0, given.1).Success?
    ensures x.request.Some? ==>
      && x.request.value == Request(BaseUrl + endpoint, ShapeOptions(given.0, given.1).value.0, ShapeOptions(given.0, given.1).value.1)
      && x.written == Some(ShapeOptions(given.0, given.1).value)
    // a delivered response replaces the gauge with its headers
    ensures x.request.Some? && response.Delivered? ==>
      x.result == Success(response.body) && x.gauge == Gauge(response.remaining, response.reset)
    // a rejection passes the HTTP error through and leaves the gauge
    ensures x.request.Some? && response.Rejected? ==>
      x.result == Failure(HttpError(response.error)) && x.gauge == g
  {
    if Throttled(g.remaining, g.reset, now) then Exchange(g, Failure(Raised(Error, RequestsTooFast)), None, None)
    else
      match ShapeOptions(given.0, given.1)
      case Failure(reason) => Exchange(g, Failure(Raised(TypeError, reason)), None, None)
      case Success(shaped) =>
        var req := Some(Request(BaseUrl + endpoint, shaped.0, shaped.1));
        match response
        case Delivered(body, remaining, reset) => Exchange(Gauge(remaining, reset), Success(body), req, Some(shaped))
        case Rejected(err) => Exchange(g, Failure(HttpError(err)), req, Some(shaped))
  }

  /** One later call: its clock reading, options, path and HTTP answer. */
  datatype Attempt = Attempt(now: int, given: (Js, Js), endpoint: string, response: Response)

  /** The results of consecutive calls, and the gauge afterwards. */
  datatype Session = Session(results: seq<Result<Js, Thrown>>, requests: seq<Request>, gauge: Gauge)

  function Replay(g: Gauge, calls: seq<Attempt>): (s: Session)
    ensures |s.results| == |calls|
    decreases |calls|
  {
    if calls == [] then Session([], [], g)
    else
      var c := calls[0];
      var x := Exchanged(g, c.now, c.given, c.endpoint, c.response);
      var rest := Replay(x.gauge, calls[1..]);
      Session([x.result] + rest.results, (if x.request.Some? then [x.request.value] else []) + rest.requests, rest.gauge)
  }

  /** Once a response reports 0 remaining requests, the client is shut out
      for good: the gauge only changes on a response, and no request is
      sent while the count is 0, whatever the clock says. */
  lemma {:induction false} ZeroRemainingLocksOut(g: Gauge, calls: seq<Attempt>)
    requires g.remaining == Num(0)
    ensures var s := Replay(g, calls);
      && s.requests == []
      && s.gauge == g
      && forall i :: 0 <= i < |calls| ==> s.results[i] == Failure(Raised(Error, RequestsTooFast))
    decreases |calls|
  {
    if calls != [] {
      ZeroRemainingLocksOut(g, calls[1..]);
      var s := Replay(g, calls);
      var rest := Replay(g, calls[1..]);
      assert forall i :: 1 <= i < |calls| ==> s.results[i] == rest.results[i - 1];
    }
  }

  /** With a non-zero count, a call at or after the reset time passes the gate. */
  lemma GateOpensAtReset(g: Gauge, now: int, given: (Js, Js), endpoint: string, response: Response)
    requires g.remaining != Num(0) && g.reset.Num? && now >= g.reset.n
    requires ShapeOptions(given.0, given.1).Success?
    ensures Exchanged(g, now, given, endpoint, response).request.Some?
  {
  }

  /** The builders missing from this client: `getClanWeeklyHistory` calls
      `this.get`, which does not exist. */
  predicate Missing(e: Endpoint)
  {
    e.ClanWeeklyHistory?
  }

  class Api {
    /** `this._rateLimitRemaining`. */
    var rateLimitRemaining: Js
    /** `this._rateLimitReset`. */
    var rateLimitReset: Js

    /** `new API(client)` at time `now`: five requests left, reset now, so
        the gate is open from the start. */
    constructor (now: int)
      ensures rateLimitRemaining == Num(5) && rateLimitReset == Num(now)
      ensures forall later :: later >= now ==> !Throttled(rateLimitRemaining, rateLimitReset, later)
    {
      rateLimitRemaining := Num(5);
      rateLimitReset := Num(now);
    }

    /** `_get(endpoint, options)` at time `now`; a `null` options object
        stands for the default `{}`. */
    method Get(endpoint: string, options: Options?, now: int, response: Response)
      returns (r: Result<Js, Thrown>, request: Option<Request>)
      modifies this, options
      ensures var given := if options == null then (Undefined, Undefined) else (old(options.keys), old(options.exclude));
        var x := Exchanged(Gauge(old(rateLimitRemaining), old(rateLimitReset)), now, given, endpoint, response);
        && Gauge(rateLimitRemaining, rateLimitReset) == x.gauge
        && r == x.result && request == x.request
        && (options != null && x.written.Some? ==> options.keys == x.written.value.0 && options.exclude == x.written.value.1)
        && (options != null && x.written.None? ==> options.keys == old(options.keys) && options.exclude == old(options.exclude))
    {
      if rateLimitRemaining == Num(0) || Below(now, rateLimitReset) {
        return Failure(Raised(Error, RequestsTooFast)), None;
      }
      var keys := if options == null then Undefined else options.keys;
      var exclude := if options == null then Undefined else options.exclude;
      if Truthy(keys) && Truthy(exclude) {
        return Failure(Raised(TypeError, KeysWithExclude)), None;
      }
      if Truthy(keys) {
        if !keys.Arr? {
          return Failure(Raised(TypeError, KeysNotArray)), None;
        }
        keys := Str(Join(keys.items, ", "));
        options.keys := keys;
      }
      if Truthy(exclude) {
        if !exclude.Arr? {
          return Failure(Raised(TypeError, ExcludeNotArray)), None;
        }
        exclude := Str(Join(exclude.items, ","));
        options.exclude := exclude;
      }
      request := Some(Request(BaseUrl + endpoint, keys, exclude));
      match response {
        case Delivered(body, remaining, reset) =>
          rateLimitRemaining := remaining;
          rateLimitReset := reset;
          r := Success(body);
        case Rejected(err) =>
          r := Failure(HttpError(err));
      }
    }

    /** The builder method for `e`. Only `getUserProfile` passes the
        caller's options on; every other builder calls `_get` without them. */
    method Call(e: Endpoint, options: Options?, now: int, response: Response)
      returns (r: Result<Js, Thrown>, request: Option<Request>)
      modifies this, options
      ensures Missing(e) ==>
        && r == Failure(Raised(TypeError, NotAFunction)) && request.None?
        && rateLimitRemaining == old(rateLimitRemaining) && rateLimitReset == old(rateLimitReset)
      ensures !e.UserProfile? && options != null ==> options.keys == old(options.keys) && options.exclude == old(options.exclude)
      ensures !Missing(e) ==>
        var given := if options == null || !e.UserProfile? then (Undefined, Undefined) else (old(options.keys), old(options.exclude));
        var x := Exchanged(Gauge(old(rateLimitRemaining), old(rateLimitReset)), now, given, Path(e), response);
        && Gauge(rateLimitRemaining, rateLimitReset) == x.gauge
        && r == x.result && request == x.request
        && (options != null && e.UserProfile? && x.written.Some? ==> options.keys == x.written.value.0 && options.exclude == x.written.value.1)
        && (options != null && e.UserProfile? && x.written.None? ==> options.keys == old(options.keys) && options.exclude == old(options.exclude))
    {
      if Missing(e) {
        return Failure(Raised(TypeError, NotAFunction)), None;
      }
      if e.UserProfile? {
        r, request := Get(Path(e), options, now, response);
      } else {
        r, request := Get(Path(e), null, now, response);
      }
    }
  }
}
