/**
 * The proxy adapter of the reverse proxy: the per-request context, the
 * request filter that routes a request, and the decision taken when a
 * connection to the chosen upstream fails.
 *
 * The wall clock is a parameter (`now`, milliseconds since the epoch); the
 * route matcher and the load balancer are external and appear only through
 * the values they produce.
 */
module Proxy {
  import opened Wrappers

  /** The retry policy a route's load balancer exposes:
      `retries` is `get_retries()`, `retryTimeout` is `get_retry_timeout()` in seconds. */
  datatype LoadBalancer = LoadBalancer(retries: Option<nat>, retryTimeout: Option<nat>)

  /** A configured route; shared read-only between requests. */
  datatype Router = Router(id: string, lb: LoadBalancer)

  /** The request metadata the matcher looks at. */
  datatype Session = Session(httpMethod: string, host: string, path: string, headers: map<string, string>)

  /** What the matcher returns on success: the captured path parameters and the route. */
  type Match = (map<string, string>, Router)

  datatype ErrorType = HTTPStatus(code: nat) | ConnectFailure(reason: string)

  /** A proxy error; `retry` is the flag the engine reads to decide whether to try again. */
  datatype ProxyError = ProxyError(etype: ErrorType, context: string, retry: bool)

  const NotFound: nat := 404

  /** The error `request_filter` fails with when no route matches. */
  const NotFoundError := ProxyError(HTTPStatus(NotFound), "Not Found", false)

  /** The outcome of one connect failure, one value per state of the retry policy. */
  datatype Decision = NoRetryPolicy | ExhaustedAttempts | ExhaustedTime | Retry

  /** A retry count is configured on the matched route. */
  predicate HasRetryPolicy(router: Option<Router>)
  {
    router.Some? && router.value.lb.retries.Some?
  }

  /** The configured retry count of the matched route. */
  function RetryLimit(router: Option<Router>): nat
    requires HasRetryPolicy(router)
  {
    router.value.lb.retries.value
  }

  /** The time budget has run out: strictly more than `timeout` seconds since creation. */
  predicate TimeExhausted(router: Option<Router>, createdAt: nat, now: nat)
    requires router.Some? && createdAt <= now
  {
    router.value.lb.retryTimeout.Some? && now - createdAt > router.value.lb.retryTimeout.value * 1000
  }

  /**
   * The retry decision for a connect failure, checked in the source's order:
   * a matched route, a configured count, the count, then the clock.
   */
  function Decide(router: Option<Router>, tries: nat, createdAt: nat, now: nat): (d: Decision)
    requires createdAt <= now
    // a timeout alone never enables retries
    ensures d == NoRetryPolicy <==> !HasRetryPolicy(router)
    // the count is checked before the clock, so an exhausted count wins over an exhausted clock
    ensures d == ExhaustedAttempts <==>
      HasRetryPolicy(router) && (RetryLimit(router) == 0 || tries >= RetryLimit(router))
    ensures d == ExhaustedTime <==>
      HasRetryPolicy(router) && tries < RetryLimit(router) && TimeExhausted(router, createdAt, now)
    // an elapsed time exactly equal to the budget still retries
    ensures d == Retry <==>
      HasRetryPolicy(router) && tries < RetryLimit(router) && !TimeExhausted(router, createdAt, now)
    // a retry never takes the counter past the configured count
    ensures d == Retry ==> tries + 1 <= RetryLimit(router)
  {
    match router
    case None => NoRetryPolicy
    case Some(r) =>
      match r.lb.retries
      case None => NoRetryPolicy
      case Some(retries) =>
        if retries == 0 || tries >= retries then ExhaustedAttempts
        else if r.lb.retryTimeout.Some? && now - createdAt > r.lb.retryTimeout.value * 1000 then ExhaustedTime
        else Retry
  }

  /** The per-request state, owned by one in-flight request. */
  class ProxyContext {
    var router: Option<Router>
    var routerParams: map<string, string>
    var tries: nat
    var createdAt: nat

    /** `Default::default()`: no route, no parameters, no attempts, created now. */
    constructor (now: nat)
      ensures router == None && routerParams == map[] && tries == 0 && createdAt == now
    {
      router := None;
      routerParams := map[];
      tries := 0;
      createdAt := now;
    }

    /** The attempt counter has not passed the matched route's retry count. */
    predicate WithinRetryLimit()
      reads this
    {
      HasRetryPolicy(router) ==> tries <= RetryLimit(router)
    }
  }

  /** The proxy service: the lifecycle hooks the connection engine calls. */
  class ProxyService {
    /** The route matcher: a pure function of the request and the route table. */
    const matcher: Session -> Option<Match>

    constructor (matcher: Session -> Option<Match>)
      ensures this.matcher == matcher
    {
      this.matcher := matcher;
    }

    /** `new_ctx`: a fresh, empty context for each request. */
    method NewCtx(now: nat) returns (ctx: ProxyContext)
      ensures fresh(ctx)
      ensures ctx.router == None && ctx.routerParams == map[] && ctx.tries == 0 && ctx.createdAt == now
      ensures ctx.WithinRetryLimit()
    {
      ctx := new ProxyContext(now);
    }

    /**
     * `request_filter`: on a match, record the route and its parameters and let
     * the request continue (`Ok(false)`); otherwise fail with 404 and touch nothing.
     */
    method RequestFilter(session: Session, ctx: ProxyContext) returns (r: Result<bool, ProxyError>)
      modifies ctx`router, ctx`routerParams
      ensures matcher(session).Some? ==>
        r == Ok(false) &&
        ctx.routerParams == matcher(session).value.0 &&
        ctx.router == Some(matcher(session).value.1)
      ensures matcher(session).None? ==>
        r == Err(NotFoundError) &&
        ctx.router == old(ctx.router) && ctx.routerParams == old(ctx.routerParams)
      ensures r.Err? <==> matcher(session).None?
    {
      var m := matcher(session);
      if m.Some? {
        var (routerParams, router) := m.value;
        ctx.routerParams := routerParams;
        ctx.router := Some(router);
      } else {
        return Err(NotFoundError);
      }
      return Ok(false);
    }

    /**
     * `fail_to_connect`: either hand the error back unchanged, or count one more
     * attempt and mark the error retryable. Only `tries` may change in the context.
     */
    method FailToConnect(ctx: ProxyContext, e: ProxyError, now: nat) returns (e': ProxyError)
      requires ctx.createdAt <= now
      modifies ctx`tries
      ensures var d := Decide(ctx.router, old(ctx.tries), ctx.createdAt, now);
        ctx.tries == (if d == Retry then old(ctx.tries) + 1 else old(ctx.tries)) &&
        e' == (if d == Retry then e.(retry := true) else e)
      ensures old(ctx.WithinRetryLimit()) ==> ctx.WithinRetryLimit()
    {
      if ctx.router.Some? {
        var router := ctx.router.value;
        if router.lb.retries.Some? {
          var retries := router.lb.retries.value;
          if retries == 0 || ctx.tries >= retries {
            return e;
          }
          if router.lb.retryTimeout.Some? {
            var timeout := router.lb.retryTimeout.value;
            if now - ctx.createdAt > timeout * 1000 {
              return e;
            }
          }
          ctx.tries := ctx.tries + 1;
          e' := e.(retry := true);
          return e';
        }
      }
      e' := e;
    }
  }
}
