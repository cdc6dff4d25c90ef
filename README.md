# Proxy adapter of pingsix: routing hook and connect-failure retry policy

This project models the adapter through which the pingora connection engine
drives pingsix's reverse proxy (`src/proxy/mod.rs`):

- `ProxyContext`, the per-request state: the matched route (none until the
  request is filtered), the path parameters the route captured, the attempt
  counter `tries` and the creation time `createdAt` in milliseconds. It is a
  class whose fields the hooks update in place.
- `new_ctx` / `Default`: a fresh context with no route, no parameters,
  `tries == 0` and `createdAt` equal to the clock.
- `request_filter`: runs the route matcher; on a match it stores the route
  and its parameters and lets the request continue (`Ok(false)`); with no
  match it fails with an `HTTPStatus(404)` "Not Found" error and leaves the
  context alone.
- `fail_to_connect`: the retry decision. In this order: no matched route, or
  no retry count on the route's load balancer, means the error is returned
  unchanged; a count of zero or a counter that has reached the count means the
  same; a time budget that has run out (strictly more than `timeout * 1000`
  ms since the context was created) means the same; otherwise the counter goes
  up by one and the error is marked retryable.

The decision is specified by the pure function `Proxy.Decide`, whose four
outcomes (`NoRetryPolicy`, `ExhaustedAttempts`, `ExhaustedTime`, `Retry`) are
each characterised by an if-and-only-if. `Proxy.ProxyService.FailToConnect`
is the imperative hook, written with the source's early returns, and is proved
to change the counter and the error exactly as `Decide` says, to touch no
other field of the context, and to keep the counter within the route's retry
count. Module `RetryRuns` follows a whole request through successive connect
failures (the engine calls the hook once per failed attempt) and proves the
policy's guarantees over any such run: at most `n` retries for a count of `n`,
exactly `n` retries when there is no time budget, a counter that never
decreases and grows only on a retry, no retry ever without a count, and
terminal exhaustion once either budget is spent.

The clock is a parameter `now` (milliseconds since the epoch). The matcher is
a pure function value `Session -> Option<Match>` held by the service; the
load balancer appears only through its retry count and retry timeout.

## Model

| member | source | states |
|---|---|---|
| `Proxy.Decide` | src/proxy/mod.rs:77-95 | no retry without a route or without a configured count, whatever the timeout; an exhausted count (zero, or `tries >= retries`) is reported before the clock is looked at; time is exhausted only when strictly more than `timeout * 1000` ms have passed since creation; otherwise retry, and a retry never takes the counter past the count |
| `Proxy.ProxyContext.constructor` | src/proxy/mod.rs:25-34 | a default context has no route, empty parameters, `tries == 0` and `createdAt` equal to the clock |
| `Proxy.ProxyService.NewCtx` | src/proxy/mod.rs:46-48 | each request gets a freshly allocated, empty context created at the current time, within its retry limit |
| `Proxy.ProxyService.RequestFilter` | src/proxy/mod.rs:51-67 | on a match the route and parameters are stored and the result is `Ok(false)`; with no match the result is the 404 "Not Found" error and the context is unchanged; it fails exactly when nothing matches |
| `Proxy.ProxyService.FailToConnect` | src/proxy/mod.rs:70-96 | on a `Retry` decision the counter goes up by exactly one and the error comes back with `retry` set; on any other decision counter and error are unchanged; only `tries` may change in the context; a counter within the retry count stays within it |
| `RetryRuns.Decisions` | src/proxy/mod.rs:70-96 | one decision per connect failure, the first being the decision for the context as it stands |
| `RetryRuns.TriesAfter` | src/proxy/mod.rs:89 | over a run of failures the counter never decreases and grows by at most one per failure |
| `RetryRuns.CountRetries` | src/proxy/mod.rs:89-91 | counts the retryable decisions; zero exactly when no decision is a retry |
| `RetryRuns.TriesCountRetries` | src/proxy/mod.rs:89-91 | the counter at the end of a run is the counter at its start plus the number of retryable decisions |
| `RetryRuns.RetriesBounded` | src/proxy/mod.rs:79-81 | with a retry count `n` and a counter within it, at most `n - tries` failures of any run are retried and the counter ends within `n` |
| `RetryRuns.NoPolicyNeverRetries` | src/proxy/mod.rs:77-78 | without a route or a retry count every decision is `NoRetryPolicy` and the counter stays where it was, even with a timeout configured |
| `RetryRuns.ExactRetries` | src/proxy/mod.rs:79-91 | with a count `n` and no time budget, exactly the first `n - tries` failures are retried and every later one is `ExhaustedAttempts` (so `n = 2` allows three attempts in all) |
| `RetryRuns.AttemptsExhaustionIsFinal` | src/proxy/mod.rs:79-81 | once a failure finds the count exhausted, every later failure does too |
| `RetryRuns.TimeExhaustionIsFinal` | src/proxy/mod.rs:83-86 | once a failure finds the time budget spent, every later failure on a clock that does not go backwards does too, since the budget runs from creation and not from the last attempt |

## Left out

- `upstream_peer` and `upstream_request_filter` (src/proxy/mod.rs:99-120): they delegate to peer selection and host rewrite in the `router` and `lb` modules, which are not part of this model, and they `unwrap()` a missing route (src/proxy/mod.rs:104, 116), which panics; the code has no error value for that case, so none is modelled.
- The route matcher (`MatchEntry::match_request`), the load balancer's `get_retries`, `get_retry_timeout`, peer selection and host rewrite, and the `discovery` module are not part of this model: the matcher is a function parameter of the service and the load balancer is reduced to its two retry settings.
- `Proxy.ProxyService.constructor`: the source builds the service with `#[derive(Default)]` (src/proxy/mod.rs:36-39), that is, from a default `MatchEntry`; the model builds it from an arbitrary matcher function, since the route table is not part of this model.
- `now()` (src/proxy/mod.rs:123-127) reads the wall clock; it is replaced by the parameter `now`.
- `Proxy.ProxyService.FailToConnect`: requires `now >= createdAt`; the source's `u64` subtraction at src/proxy/mod.rs:84 would underflow (a panic in debug builds, a wrap-around in release builds) on a clock that went backwards, which the model does not capture.
- `Proxy.Decide`: computes `timeout * 1000` on unbounded integers; the source's `u64` product overflows for timeouts above 18446744073709551 seconds, which the model does not capture. The counter is a `nat`; the source's `usize` cannot overflow here because it is only incremented while below the retry count.
- The error is a value whose `retry` flag `FailToConnect` returns updated, rather than a boxed error mutated in place; a freshly created error (the 404) is taken to be non-retryable, since pingora's error type is not part of this model.
- The unused `_session` and `_peer` arguments of `fail_to_connect`, pingora's `Session`, `HttpPeer`, `async_trait` and `Arc` sharing are engine plumbing that does not affect the decisions; the request is reduced to the metadata the matcher may read.
