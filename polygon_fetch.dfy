/**
 * `fetchStockData(ticker)` of app.js and its inner `fetchWithRetry`: one
 * request for a year of weekly aggregates, retried with exponential backoff
 * on a rate limit or a network failure, and sent once through the CORS proxy
 * when the direct request is refused with 403.
 */
module PolygonFetch {
  import opened Wrappers
  import opened Events
  import opened Volatility
  import Text

  /** One element of `data.results`: the close `c` and the timestamp `t` of a week. */
  datatype Bar = Bar(c: Price, t: int)

  /** The parsed JSON body of a response: `resultsCount` and `results`, each possibly absent. */
  datatype Body = Body(resultsCount: Option<int>, results: Option<seq<Bar>>)

  /**
   * What one `fetch` produces: a response with its status and, when its text
   * is valid JSON, its body; or a rejected promise (the browser's
   * `TypeError: Failed to fetch`).
   */
  datatype Outcome =
    | Response(status: nat, body: Option<Body>)
    | NetworkFailure

  /** The error a failed fetch ends with; its message is `ErrorMessage`. */
  datatype FetchError =
    | RateLimitExceeded
    | HttpError(status: nat)
    | NoData
    | NetworkError
    | InvalidJson

  /** The normalised series: closes and timestamps as two parallel sequences. */
  datatype Series = Series(prices: seq<Price>, timestamps: seq<int>)

  /** A run of `fetchWithRetry`: what it did, and what it returned or threw. */
  datatype FetchRun = FetchRun(trace: seq<Event>, result: Result<Series, FetchError>)

  const InitialRetries: nat := 3
  const InitialDelay: nat := 1000

  /** `response.ok` */
  predicate IsOk(status: nat)
  {
    200 <= status <= 299
  }

  /** The message of the error the source throws (the fetch's own one for a network failure). */
  function ErrorMessage(e: FetchError, ticker: string): string
  {
    match e
    case RateLimitExceeded => "Rate limit exceeded"
    case HttpError(status) => "HTTP error! status: " + Text.NatToString(status)
    case NoData => "No data available for " + ticker + ". Please ensure the ticker symbol is correct."
    case NetworkError => "Failed to fetch"
    case InvalidJson => "Unexpected token in JSON"
  }

  /**
   * The outcomes the `catch` block retries while attempts remain: the thrown
   * `Rate limit exceeded` and a network failure, whose message contains
   * `Failed to fetch`.
   */
  predicate Retryable(o: Outcome)
  {
    o.NetworkFailure? || o.status == 429
  }

  /** A 403 on the direct URL: the one outcome that switches to the proxy. */
  predicate SwitchesToProxy(o: Outcome, useProxy: bool)
  {
    o.Response? && o.status == 403 && !useProxy
  }

  /** `data.results.map(r => r.c)` and `data.results.map(r => r.t)`. */
  function Normalise(bars: seq<Bar>): (s: Series)
    ensures |s.prices| == |bars| && |s.timestamps| == |bars|
    ensures forall i :: 0 <= i < |bars| ==> s.prices[i] == bars[i].c && s.timestamps[i] == bars[i].t
  {
    Series(seq(|bars|, i requires 0 <= i < |bars| => bars[i].c),
           seq(|bars|, i requires 0 <= i < |bars| => bars[i].t))
  }

  /** What a single outcome returns or throws when it is not retried and not redirected. */
  function Settle(o: Outcome): (r: Result<Series, FetchError>)
  {
    match o
    case NetworkFailure => Err(NetworkError)
    case Response(status, body) =>
      if !IsOk(status) then
        if status == 429 then Err(RateLimitExceeded) else Err(HttpError(status))
      else if body.None? then Err(InvalidJson)
      else if body.value.resultsCount == Some(0) || body.value.results.None? then Err(NoData)
      else Ok(Normalise(body.value.results.value))
  }

  /**
   * `fetchWithRetry(url, useProxy, retries, delay)`: `respond(attempt)` is
   * the outcome of the request with that index.
   */
  function FetchWithRetry(ticker: string, respond: nat -> Outcome, attempt: nat,
                          useProxy: bool, retries: nat, delay: nat): (run: FetchRun)
    decreases retries, !useProxy
  {
    var o := respond(attempt);
    var request := [Request(ticker, useProxy)];
    if SwitchesToProxy(o, useProxy) then
      var rest := FetchWithRetry(ticker, respond, attempt + 1, true, retries, delay);
      FetchRun(request + rest.trace, rest.result)
    else if Retryable(o) && retries > 0 then
      var rest := FetchWithRetry(ticker, respond, attempt + 1, useProxy, retries - 1, delay * 2);
      FetchRun(request + [RetryWait(ticker, delay, retries)] + rest.trace, rest.result)
    else
      FetchRun(request, Settle(o))
  }

  /**
   * `fetchStockData(ticker)`: the first request is direct, with three retries
   * and a first delay of one second; any error is rethrown with the ticker.
   */
  function FetchStockData(ticker: string, respond: nat -> Outcome): (r: (seq<Event>, Result<Series, string>))
  {
    var run := FetchWithRetry(ticker, respond, 0, false, InitialRetries, InitialDelay);
    match run.result
    case Ok(s) => (run.trace, Ok(s))
    case Err(e) =>
      (run.trace, Err("Failed to fetch data for " + ticker + ". Please try again later. (" + ErrorMessage(e, ticker) + ")"))
  }

  // ---------------------------------------------------------------------
  // Properties of the retry policy
  // ---------------------------------------------------------------------

  /**
   * A 403 on the direct URL is followed by exactly one request through the
   * proxy, with the same retries and delay: no retry is spent, no wait is made.
   */
  lemma ForbiddenSwitchesToProxy(ticker: string, respond: nat -> Outcome, k: nat, retries: nat, delay: nat)
    requires respond(k).Response? && respond(k).status == 403
    ensures var run := FetchWithRetry(ticker, respond, k, false, retries, delay);
      var rest := FetchWithRetry(ticker, respond, k + 1, true, retries, delay);
      run.trace == [Request(ticker, false)] + rest.trace && run.result == rest.result
      && rest.trace[0] == Request(ticker, true)
  {
  }

  /** A 403 through the proxy is final: one request, and `HTTP error! status: 403`. */
  lemma ForbiddenViaProxyIsFinal(ticker: string, respond: nat -> Outcome, k: nat, retries: nat, delay: nat)
    requires respond(k).Response? && respond(k).status == 403
    ensures FetchWithRetry(ticker, respond, k, true, retries, delay)
      == FetchRun([Request(ticker, true)], Err(HttpError(403)))
  {
  }

  /**
   * Missing or zero results, invalid JSON and every status other than 403
   * and 429 end the fetch at once, whatever the retries left.
   */
  lemma NonRetryableIsFinal(ticker: string, respond: nat -> Outcome, k: nat, useProxy: bool, retries: nat, delay: nat)
    requires respond(k).Response? && respond(k).status != 429 && respond(k).status != 403
    ensures var run := FetchWithRetry(ticker, respond, k, useProxy, retries, delay);
      run.trace == [Request(ticker, useProxy)] && run.result == Settle(respond(k))
    ensures var o := respond(k);
      IsOk(o.status) && o.body.Some? && (o.body.value.resultsCount == Some(0) || o.body.value.results.None?)
      ==> FetchWithRetry(ticker, respond, k, useProxy, retries, delay).result == Err(NoData)
    ensures !IsOk(respond(k).status)
      ==> FetchWithRetry(ticker, respond, k, useProxy, retries, delay).result == Err(HttpError(respond(k).status))
  {
  }

  /** The requests and waits of a fetch that keeps failing with retryable outcomes. */
  function BackoffSchedule(ticker: string, useProxy: bool, retries: nat, delay: nat): seq<Event>
    decreases retries
  {
    if retries == 0 then [Request(ticker, useProxy)]
    else [Request(ticker, useProxy), RetryWait(ticker, delay, retries)]
         + BackoffSchedule(ticker, useProxy, retries - 1, delay * 2)
  }

  /**
   * Retryable failures on every attempt exhaust the retries along the
   * backoff schedule and end with the error of the last attempt.
   */
  lemma {:induction false} PersistentFailure(ticker: string, respond: nat -> Outcome, k: nat,
                                              useProxy: bool, retries: nat, delay: nat)
    requires forall j :: k <= j <= k + retries ==> Retryable(respond(j))
    ensures var run := FetchWithRetry(ticker, respond, k, useProxy, retries, delay);
      run.trace == BackoffSchedule(ticker, useProxy, retries, delay)
      && run.result == Settle(respond(k + retries))
    decreases retries
  {
    assert Retryable(respond(k));
    if retries > 0 {
      PersistentFailure(ticker, respond, k + 1, useProxy, retries - 1, delay * 2);
    }
  }

  /**
   * From the initial state: waits of 1000, 2000 and 4000 ms between four
   * requests, then the failure. A 429 every time ends with `Rate limit exceeded`.
   */
  lemma RateLimitedThroughout(ticker: string, respond: nat -> Outcome)
    requires forall j :: Retryable(respond(j))
    ensures var run := FetchWithRetry(ticker, respond, 0, false, InitialRetries, InitialDelay);
      run.trace == [Request(ticker, false), RetryWait(ticker, 1000, 3),
                    Request(ticker, false), RetryWait(ticker, 2000, 2),
                    Request(ticker, false), RetryWait(ticker, 4000, 1),
                    Request(ticker, false)]
      && run.result == Settle(respond(3))
      && (respond(3).Response? ==> run.result == Err(RateLimitExceeded))
  {
    PersistentFailure(ticker, respond, 0, false, InitialRetries, InitialDelay);
  }

  /** `delay * 2^i` */
  function Doubled(delay: nat, i: nat): nat
  {
    if i == 0 then delay else 2 * Doubled(delay, i - 1)
  }

  /** The request that opens every step, and the wait that follows it on a retry. */
  lemma StepEvents(ticker: string, useProxy: bool, delay: nat, retries: nat)
    ensures var request := [Request(ticker, useProxy)];
      var head := request + [RetryWait(ticker, delay, retries)];
      && RetryDelays(request) == [] && RequestCount(request) == 1
      && RetryDelays(head) == [delay] && RequestCount(head) == 1
  {
    var request := [Request(ticker, useProxy)];
    var head := request + [RetryWait(ticker, delay, retries)];
    assert request[..0] == [];
    assert head[..1] == request;
  }

  /**
   * Whatever the outcomes: the waits are `delay`, `2 delay`, `4 delay`, ...
   * in that order, and there are at most `retries` of them.
   */
  lemma {:induction false} BackoffDoubles(ticker: string, respond: nat -> Outcome, k: nat,
                                          useProxy: bool, retries: nat, delay: nat)
    ensures var waits := RetryDelays(FetchWithRetry(ticker, respond, k, useProxy, retries, delay).trace);
      && |waits| <= retries
      && (forall i :: 0 <= i < |waits| ==> waits[i] == Doubled(delay, i))
    decreases retries, !useProxy
  {
    var o := respond(k);
    var request := [Request(ticker, useProxy)];
    StepEvents(ticker, useProxy, delay, retries);
    if SwitchesToProxy(o, useProxy) {
      var rest := FetchWithRetry(ticker, respond, k + 1, true, retries, delay);
      assert FetchWithRetry(ticker, respond, k, useProxy, retries, delay).trace == request + rest.trace;
      BackoffDoubles(ticker, respond, k + 1, true, retries, delay);
      RetryDelaysAppend(request, rest.trace);
    } else if Retryable(o) && retries > 0 {
      var rest := FetchWithRetry(ticker, respond, k + 1, useProxy, retries - 1, delay * 2);
      var head := request + [RetryWait(ticker, delay, retries)];
      assert FetchWithRetry(ticker, respond, k, useProxy, retries, delay).trace == head + rest.trace;
      BackoffDoubles(ticker, respond, k + 1, useProxy, retries - 1, delay * 2);
      RetryDelaysAppend(head, rest.trace);
      PrependDoubled(delay, RetryDelays(rest.trace));
    } else {
      assert FetchWithRetry(ticker, respond, k, useProxy, retries, delay).trace == request;
    }
  }

  /**
   * Every request but at most one proxy switch is followed by a wait or ends
   * the fetch: at most `retries + 2` requests (`retries + 1` once on the proxy).
   */
  lemma {:induction false} AttemptBound(ticker: string, respond: nat -> Outcome, k: nat,
                                        useProxy: bool, retries: nat, delay: nat)
    ensures var run := FetchWithRetry(ticker, respond, k, useProxy, retries, delay);
      var waits := RetryDelays(run.trace);
      |waits| + 1 <= RequestCount(run.trace) <= |waits| + (if useProxy then 1 else 2)
    ensures RequestCount(FetchWithRetry(ticker, respond, k, useProxy, retries, delay).trace)
      <= retries + (if useProxy then 1 else 2)
    decreases retries, !useProxy
  {
    var o := respond(k);
    var request := [Request(ticker, useProxy)];
    StepEvents(ticker, useProxy, delay, retries);
    BackoffDoubles(ticker, respond, k, useProxy, retries, delay);
    if SwitchesToProxy(o, useProxy) {
      var rest := FetchWithRetry(ticker, respond, k + 1, true, retries, delay);
      AttemptBound(ticker, respond, k + 1, true, retries, delay);
      RequestCountAppend(request, rest.trace);
      RetryDelaysAppend(request, rest.trace);
    } else if Retryable(o) && retries > 0 {
      var rest := FetchWithRetry(ticker, respond, k + 1, useProxy, retries - 1, delay * 2);
      var head := request + [RetryWait(ticker, delay, retries)];
      AttemptBound(ticker, respond, k + 1, useProxy, retries - 1, delay * 2);
      RequestCountAppend(head, rest.trace);
      RetryDelaysAppend(head, rest.trace);
    }
  }

  /** A first wait of `delay` followed by waits doubling from `2 delay` doubles from `delay`. */
  lemma PrependDoubled(delay: nat, rest: seq<nat>)
    requires forall i :: 0 <= i < |rest| ==> rest[i] == Doubled(delay * 2, i)
    ensures forall i :: 0 <= i < |[delay] + rest| ==> ([delay] + rest)[i] == Doubled(delay, i)
  {
    forall i | 0 <= i < |[delay] + rest| ensures ([delay] + rest)[i] == Doubled(delay, i) {
      if i > 0 {
        DoubledShift(delay, i - 1);
      }
    }
  }

  lemma {:induction false} DoubledShift(delay: nat, i: nat)
    ensures Doubled(2 * delay, i) == Doubled(delay, i + 1)
  {
    if i > 0 {
      DoubledShift(delay, i - 1);
    }
  }

  /** Whatever happens before, a fetch returns or throws what its last request settles to. */
  lemma {:induction false} LastRequestSettles(ticker: string, respond: nat -> Outcome, k: nat,
                                              useProxy: bool, retries: nat, delay: nat)
    ensures RequestCount(FetchWithRetry(ticker, respond, k, useProxy, retries, delay).trace) > 0
    ensures var run := FetchWithRetry(ticker, respond, k, useProxy, retries, delay);
      run.result == Settle(respond(k + RequestCount(run.trace) - 1))
    decreases retries, !useProxy, 1
  {
    var o := respond(k);
    if SwitchesToProxy(o, useProxy) {
      ProxySettles(ticker, respond, k, retries, delay);
    } else if Retryable(o) && retries > 0 {
      RetrySettles(ticker, respond, k, useProxy, retries, delay);
    } else {
      var request := [Request(ticker, useProxy)];
      assert RequestCount(request) == 1 by { assert request[..0] == []; }
      assert FetchWithRetry(ticker, respond, k, useProxy, retries, delay) == FetchRun(request, Settle(o));
    }
  }

  /** The proxy step of `LastRequestSettles`. */
  lemma {:induction false} ProxySettles(ticker: string, respond: nat -> Outcome, k: nat, retries: nat, delay: nat)
    requires SwitchesToProxy(respond(k), false)
    ensures RequestCount(FetchWithRetry(ticker, respond, k, false, retries, delay).trace) > 0
    ensures var run := FetchWithRetry(ticker, respond, k, false, retries, delay);
      run.result == Settle(respond(k + RequestCount(run.trace) - 1))
    decreases retries, true, 0
  {
    var request := [Request(ticker, false)];
    var rest := FetchWithRetry(ticker, respond, k + 1, true, retries, delay);
    assert RequestCount(request) == 1 by { assert request[..0] == []; }
    assert FetchWithRetry(ticker, respond, k, false, retries, delay) == FetchRun(request + rest.trace, rest.result);
    LastRequestSettles(ticker, respond, k + 1, true, retries, delay);
    SettlesAfterOneMore(respond, k, request, rest.trace, rest.result);
  }

  /** The retry step of `LastRequestSettles`. */
  lemma {:induction false} RetrySettles(ticker: string, respond: nat -> Outcome, k: nat,
                                        useProxy: bool, retries: nat, delay: nat)
    requires !SwitchesToProxy(respond(k), useProxy) && Retryable(respond(k)) && retries > 0
    ensures RequestCount(FetchWithRetry(ticker, respond, k, useProxy, retries, delay).trace) > 0
    ensures var run := FetchWithRetry(ticker, respond, k, useProxy, retries, delay);
      run.result == Settle(respond(k + RequestCount(run.trace) - 1))
    decreases retries, !useProxy, 0
  {
    var request := [Request(ticker, useProxy)];
    var rest := FetchWithRetry(ticker, respond, k + 1, useProxy, retries - 1, delay * 2);
    var head := request + [RetryWait(ticker, delay, retries)];
    StepEvents(ticker, useProxy, delay, retries);
    assert FetchWithRetry(ticker, respond, k, useProxy, retries, delay) == FetchRun(head + rest.trace, rest.result);
    LastRequestSettles(ticker, respond, k + 1, useProxy, retries - 1, delay * 2);
    SettlesAfterOneMore(respond, k, head, rest.trace, rest.result);
  }

  /** One more request in front of a run that settles on its last request still settles on its last request. */
  lemma SettlesAfterOneMore(respond: nat -> Outcome, k: nat, head: seq<Event>, rest: seq<Event>,
                            result: Result<Series, FetchError>)
    requires RequestCount(head) == 1 && RequestCount(rest) > 0
    requires result == Settle(respond(k + 1 + RequestCount(rest) - 1))
    ensures RequestCount(head + rest) > 0
    ensures result == Settle(respond(k + RequestCount(head + rest) - 1))
  {
    RequestCountAppend(head, rest);
  }

  /**
   * A successful fetch returns the closes and timestamps of the `results` of
   * its last response, in order and of equal length: that response was OK,
   * parsed, and neither had a zero `resultsCount` nor lacked `results`.
   */
  lemma SuccessComesFromResults(ticker: string, respond: nat -> Outcome, k: nat,
                                useProxy: bool, retries: nat, delay: nat)
    requires FetchWithRetry(ticker, respond, k, useProxy, retries, delay).result.Ok?
    ensures RequestCount(FetchWithRetry(ticker, respond, k, useProxy, retries, delay).trace) > 0
    ensures var run := FetchWithRetry(ticker, respond, k, useProxy, retries, delay);
      var last := respond(k + RequestCount(run.trace) - 1);
      && last.Response? && IsOk(last.status) && last.body.Some? && last.body.value.results.Some?
      && last.body.value.resultsCount != Some(0)
      && run.result.value == Normalise(last.body.value.results.value)
  {
    LastRequestSettles(ticker, respond, k, useProxy, retries, delay);
  }

  /** A fetch shows no progress text and awaits no pacing delay: its trace has an empty schedule. */
  lemma {:induction false} FetchIsUnpaced(ticker: string, respond: nat -> Outcome, k: nat,
                                          useProxy: bool, retries: nat, delay: nat)
    ensures Schedule(FetchWithRetry(ticker, respond, k, useProxy, retries, delay).trace) == []
    decreases retries, !useProxy
  {
    var o := respond(k);
    var request := [Request(ticker, useProxy)];
    assert request[..0] == [];
    if SwitchesToProxy(o, useProxy) {
      var rest := FetchWithRetry(ticker, respond, k + 1, true, retries, delay);
      FetchIsUnpaced(ticker, respond, k + 1, true, retries, delay);
      ScheduleAppend(request, rest.trace);
    } else if Retryable(o) && retries > 0 {
      var rest := FetchWithRetry(ticker, respond, k + 1, useProxy, retries - 1, delay * 2);
      var head := request + [RetryWait(ticker, delay, retries)];
      assert head[..1] == request;
      FetchIsUnpaced(ticker, respond, k + 1, useProxy, retries - 1, delay * 2);
      ScheduleAppend(head, rest.trace);
    }
  }
}
