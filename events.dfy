/**
 * What the scripts do observably while a recommendation is computed, as a
 * trace: the progress text they display, every `setTimeout` they await and
 * every request they send.
 */
module Events {

  datatype Event =
    | Loading(ticker: string)
      // `Loading market data for {ticker}...` shown before the ticker's fetch
    | Pause(ms: nat)
      // the pacing `setTimeout` awaited before every fetch but the first
    | Request(ticker: string, viaProxy: bool)
      // one `fetch` of the ticker's market data, directly or through the CORS proxy
    | RetryWait(ticker: string, ms: nat, attemptsRemaining: nat)
      // `Rate limit reached for {ticker}. Retrying in ...` shown, then a `setTimeout` of `ms`

  /** The number of requests in a trace. */
  function RequestCount(trace: seq<Event>): nat
  {
    if |trace| == 0 then 0
    else RequestCount(trace[..|trace| - 1]) + (if trace[|trace| - 1].Request? then 1 else 0)
  }

  /** The durations of the retry waits of a trace, in order. */
  function RetryDelays(trace: seq<Event>): seq<nat>
  {
    if |trace| == 0 then []
    else RetryDelays(trace[..|trace| - 1]) + (if trace[|trace| - 1].RetryWait? then [trace[|trace| - 1].ms] else [])
  }

  /** The pacing part of a trace: its `Loading` and `Pause` events, in order. */
  function Schedule(trace: seq<Event>): seq<Event>
  {
    if |trace| == 0 then []
    else
      var e := trace[|trace| - 1];
      Schedule(trace[..|trace| - 1]) + (if e.Loading? || e.Pause? then [e] else [])
  }

  lemma {:induction false} RequestCountAppend(a: seq<Event>, b: seq<Event>)
    ensures RequestCount(a + b) == RequestCount(a) + RequestCount(b)
    decreases |b|
  {
    if |b| == 0 {
      assert a + b == a;
    } else {
      assert (a + b)[..|a + b| - 1] == a + b[..|b| - 1];
      RequestCountAppend(a, b[..|b| - 1]);
    }
  }

  lemma {:induction false} RetryDelaysAppend(a: seq<Event>, b: seq<Event>)
    ensures RetryDelays(a + b) == RetryDelays(a) + RetryDelays(b)
    decreases |b|
  {
    if |b| == 0 {
      assert a + b == a;
    } else {
      assert (a + b)[..|a + b| - 1] == a + b[..|b| - 1];
      RetryDelaysAppend(a, b[..|b| - 1]);
    }
  }

  lemma {:induction false} ScheduleAppend(a: seq<Event>, b: seq<Event>)
    ensures Schedule(a + b) == Schedule(a) + Schedule(b)
    decreases |b|
  {
    if |b| == 0 {
      assert a + b == a;
    } else {
      assert (a + b)[..|a + b| - 1] == a + b[..|b| - 1];
      ScheduleAppend(a, b[..|b| - 1]);
    }
  }
}
