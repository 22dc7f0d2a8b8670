/**
 * The `for (const ticker of tickers)` loop shared by `generateRecommendations`
 * in app.js and client.js: show the ticker's loading text, wait 1.5 seconds
 * unless nothing has been pushed yet, fetch, and push the record built from
 * the data; the first error leaves the loop and is rethrown.
 */
module PacedLoop {
  import opened Wrappers
  import opened Events

  /** The `setTimeout` between two consecutive fetches. */
  const PacingDelay: nat := 1500

  /**
   * The per-ticker work after the pause: fetch the ticker at a given position
   * and build its record, with the trace of what the fetch did.
   */
  type Fetcher<!R> = (string, nat) -> (seq<Event>, Result<R, string>)

  /** The state of the loop: the trace so far, the records pushed, and the error that ended it. */
  datatype Progress<R> = Progress(trace: seq<Event>, records: seq<R>, failure: Option<string>)

  /**
   * One pass of the loop body for ticker `t`: log it, pause unless it is the
   * first record, fetch, then push the record or stop with the error.
   */
  function Step<R>(prev: Progress<R>, t: string, fetched: (seq<Event>, Result<R, string>)): Progress<R>
  {
    var trace := prev.trace + [Loading(t)]
                 + (if |prev.records| > 0 then [Pause(PacingDelay)] else []) + fetched.0;
    match fetched.1
    case Err(m) => Progress(trace, prev.records, Some(m))
    case Ok(r) => Progress(trace, prev.records + [r], None)
  }

  /** The loop over the first `n` tickers. */
  function Gather<R>(tickers: seq<string>, fetch: Fetcher<R>, n: nat): Progress<R>
    requires n <= |tickers|
  {
    if n == 0 then Progress([], [], None)
    else
      var prev := Gather(tickers, fetch, n - 1);
      if prev.failure.Some? then prev
      else Step(prev, tickers[n - 1], fetch(tickers[n - 1], n - 1))
  }

  /**
   * The loop itself: for each ticker in order, log it, pause unless a record
   * has been pushed already, run the per-ticker work, and push its record;
   * the first error leaves the loop.
   */
  method RunLoop<R>(tickers: seq<string>, fetch: Fetcher<R>)
    returns (trace: seq<Event>, records: seq<R>, failure: Option<string>)
    ensures Gather(tickers, fetch, |tickers|) == Progress(trace, records, failure)
  {
    trace, records := [], [];
    var i := 0;
    while i < |tickers|
      invariant i <= |tickers|
      invariant Gather(tickers, fetch, i) == Progress(trace, records, None)
    {
      var ticker := tickers[i];
      ghost var before := Progress(trace, records, None);
      trace := trace + [Loading(ticker)];
      if |records| > 0 {
        trace := trace + [Pause(PacingDelay)];
      }
      var fetched := fetch(ticker, i);
      trace := trace + fetched.0;
      assert Gather(tickers, fetch, i + 1) == Step(before, ticker, fetched);
      if fetched.1.Err? {
        failure := Some(fetched.1.error);
        FailureIsFinal(tickers, fetch, i + 1, |tickers|);
        return;
      }
      records := records + [fetched.1.value];
      i := i + 1;
    }
    failure := None;
  }

  /** Every fetch before position `n` succeeded. */
  predicate FetchedUpTo<R>(tickers: seq<string>, fetch: Fetcher<R>, n: nat)
    requires n <= |tickers|
  {
    forall j :: 0 <= j < n ==> fetch(tickers[j], j).1.Ok?
  }

  /** Once a fetch has failed, no later ticker is fetched. */
  lemma {:induction false} FailureIsFinal<R>(tickers: seq<string>, fetch: Fetcher<R>, n: nat, m: nat)
    requires n <= m <= |tickers|
    requires Gather(tickers, fetch, n).failure.Some?
    ensures Gather(tickers, fetch, m) == Gather(tickers, fetch, n)
    decreases m
  {
    if m > n {
      FailureIsFinal(tickers, fetch, n, m - 1);
    }
  }

  /**
   * The records pushed are the results of the first fetches, in ticker
   * order; without a failure there is one per ticker.
   */
  lemma {:induction false} GatherRecords<R>(tickers: seq<string>, fetch: Fetcher<R>, n: nat)
    requires n <= |tickers|
    ensures |Gather(tickers, fetch, n).records| <= n
    ensures forall i :: 0 <= i < |Gather(tickers, fetch, n).records| ==>
      fetch(tickers[i], i).1 == Ok(Gather(tickers, fetch, n).records[i])
  {
    GatherCount(tickers, fetch, n);
    if n > 0 {
      GatherRecords(tickers, fetch, n - 1);
    }
  }

  /** The loop pushes at most one record per ticker, and exactly one when no fetch fails. */
  lemma {:induction false} GatherCount<R>(tickers: seq<string>, fetch: Fetcher<R>, n: nat)
    requires n <= |tickers|
    ensures |Gather(tickers, fetch, n).records| <= n
    ensures Gather(tickers, fetch, n).failure.None? ==> |Gather(tickers, fetch, n).records| == n
  {
    if n > 0 {
      GatherCount(tickers, fetch, n - 1);
    }
  }

  /** The loop runs to position `n` without an error exactly when every fetch before `n` succeeds. */
  lemma {:induction false} GatherSucceeds<R>(tickers: seq<string>, fetch: Fetcher<R>, n: nat)
    requires n <= |tickers|
    ensures Gather(tickers, fetch, n).failure.None? <==> FetchedUpTo(tickers, fetch, n)
  {
    if n > 0 {
      GatherSucceeds(tickers, fetch, n - 1);
      if Gather(tickers, fetch, n).failure.None? {
        GatherRecords(tickers, fetch, n);
        GatherCount(tickers, fetch, n);
      }
    }
  }

  /** The first failing fetch ends the loop with its error and keeps the records pushed before it. */
  lemma GatherStopsAt<R>(tickers: seq<string>, fetch: Fetcher<R>, k: nat, n: nat)
    requires k < n <= |tickers|
    requires FetchedUpTo(tickers, fetch, k) && fetch(tickers[k], k).1.Err?
    ensures Gather(tickers, fetch, n).failure == Some(fetch(tickers[k], k).1.error)
    ensures Gather(tickers, fetch, n).records == Gather(tickers, fetch, k).records
  {
    GatherSucceeds(tickers, fetch, k);
    var prev := Gather(tickers, fetch, k);
    assert Gather(tickers, fetch, k + 1) == Step(prev, tickers[k], fetch(tickers[k], k));
    FailureIsFinal(tickers, fetch, k + 1, n);
  }

  /** An error that ended the loop is the error of the first failing fetch. */
  lemma {:induction false} GatherFailureCause<R>(tickers: seq<string>, fetch: Fetcher<R>, n: nat)
    requires n <= |tickers|
    requires Gather(tickers, fetch, n).failure.Some?
    ensures exists k :: (0 <= k < n && FetchedUpTo(tickers, fetch, k)
                         && fetch(tickers[k], k).1 == Err(Gather(tickers, fetch, n).failure.value))
  {
    var prev := Gather(tickers, fetch, n - 1);
    if prev.failure.Some? {
      GatherFailureCause(tickers, fetch, n - 1);
    } else {
      GatherSucceeds(tickers, fetch, n - 1);
      assert fetch(tickers[n - 1], n - 1).1 == Err(Gather(tickers, fetch, n).failure.value);
    }
  }

  /**
   * The loop ends with error `m` exactly when some fetch fails with `m`
   * after all earlier ones succeeded.
   */
  lemma GatherFailsWith<R>(tickers: seq<string>, fetch: Fetcher<R>, n: nat, m: string)
    requires n <= |tickers|
    ensures Gather(tickers, fetch, n).failure == Some(m)
      <==> exists k :: 0 <= k < n && FetchedUpTo(tickers, fetch, k) && fetch(tickers[k], k).1 == Err(m)
  {
    if Gather(tickers, fetch, n).failure.Some? {
      GatherFailureCause(tickers, fetch, n);
    }
    if exists k :: 0 <= k < n && FetchedUpTo(tickers, fetch, k) && fetch(tickers[k], k).1 == Err(m) {
      var k :| 0 <= k < n && FetchedUpTo(tickers, fetch, k) && fetch(tickers[k], k).1 == Err(m);
      GatherStopsAt(tickers, fetch, k, n);
    }
  }

  /**
   * What the user sees while waiting, for the tickers `ts` that are fetched:
   * each ticker's loading text, followed by a pacing pause for every ticker
   * but the first.
   */
  function PacedSchedule(ts: seq<string>): seq<Event>
  {
    if |ts| == 0 then []
    else PacedSchedule(ts[..|ts| - 1]) + [Loading(ts[|ts| - 1])] + (if |ts| > 1 then [Pause(PacingDelay)] else [])
  }

  /**
   * The paced schedule, position by position: the first ticker's loading
   * text, then for each later ticker its loading text at an odd position and
   * a 1500 ms pause right after it.
   */
  lemma {:induction false} PacedScheduleShape(ts: seq<string>)
    ensures |PacedSchedule(ts)| == if |ts| == 0 then 0 else 2 * |ts| - 1
    ensures forall i :: 0 <= i < |PacedSchedule(ts)| ==>
      PacedSchedule(ts)[i] == if i == 0 || i % 2 == 1 then Loading(ts[(i + 1) / 2]) else Pause(PacingDelay)
  {
    if |ts| > 0 {
      var n := |ts| - 1;
      var init := ts[..n];
      PacedScheduleShape(init);
      var ps := PacedSchedule(ts);
      forall i | 0 <= i < |ps|
        ensures ps[i] == if i == 0 || i % 2 == 1 then Loading(ts[(i + 1) / 2]) else Pause(PacingDelay)
      {
        if i < |PacedSchedule(init)| {
          assert ps[i] == PacedSchedule(init)[i];
          if i == 0 || i % 2 == 1 {
            assert init[(i + 1) / 2] == ts[(i + 1) / 2];
          }
        }
      }
    }
  }

  /** A fetcher that shows no loading text and awaits no pacing delay of its own. */
  predicate Unpaced<R>(tickers: seq<string>, fetch: Fetcher<R>)
  {
    forall i :: 0 <= i < |tickers| ==> Schedule(fetch(tickers[i], i).0) == []
  }

  /** One pass of the loop adds the ticker's loading text and the pause, if any, to the schedule. */
  lemma StepSchedule(before: seq<Event>, t: string, pause: seq<Event>, fetched: seq<Event>)
    requires pause == [] || pause == [Pause(PacingDelay)]
    requires Schedule(fetched) == []
    ensures Schedule(before + [Loading(t)] + pause + fetched) == Schedule(before) + [Loading(t)] + pause
  {
    ScheduleAppend(before + [Loading(t)] + pause, fetched);
    ScheduleAppend(before + [Loading(t)], pause);
    ScheduleAppend(before, [Loading(t)]);
    assert [Loading(t)][..0] == [];
    if pause != [] {
      assert pause[..0] == [];
    }
  }

  /** The number of tickers whose fetch the loop has started: those pushed, and the one that failed. */
  function Started<R>(g: Progress<R>): nat
  {
    |g.records| + (if g.failure.Some? then 1 else 0)
  }

  /** One pass of the loop extends the paced schedule of the tickers started so far by the next ticker. */
  lemma StepPacing<R>(tickers: seq<string>, n: nat, prev: Progress<R>, fetched: (seq<Event>, Result<R, string>))
    requires 0 < n <= |tickers| && |prev.records| == n - 1
    requires Schedule(prev.trace) == PacedSchedule(tickers[..n - 1]) && Schedule(fetched.0) == []
    ensures var g := Step(prev, tickers[n - 1], fetched);
      Started(g) == n && Schedule(g.trace) == PacedSchedule(tickers[..n])
  {
    var t := tickers[n - 1];
    var pause: seq<Event> := if n - 1 > 0 then [Pause(PacingDelay)] else [];
    var g := Step(prev, t, fetched);
    assert g.trace == prev.trace + [Loading(t)] + pause + fetched.0;
    StepSchedule(prev.trace, t, pause, fetched.0);
    var ts := tickers[..n];
    assert ts[..n - 1] == tickers[..n - 1];
    assert PacedSchedule(ts) == PacedSchedule(tickers[..n - 1]) + [Loading(t)] + pause;
  }

  /** The loop's schedule is the paced schedule of the tickers it has started to fetch. */
  lemma {:induction false} GatherPacing<R>(tickers: seq<string>, fetch: Fetcher<R>, n: nat)
    requires n <= |tickers| && Unpaced(tickers, fetch)
    ensures Started(Gather(tickers, fetch, n)) <= n
    ensures Schedule(Gather(tickers, fetch, n).trace) == PacedSchedule(tickers[..Started(Gather(tickers, fetch, n))])
  {
    var g := Gather(tickers, fetch, n);
    if n == 0 {
      assert g == Progress([], [], None);
      assert tickers[..0] == [];
    } else {
      var prev := Gather(tickers, fetch, n - 1);
      GatherPacing(tickers, fetch, n - 1);
      if prev.failure.None? {
        GatherCount(tickers, fetch, n - 1);
        var fetched := fetch(tickers[n - 1], n - 1);
        assert g == Step(prev, tickers[n - 1], fetched);
        StepPacing(tickers, n, prev, fetched);
      } else {
        assert g == prev;
      }
    }
  }

  /**
   * If the fetches before position `k` succeed and the one at `k` fails (or
   * `k` is past the end), the loop shows the paced schedule of exactly the
   * tickers up to and including `k`.
   */
  lemma GatherPacingUpTo<R>(tickers: seq<string>, fetch: Fetcher<R>, k: nat)
    requires Unpaced(tickers, fetch)
    requires k <= |tickers| && FetchedUpTo(tickers, fetch, k)
    requires k < |tickers| ==> fetch(tickers[k], k).1.Err?
    ensures Schedule(Gather(tickers, fetch, |tickers|).trace)
      == PacedSchedule(tickers[..if k == |tickers| then k else k + 1])
  {
    var n := |tickers|;
    GatherPacing(tickers, fetch, n);
    GatherSucceeds(tickers, fetch, k);
    GatherCount(tickers, fetch, k);
    if k < n {
      GatherStopsAt(tickers, fetch, k, n);
    }
  }
}
