/**
 * app_v2.0.js: `generateRecommendations(tickers, funding, riskProfile)` over
 * weekly Yahoo Finance charts. The first loop fetches each ticker's chart,
 * drops the null closes, refuses a series of fewer than two prices,
 * measures the rest and records it in the `stockData` object keyed by
 * ticker; the allocation follows; the second loop reads the percentages by
 * position and the records by ticker.
 */
module ChartRecommend {
  import opened Wrappers
  import opened RealMath
  import opened Volatility
  import opened Allocation

  /**
   * What `fetchStockData(ticker)` resolves to: the weekly closes, null for
   * a week without one, and their timestamps; or the error it rethrows
   * (network, JSON or a missing `chart.result[0]`), by its message.
   */
  datatype ChartOutcome =
    | ChartSeries(closes: seq<Option<Price>>, timestamps: seq<int>)
    | ChartFailure(message: string)

  /** The value `stockData[ticker]` is set to. */
  datatype ChartRecord = ChartRecord(
    volatility: real, currentPrice: Price, yearHigh: real, yearLow: real,
    prices: seq<Price>, timestamps: seq<int>)

  /** One element pushed onto `recommendations`, before `toFixed`. */
  datatype ChartRecommendation = ChartRecommendation(
    ticker: string, percentage: real, amount: real, volatility: real,
    yearHigh: real, yearLow: real, prices: seq<Price>, timestamps: seq<int>)

  /**
   * Why the call throws: a fetch rethrew; a series kept fewer than two
   * prices; the allocation is not finite; or `allocations[i]` is undefined
   * and `allocation.toFixed` raises a TypeError.
   */
  datatype ChartError =
    | FetchThrew(message: string)
    | InsufficientPriceData(message: string)
    | NonFiniteAllocation
    | MissingAllocation

  /** The message of the error thrown for a short series. */
  function InsufficientMessage(ticker: string): string
  {
    "Insufficient price data for " + ticker
  }

  /** `prices.filter(p => p !== null)` */
  function Filter(closes: seq<Option<Price>>): seq<Price>
  {
    if |closes| == 0 then []
    else
      var last := closes[|closes| - 1];
      Filter(closes[..|closes| - 1]) + (if last.Some? then [last.value] else [])
  }

  /**
   * The filter keeps exactly the non-null closes, never adds any, and
   * changes nothing in a series without nulls.
   */
  lemma {:induction false} FilterKeepsPrices(closes: seq<Option<Price>>)
    ensures forall x :: x in Filter(closes) <==> Some(x) in closes
    ensures |Filter(closes)| <= |closes|
    ensures (forall i :: 0 <= i < |closes| ==> closes[i].Some?) ==>
      |Filter(closes)| == |closes| && forall i :: 0 <= i < |closes| ==> Filter(closes)[i] == closes[i].value
  {
    if |closes| > 0 {
      var n := |closes| - 1;
      var init := closes[..n];
      FilterKeepsPrices(init);
      assert closes == init + [closes[n]];
      forall x ensures Some(x) in closes <==> Some(x) in init || Some(x) == closes[n] {
      }
    }
  }

  /**
   * The filter works close by close: filtering a concatenation filters each
   * part, so the kept prices stay in their order, repeats included.
   */
  lemma {:induction false} FilterAppend(a: seq<Option<Price>>, b: seq<Option<Price>>)
    ensures Filter(a + b) == Filter(a) + Filter(b)
    decreases |b|
  {
    if |b| == 0 {
      assert a + b == a;
    } else {
      var n := |b| - 1;
      FilterAppend(a, b[..n]);
      assert (a + b)[..|a + b| - 1] == a + b[..n];
      assert (a + b)[|a + b| - 1] == b[n];
    }
  }

  /** A null between two closes is dropped and the order of the closes kept. */
  lemma FilterExample()
    ensures Filter([Some(1.0), None, Some(2.0), Some(1.0)]) == [1.0, 2.0, 1.0]
  {
    var one: seq<Option<Price>> := [Some(1.0)];
    var gap: seq<Option<Price>> := [None];
    var two: seq<Option<Price>> := [Some(2.0)];
    assert Filter(one) == [1.0] by { assert one[..0] == []; }
    assert Filter(gap) == [] by { assert gap[..0] == []; }
    assert Filter(two) == [2.0] by { assert two[..0] == []; }
    FilterAppend(one, gap);
    FilterAppend(one + gap, two);
    FilterAppend(one + gap + two, one);
    assert one + gap + two + one == [Some(1.0), None, Some(2.0), Some(1.0)];
  }

  /** The body of the first loop for one ticker: the record it stores, or what it throws. */
  function ChartEntry(ticker: string, outcome: ChartOutcome, sqrt: real -> real): (r: Result<ChartRecord, ChartError>)
    ensures r.Err? ==> r.error.FetchThrew? || r.error.InsufficientPriceData?
  {
    match outcome
    case ChartFailure(m) => Err(FetchThrew(m))
    case ChartSeries(closes, timestamps) =>
      var filteredPrices := Filter(closes);
      if |filteredPrices| < 2 then Err(InsufficientPriceData(InsufficientMessage(ticker)))
      else
        Ok(ChartRecord(SeriesVolatility(filteredPrices, sqrt).value, filteredPrices[|filteredPrices| - 1],
                       Max(filteredPrices), Min(filteredPrices), filteredPrices, timestamps))
  }

  /**
   * A stored record describes its series: at least two prices, none of
   * them null, the last one as current price, high and low bounding every
   * price and the current one, and a non-negative volatility of the series.
   */
  lemma ChartRecordDescribes(ticker: string, outcome: ChartOutcome, sqrt: real -> real)
    requires IsSqrt(sqrt) && ChartEntry(ticker, outcome, sqrt).Ok?
    ensures var r := ChartEntry(ticker, outcome, sqrt).value;
      && outcome.ChartSeries?
      && r.prices == Filter(outcome.closes) && |r.prices| >= 2
      && r.timestamps == outcome.timestamps
      && r.currentPrice == r.prices[|r.prices| - 1]
      && (forall i :: 0 <= i < |r.prices| ==> r.yearLow <= r.prices[i] <= r.yearHigh)
      && r.yearLow in r.prices && r.yearHigh in r.prices
      && r.yearLow <= r.currentPrice as real <= r.yearHigh
      && Some(r.volatility) == SeriesVolatility(r.prices, sqrt) && r.volatility >= 0.0
  {
    var ps := Filter(outcome.closes);
    VolatilityNonNegative(ps, sqrt);
  }

  /** A fetched chart is refused exactly when fewer than two of its closes are not null. */
  lemma ChartEntryRefuses(ticker: string, outcome: ChartOutcome, sqrt: real -> real)
    requires outcome.ChartSeries?
    ensures ChartEntry(ticker, outcome, sqrt) == Err(InsufficientPriceData(InsufficientMessage(ticker))) <==> |Filter(outcome.closes)| < 2
    ensures (forall i :: 0 <= i < |outcome.closes| ==> outcome.closes[i].None?) ==>
      ChartEntry(ticker, outcome, sqrt) == Err(InsufficientPriceData(InsufficientMessage(ticker)))
  {
    FilterKeepsPrices(outcome.closes);
    if |Filter(outcome.closes)| > 0 {
      var x := Filter(outcome.closes)[0];
      assert x in Filter(outcome.closes);
    }
  }

  /** The body of the first loop as a function of the ticker and its position. */
  type EntryFn = (string, nat) -> Result<ChartRecord, ChartError>

  /** The entries of app_v2.0.js: `charts(i)` is what the fetch at position `i` resolves to. */
  function ChartEntries(charts: nat -> ChartOutcome, sqrt: real -> real): EntryFn
  {
    (t: string, i: nat) => ChartEntry(t, charts(i), sqrt)
  }

  /** `volatilities` and `stockData` after some iterations of the first loop. */
  datatype Collected = Collected(volatilities: seq<real>, stockData: map<string, ChartRecord>)

  /**
   * The first loop over `tickers[..n]`: it throws the first failure, and
   * otherwise has pushed one volatility per ticker and assigned
   * `stockData[ticker]` for every ticker.
   */
  function Collect(tickers: seq<string>, entry: EntryFn, n: nat): (r: Result<Collected, ChartError>)
    requires n <= |tickers|
    ensures r.Ok? ==> |r.value.volatilities| == n
    ensures r.Ok? ==> forall j :: 0 <= j < n ==> tickers[j] in r.value.stockData
  {
    if n == 0 then Ok(Collected([], map[]))
    else
      match Collect(tickers, entry, n - 1)
      case Err(e) => Err(e)
      case Ok(c) =>
        match entry(tickers[n - 1], n - 1)
        case Err(e) => Err(e)
        case Ok(record) =>
          Ok(Collected(c.volatilities + [record.volatility], c.stockData[tickers[n - 1] := record]))
  }

  /** The entry of every ticker before position `n` succeeded. */
  predicate EntriesOk(tickers: seq<string>, entry: EntryFn, n: nat)
    requires n <= |tickers|
  {
    forall j :: 0 <= j < n ==> entry(tickers[j], j).Ok?
  }

  /** The loop gets past position `n` exactly when every entry before it succeeds. */
  lemma {:induction false} CollectSucceeds(tickers: seq<string>, entry: EntryFn, n: nat)
    requires n <= |tickers|
    ensures Collect(tickers, entry, n).Ok? <==> EntriesOk(tickers, entry, n)
  {
    if n > 0 {
      CollectSucceeds(tickers, entry, n - 1);
    }
  }

  /** The volatilities pushed are those of the entries, in ticker order. */
  lemma {:induction false} CollectVolatilities(tickers: seq<string>, entry: EntryFn, n: nat)
    requires n <= |tickers| && Collect(tickers, entry, n).Ok?
    ensures EntriesOk(tickers, entry, n)
    ensures forall j :: 0 <= j < n ==>
      Collect(tickers, entry, n).value.volatilities[j] == entry(tickers[j], j).value.volatility
  {
    CollectSucceeds(tickers, entry, n);
    if n > 0 {
      CollectVolatilities(tickers, entry, n - 1);
    }
  }

  /** Once the loop has thrown, later tickers change nothing. */
  lemma {:induction false} CollectFailureIsFinal(tickers: seq<string>, entry: EntryFn, n: nat, m: nat)
    requires n <= m <= |tickers| && Collect(tickers, entry, n).Err?
    ensures Collect(tickers, entry, m) == Collect(tickers, entry, n)
    decreases m - n
  {
    if n < m {
      CollectFailureIsFinal(tickers, entry, n, m - 1);
    }
  }

  /** The first failing entry ends the loop with its error. */
  lemma CollectStopsAt(tickers: seq<string>, entry: EntryFn, k: nat, n: nat)
    requires k < n <= |tickers|
    requires EntriesOk(tickers, entry, k) && entry(tickers[k], k).Err?
    ensures Collect(tickers, entry, n) == Err(entry(tickers[k], k).error)
  {
    CollectSucceeds(tickers, entry, k);
    CollectFailureIsFinal(tickers, entry, k + 1, n);
  }

  /** An error that ended the loop is the error of the first failing entry, at position `k`. */
  lemma {:induction false} CollectFailureCause(tickers: seq<string>, entry: EntryFn, n: nat) returns (k: nat)
    requires n <= |tickers| && Collect(tickers, entry, n).Err?
    ensures k < n && EntriesOk(tickers, entry, k)
    ensures entry(tickers[k], k) == Err(Collect(tickers, entry, n).error)
  {
    var prev := Collect(tickers, entry, n - 1);
    if prev.Err? {
      k := CollectFailureCause(tickers, entry, n - 1);
    } else {
      CollectSucceeds(tickers, entry, n - 1);
      k := n - 1;
    }
  }

  /**
   * The loop throws `e` exactly when some ticker's entry fails with `e`
   * after every earlier entry succeeded.
   */
  lemma CollectFailsWith(tickers: seq<string>, entry: EntryFn, n: nat, e: ChartError)
    requires n <= |tickers|
    ensures Collect(tickers, entry, n) == Err(e)
      <==> exists k :: 0 <= k < n && EntriesOk(tickers, entry, k) && entry(tickers[k], k) == Err(e)
  {
    if Collect(tickers, entry, n).Err? {
      var k := CollectFailureCause(tickers, entry, n);
    }
    if exists k :: 0 <= k < n && EntriesOk(tickers, entry, k) && entry(tickers[k], k) == Err(e) {
      var k :| 0 <= k < n && EntriesOk(tickers, entry, k) && entry(tickers[k], k) == Err(e);
      CollectStopsAt(tickers, entry, k, n);
    }
  }

  /** The keys of `stockData` are the tickers seen so far. */
  lemma {:induction false} CollectKeys(tickers: seq<string>, entry: EntryFn, n: nat)
    requires n <= |tickers| && Collect(tickers, entry, n).Ok?
    ensures forall t :: t in Collect(tickers, entry, n).value.stockData <==> t in tickers[..n]
  {
    if n > 0 {
      CollectKeys(tickers, entry, n - 1);
      var last := tickers[n - 1];
      assert tickers[..n] == tickers[..n - 1] + [last];
    }
  }

  /**
   * `stockData[ticker] = {...}` overwrites: the record kept for a ticker is
   * that of its last position.
   */
  lemma {:induction false} LastWriteWins(tickers: seq<string>, entry: EntryFn, n: nat)
    requires n <= |tickers| && Collect(tickers, entry, n).Ok?
    ensures forall i :: 0 <= i < n && (forall j :: i < j < n ==> tickers[j] != tickers[i]) ==>
      Ok(Collect(tickers, entry, n).value.stockData[tickers[i]]) == entry(tickers[i], i)
  {
    if n > 0 {
      LastWriteWins(tickers, entry, n - 1);
      var before := Collect(tickers, entry, n - 1).value.stockData;
      var last := tickers[n - 1];
      var stockData := before[last := entry(last, n - 1).value];
      assert Collect(tickers, entry, n).value.stockData == stockData;
      forall i | 0 <= i < n && (forall j :: i < j < n ==> tickers[j] != tickers[i])
        ensures Ok(stockData[tickers[i]]) == entry(tickers[i], i)
      {
        if i < n - 1 {
          assert tickers[i] != last;
        }
      }
    }
  }

  /** One element of `recommendations`: the object the second loop pushes for a ticker. */
  function ChartRow(ticker: string, allocation: real, funding: real, record: ChartRecord): ChartRecommendation
  {
    ChartRecommendation(ticker, allocation, funding * allocation / 100.0, record.volatility * 100.0,
                        record.yearHigh, record.yearLow, record.prices, record.timestamps)
  }

  /**
   * The second loop: a row per position, the percentage read by position
   * and the record by ticker; a position past the end of `allocations`
   * throws.
   */
  function Assemble(tickers: seq<string>, allocations: seq<real>, stockData: map<string, ChartRecord>, funding: real)
    : Result<seq<ChartRecommendation>, ChartError>
    requires forall i :: 0 <= i < |tickers| ==> tickers[i] in stockData
  {
    if |allocations| < |tickers| then Err(MissingAllocation)
    else Ok(seq(|tickers|, i requires 0 <= i < |tickers| =>
                ChartRow(tickers[i], allocations[i], funding, stockData[tickers[i]])))
  }

  /** The whole call of app_v2.0.js: what it returns or throws. */
  function Recommend(tickers: seq<string>, funding: real, riskProfile: string, charts: nat -> ChartOutcome,
                     sqrt: real -> real): Result<seq<ChartRecommendation>, ChartError>
  {
    match Collect(tickers, ChartEntries(charts, sqrt), |tickers|)
    case Err(e) => Err(e)
    case Ok(c) =>
      match AllocateOrEmpty(c.volatilities, ParseProfile(riskProfile), sqrt)
      case Err(_) => Err(NonFiniteAllocation)
      case Ok(allocations) => Assemble(tickers, allocations, c.stockData, funding)
  }

  /**
   * The body of the first loop for one ticker: filter the closes, refuse a
   * short series, measure it and build the record.
   */
  method MeasureChart(ticker: string, outcome: ChartOutcome, sqrt: real -> real) returns (r: Result<ChartRecord, ChartError>)
    ensures r == ChartEntry(ticker, outcome, sqrt)
  {
    match outcome {
      case ChartFailure(m) =>
        return Err(FetchThrew(m));
      case ChartSeries(closes, timestamps) =>
        var filteredPrices := Filter(closes);
        if |filteredPrices| < 2 {
          return Err(InsufficientPriceData(InsufficientMessage(ticker)));
        }
        var volatility := CalculateVolatility(filteredPrices, sqrt);
        return Ok(ChartRecord(volatility.value, filteredPrices[|filteredPrices| - 1],
                              Max(filteredPrices), Min(filteredPrices), filteredPrices, timestamps));
    }
  }

  /**
   * One iteration of the first loop: measure the chart at position `i`,
   * then push its volatility and store its record, or throw.
   */
  method CollectOne(tickers: seq<string>, charts: nat -> ChartOutcome, sqrt: real -> real, i: nat, c: Collected)
    returns (r: Result<Collected, ChartError>)
    requires i < |tickers| && Collect(tickers, ChartEntries(charts, sqrt), i) == Ok(c)
    ensures r == Collect(tickers, ChartEntries(charts, sqrt), i + 1)
  {
    var ticker := tickers[i];
    var measured := MeasureChart(ticker, charts(i), sqrt);
    if measured.Err? {
      return Err(measured.error);
    }
    return Ok(Collected(c.volatilities + [measured.value.volatility], c.stockData[ticker := measured.value]));
  }

  /**
   * The first loop of `generateRecommendations`: measure each ticker's
   * chart, push the volatility and store the record, or throw.
   */
  method CollectCharts(tickers: seq<string>, charts: nat -> ChartOutcome, sqrt: real -> real)
    returns (r: Result<Collected, ChartError>)
    ensures r == Collect(tickers, ChartEntries(charts, sqrt), |tickers|)
  {
    var collected := Collected([], map[]);
    var i := 0;
    while i < |tickers|
      invariant i <= |tickers|
      invariant Collect(tickers, ChartEntries(charts, sqrt), i) == Ok(collected)
    {
      var next := CollectOne(tickers, charts, sqrt, i, collected);
      if next.Err? {
        CollectFailureIsFinal(tickers, ChartEntries(charts, sqrt), i + 1, |tickers|);
        return next;
      }
      collected := next.value;
      i := i + 1;
    }
    return Ok(collected);
  }

  /**
   * The second loop of `generateRecommendations`: push a row per position,
   * throwing at the first position that has no allocation.
   */
  method AssembleRows(tickers: seq<string>, allocations: seq<real>, stockData: map<string, ChartRecord>, funding: real)
    returns (r: Result<seq<ChartRecommendation>, ChartError>)
    requires forall i :: 0 <= i < |tickers| ==> tickers[i] in stockData
    ensures r == Assemble(tickers, allocations, stockData, funding)
  {
    var recommendations: seq<ChartRecommendation> := [];
    var k := 0;
    while k < |tickers|
      invariant k <= |tickers|
      invariant k <= |allocations|
      invariant |recommendations| == k
      invariant forall j :: 0 <= j < k ==>
        recommendations[j] == ChartRow(tickers[j], allocations[j], funding, stockData[tickers[j]])
    {
      if k >= |allocations| {
        return Err(MissingAllocation);
      }
      recommendations := recommendations + [ChartRow(tickers[k], allocations[k], funding, stockData[tickers[k]])];
      k := k + 1;
    }
    assert recommendations == Assemble(tickers, allocations, stockData, funding).value;
    return Ok(recommendations);
  }

  /**
   * `generateRecommendations(tickers, funding, riskProfile)`: the fetch
   * loop, the allocation, then the loop that builds the rows.
   */
  method GenerateRecommendations(tickers: seq<string>, funding: real, riskProfile: string,
                                 charts: nat -> ChartOutcome, sqrt: real -> real)
    returns (result: Result<seq<ChartRecommendation>, ChartError>)
    ensures result == Recommend(tickers, funding, riskProfile, charts, sqrt)
  {
    var collected := CollectCharts(tickers, charts, sqrt);
    if collected.Err? {
      return Err(collected.error);
    }
    var allocations := AllocateOrEmpty(collected.value.volatilities, ParseProfile(riskProfile), sqrt);
    if allocations.Err? {
      return Err(NonFiniteAllocation);
    }
    result := AssembleRows(tickers, allocations.value, collected.value.stockData, funding);
  }

  // ---------------------------------------------------------------------
  // Properties of the call
  // ---------------------------------------------------------------------

  /** The volatilities of the entries, in ticker order, when every entry succeeded. */
  function EntryVolatilities(tickers: seq<string>, entry: EntryFn): (vols: seq<real>)
    requires EntriesOk(tickers, entry, |tickers|)
    ensures |vols| == |tickers|
  {
    seq(|tickers|, j requires 0 <= j < |tickers| => entry(tickers[j], j).value.volatility)
  }

  /**
   * The percentage column of the rows. Each pipeline returns its own row
   * type, so each module reads its own columns.
   */
  function RowPercentages(rows: seq<ChartRecommendation>): (ps: seq<real>)
    ensures |ps| == |rows|
  {
    seq(|rows|, i requires 0 <= i < |rows| => rows[i].percentage)
  }

  /** The amount column of the rows. */
  function RowAmounts(rows: seq<ChartRecommendation>): (amounts: seq<real>)
    ensures |amounts| == |rows|
  {
    seq(|rows|, i requires 0 <= i < |rows| => rows[i].amount)
  }

  /** Rows built from percentages carry them, and amounts that are those shares of the funding. */
  lemma RowColumns(rows: seq<ChartRecommendation>, tickers: seq<string>, ps: seq<real>, funding: real,
                   stockData: map<string, ChartRecord>)
    requires |rows| == |tickers| == |ps| && forall i :: 0 <= i < |tickers| ==> tickers[i] in stockData
    requires forall i :: 0 <= i < |rows| ==> rows[i] == ChartRow(tickers[i], ps[i], funding, stockData[tickers[i]])
    ensures RowPercentages(rows) == ps
    ensures RowAmounts(rows) == Amounts(funding, ps)
  {
  }

  /**
   * A successful call has every entry succeed, a recognised profile, and
   * one row per ticker in ticker order: the percentages are the allocation
   * of the entries' volatilities, each amount that share of the funding,
   * and the other columns those of the record kept for the ticker.
   */
  lemma RecommendRows(tickers: seq<string>, funding: real, riskProfile: string,
                      charts: nat -> ChartOutcome, sqrt: real -> real)
    requires |tickers| > 0 && Recommend(tickers, funding, riskProfile, charts, sqrt).Ok?
    ensures EntriesOk(tickers, ChartEntries(charts, sqrt), |tickers|)
    ensures ParseProfile(riskProfile).Some?
    ensures var rows := Recommend(tickers, funding, riskProfile, charts, sqrt).value;
      var stockData := Collect(tickers, ChartEntries(charts, sqrt), |tickers|).value.stockData;
      var vols := EntryVolatilities(tickers, ChartEntries(charts, sqrt));
      && |rows| == |tickers|
      && Allocate(vols, ParseProfile(riskProfile).value, sqrt).Ok?
      && forall i :: 0 <= i < |rows| ==>
           rows[i] == ChartRow(tickers[i], Allocate(vols, ParseProfile(riskProfile).value, sqrt).value[i],
                               funding, stockData[tickers[i]])
  {
    var entry := ChartEntries(charts, sqrt);
    var c := Collect(tickers, entry, |tickers|).value;
    CollectVolatilities(tickers, entry, |tickers|);
    assert c.volatilities == EntryVolatilities(tickers, entry);
  }

  /** Whether no ticker appears twice. */
  predicate Distinct(tickers: seq<string>)
  {
    forall i, j :: 0 <= i < j < |tickers| ==> tickers[i] != tickers[j]
  }

  /** With no ticker repeated, every row carries the record of its own ticker's chart. */
  lemma DistinctRows(tickers: seq<string>, funding: real, riskProfile: string,
                     charts: nat -> ChartOutcome, sqrt: real -> real)
    requires |tickers| > 0 && Distinct(tickers) && Recommend(tickers, funding, riskProfile, charts, sqrt).Ok?
    ensures forall i :: 0 <= i < |tickers| ==> ChartEntry(tickers[i], charts(i), sqrt).Ok?
    ensures ParseProfile(riskProfile).Some?
    ensures var rows := Recommend(tickers, funding, riskProfile, charts, sqrt).value;
      var vols := EntryVolatilities(tickers, ChartEntries(charts, sqrt));
      && |rows| == |tickers|
      && Allocate(vols, ParseProfile(riskProfile).value, sqrt).Ok?
      && forall i :: 0 <= i < |rows| ==>
           rows[i] == ChartRow(tickers[i], Allocate(vols, ParseProfile(riskProfile).value, sqrt).value[i],
                               funding, ChartEntry(tickers[i], charts(i), sqrt).value)
  {
    var entry := ChartEntries(charts, sqrt);
    RecommendRows(tickers, funding, riskProfile, charts, sqrt);
    LastWriteWins(tickers, entry, |tickers|);
    assert forall i :: 0 <= i < |tickers| ==> entry(tickers[i], i) == ChartEntry(tickers[i], charts(i), sqrt);
  }

  /** A successful call over at least one ticker allocates 100 percent and spends the whole funding. */
  lemma RecommendSpendsFunding(tickers: seq<string>, funding: real, riskProfile: string,
                               charts: nat -> ChartOutcome, sqrt: real -> real)
    requires |tickers| > 0 && Recommend(tickers, funding, riskProfile, charts, sqrt).Ok?
    ensures var rows := Recommend(tickers, funding, riskProfile, charts, sqrt).value;
      Sum(RowPercentages(rows)) == 100.0 && Sum(RowAmounts(rows)) == funding
  {
    RecommendRows(tickers, funding, riskProfile, charts, sqrt);
    var rows := Recommend(tickers, funding, riskProfile, charts, sqrt).value;
    var entry := ChartEntries(charts, sqrt);
    var vols := EntryVolatilities(tickers, entry);
    var p := ParseProfile(riskProfile).value;
    RowColumns(rows, tickers, Allocate(vols, p, sqrt).value, funding, Collect(tickers, entry, |tickers|).value.stockData);
    AllocationSumsTo100(vols, p, sqrt);
    AllocationSpendsFunding(vols, p, sqrt, funding);
  }

  /**
   * A profile no `case` matches leaves `weights` empty: with no ticker the
   * call returns no rows, and once every chart is fetched and kept,
   * `allocations[0].toFixed` throws. Nothing else makes an allocation go
   * missing.
   */
  lemma UnknownProfile(tickers: seq<string>, funding: real, riskProfile: string,
                       charts: nat -> ChartOutcome, sqrt: real -> real)
    ensures Recommend(tickers, funding, riskProfile, charts, sqrt) == Err(MissingAllocation)
      <==> |tickers| > 0 && ParseProfile(riskProfile).None? && EntriesOk(tickers, ChartEntries(charts, sqrt), |tickers|)
    ensures |tickers| == 0 ==> Recommend(tickers, funding, riskProfile, charts, sqrt) == Ok([])
  {
    var entry := ChartEntries(charts, sqrt);
    CollectSucceeds(tickers, entry, |tickers|);
    var r := Collect(tickers, entry, |tickers|);
    if r.Err? {
      var k := CollectFailureCause(tickers, entry, |tickers|);
      assert entry(tickers[k], k) == ChartEntry(tickers[k], charts(k), sqrt);
    } else if ParseProfile(riskProfile).Some? {
      var a := Allocate(r.value.volatilities, ParseProfile(riskProfile).value, sqrt);
      assert a.Ok? ==> |a.value| == |tickers|;
    }
    if |tickers| == 0 {
      assert tickers == [];
      assert Assemble(tickers, [], r.value.stockData, funding).value == [];
    }
  }

  /**
   * The call throws a fetch error or a short-series error exactly when some
   * ticker's chart fails with it after every earlier chart was kept.
   */
  lemma RecommendEntryFailure(tickers: seq<string>, funding: real, riskProfile: string,
                              charts: nat -> ChartOutcome, sqrt: real -> real, e: ChartError)
    requires e.FetchThrew? || e.InsufficientPriceData?
    ensures Recommend(tickers, funding, riskProfile, charts, sqrt) == Err(e)
      <==> exists k :: 0 <= k < |tickers| && EntriesOk(tickers, ChartEntries(charts, sqrt), k)
                       && ChartEntry(tickers[k], charts(k), sqrt) == Err(e)
  {
    var entry := ChartEntries(charts, sqrt);
    CollectFailsWith(tickers, entry, |tickers|, e);
    assert forall k :: 0 <= k < |tickers| ==> entry(tickers[k], k) == ChartEntry(tickers[k], charts(k), sqrt);
  }
}
