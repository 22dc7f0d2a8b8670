/**
 * `generateRecommendations(tickers, funding, riskProfile)` of app.js: fetch
 * a year of weekly closes for every ticker in turn, then allocate once over
 * the volatilities and pair each record with its percentage and amount.
 */
module AppRecommend {
  import opened Wrappers
  import opened Events
  import opened RealMath
  import opened Volatility
  import opened Allocation
  import opened PolygonFetch
  import opened PacedLoop

  /** The record pushed into `stockData` for a fetched ticker (None stands for a NaN volatility). */
  datatype StockData = StockData(ticker: string, volatility: Option<real>, prices: seq<Price>, timestamps: seq<int>)

  /** One element of the returned array: the record, its percentage and its dollar amount. */
  datatype Recommendation = Recommendation(
    ticker: string, volatility: real,
    currentPrice: real, yearHigh: real, yearLow: real,
    prices: seq<Price>, timestamps: seq<int>,
    percentage: real, amount: real)

  /** What the call throws: a ticker's fetch error, or a failure of the allocation. */
  datatype Failure = FetchFailed(message: string) | AllocationFailed(reason: AllocationError)

  /** The network as seen by the ticker at position `i`: `respond(i, k)` is the outcome of its `k`-th request. */
  function ResponsesFor(respond: (nat, nat) -> Outcome, i: nat): nat -> Outcome
  {
    (k: nat) => respond(i, k)
  }

  /** The record of a fetched series, with the volatility `calculateVolatility` gives it. */
  function Record(ticker: string, s: Series, sqrt: real -> real): StockData
  {
    StockData(ticker, SeriesVolatility(s.prices, sqrt), s.prices, s.timestamps)
  }

  /** `fetchStockData(ticker)` followed by the record pushed for it. */
  function FetchRecord(ticker: string, responses: nat -> Outcome, sqrt: real -> real): (seq<Event>, Result<StockData, string>)
  {
    var fetched := FetchStockData(ticker, responses);
    (fetched.0, match fetched.1
                case Ok(s) => Ok(Record(ticker, s, sqrt))
                case Err(m) => Err(m))
  }

  /** The per-ticker work of the loop. */
  function AppFetcher(respond: (nat, nat) -> Outcome, sqrt: real -> real): Fetcher<StockData>
  {
    (t: string, i: nat) => FetchRecord(t, ResponsesFor(respond, i), sqrt)
  }

  /** The series fetched for the ticker at position `i`, or the error thrown for it. */
  function FetchAt(tickers: seq<string>, respond: (nat, nat) -> Outcome, i: nat): Result<Series, string>
    requires i < |tickers|
  {
    FetchStockData(tickers[i], ResponsesFor(respond, i)).1
  }

  /** A record whose volatility was computed from its own prices. */
  predicate Consistent(stock: StockData, sqrt: real -> real)
  {
    stock.volatility == SeriesVolatility(stock.prices, sqrt)
  }

  /** Every record has a numeric volatility (none is NaN). */
  predicate Measured(stockData: seq<StockData>)
  {
    forall i :: 0 <= i < |stockData| ==> stockData[i].volatility.Some?
  }

  /** `stockData.map(stock => stock.volatility)`, once every volatility is a number. */
  function Volatilities(stockData: seq<StockData>): (vols: seq<real>)
    requires Measured(stockData)
    ensures |vols| == |stockData|
  {
    seq(|stockData|, i requires 0 <= i < |stockData| => stockData[i].volatility.value)
  }

  /** One returned element: `{...stock, percentage, amount}` with the fields the source derives from the closes. */
  function Row(stock: StockData, percentage: real, funding: real): Recommendation
    requires stock.volatility.Some? && |stock.prices| > 0
  {
    Recommendation(stock.ticker, stock.volatility.value,
                   stock.prices[|stock.prices| - 1], Max(stock.prices), Min(stock.prices),
                   stock.prices, stock.timestamps,
                   percentage, funding * percentage / 100.0)
  }

  /** Every record has at least one close. */
  predicate Priced(stockData: seq<StockData>)
  {
    forall i :: 0 <= i < |stockData| ==> |stockData[i].prices| > 0
  }

  /** A record with a numeric volatility computed from its closes has at least two closes. */
  lemma MeasuredPriced(stockData: seq<StockData>, sqrt: real -> real)
    requires Measured(stockData)
    requires forall i :: 0 <= i < |stockData| ==> Consistent(stockData[i], sqrt)
    ensures Priced(stockData)
  {
    forall i | 0 <= i < |stockData| ensures |stockData[i].prices| > 0 {
      assert Consistent(stockData[i], sqrt);
    }
  }

  /** `stockData.map((stock, i) => ...)`: each record's row with the percentage at its position. */
  function Rows(stockData: seq<StockData>, ps: seq<real>, funding: real): (rows: seq<Recommendation>)
    requires Measured(stockData) && Priced(stockData) && |ps| == |stockData|
    ensures |rows| == |stockData|
    ensures forall i :: 0 <= i < |rows| ==> rows[i] == Row(stockData[i], ps[i], funding)
  {
    seq(|stockData|, i requires 0 <= i < |stockData| => Row(stockData[i], ps[i], funding))
  }

  /** Each row describes its record's series. */
  lemma RowsDescribe(stockData: seq<StockData>, ps: seq<real>, funding: real, sqrt: real -> real)
    requires Measured(stockData) && Priced(stockData) && |ps| == |stockData|
    requires forall i :: 0 <= i < |stockData| ==> Consistent(stockData[i], sqrt)
    ensures var rows := Rows(stockData, ps, funding);
      forall i :: 0 <= i < |rows| ==>
        Describes(rows[i], stockData[i].ticker, Series(stockData[i].prices, stockData[i].timestamps), sqrt)
  {
    var rows := Rows(stockData, ps, funding);
    forall i | 0 <= i < |rows|
      ensures Describes(rows[i], stockData[i].ticker, Series(stockData[i].prices, stockData[i].timestamps), sqrt)
    {
      RowDescribes(stockData[i], ps[i], funding, sqrt);
    }
  }

  /** The rows' volatilities, percentages and amounts, read back in order. */
  lemma RowsColumns(stockData: seq<StockData>, ps: seq<real>, funding: real)
    requires Measured(stockData) && Priced(stockData) && |ps| == |stockData|
    ensures VolatilitiesOf(Rows(stockData, ps, funding)) == Volatilities(stockData)
    ensures PercentagesOf(Rows(stockData, ps, funding)) == ps
    ensures AmountsOf(Rows(stockData, ps, funding)) == Amounts(funding, ps)
  {
    var rows := Rows(stockData, ps, funding);
    forall i | 0 <= i < |rows|
      ensures VolatilitiesOf(rows)[i] == Volatilities(stockData)[i]
      ensures PercentagesOf(rows)[i] == ps[i]
      ensures AmountsOf(rows)[i] == Amounts(funding, ps)[i]
    {
    }
  }

  /** Allocation and the final map, after every fetch succeeded. */
  function Finish(stockData: seq<StockData>, funding: real, riskProfile: string, sqrt: real -> real): Result<seq<Recommendation>, Failure>
    requires forall i :: 0 <= i < |stockData| ==> Consistent(stockData[i], sqrt)
  {
    match ParseProfile(riskProfile)
    case None => Err(AllocationFailed(UndefinedWeights))
    case Some(p) =>
      if !Measured(stockData) then Err(AllocationFailed(NonFinite))
      else
        match Allocate(Volatilities(stockData), p, sqrt)
        case Err(e) => Err(AllocationFailed(e))
        case Ok(ps) =>
          MeasuredPriced(stockData, sqrt);
          Ok(Rows(stockData, ps, funding))
  }

  /** Every record pushed by the loop was computed from its own prices. */
  lemma GatherConsistent(tickers: seq<string>, respond: (nat, nat) -> Outcome, sqrt: real -> real, n: nat)
    requires n <= |tickers|
    ensures forall i :: 0 <= i < |Gather(tickers, AppFetcher(respond, sqrt), n).records| ==>
      Consistent(Gather(tickers, AppFetcher(respond, sqrt), n).records[i], sqrt)
  {
    GatherRecords(tickers, AppFetcher(respond, sqrt), n);
  }

  /** The whole call: its trace, and what it returns or throws. */
  function Recommend(tickers: seq<string>, funding: real, riskProfile: string,
                     respond: (nat, nat) -> Outcome, sqrt: real -> real): (seq<Event>, Result<seq<Recommendation>, Failure>)
  {
    var g := Gather(tickers, AppFetcher(respond, sqrt), |tickers|);
    GatherConsistent(tickers, respond, sqrt, |tickers|);
    (g.trace, if g.failure.Some? then Err(FetchFailed(g.failure.value)) else Finish(g.records, funding, riskProfile, sqrt))
  }

  /** `generateRecommendations`: the loop, then the allocation and the final map; an error is rethrown. */
  method GenerateRecommendations(tickers: seq<string>, funding: real, riskProfile: string,
                                 respond: (nat, nat) -> Outcome, sqrt: real -> real)
    returns (trace: seq<Event>, result: Result<seq<Recommendation>, Failure>)
    ensures (trace, result) == Recommend(tickers, funding, riskProfile, respond, sqrt)
  {
    var stockData, failure;
    trace, stockData, failure := RunLoop(tickers, AppFetcher(respond, sqrt));
    if failure.Some? {
      return trace, Err(FetchFailed(failure.value));
    }
    GatherConsistent(tickers, respond, sqrt, |tickers|);
    result := Finish(stockData, funding, riskProfile, sqrt);
  }

  // ---------------------------------------------------------------------
  // Properties of the call
  // ---------------------------------------------------------------------

  /** Every `fetchStockData` before position `n` returned a series. */
  predicate FetchedAll(tickers: seq<string>, respond: (nat, nat) -> Outcome, n: nat)
    requires n <= |tickers|
  {
    forall j :: 0 <= j < n ==> FetchAt(tickers, respond, j).Ok?
  }

  lemma FetchedAllLoop(tickers: seq<string>, respond: (nat, nat) -> Outcome, sqrt: real -> real, n: nat)
    requires n <= |tickers|
    ensures FetchedAll(tickers, respond, n) <==> FetchedUpTo(tickers, AppFetcher(respond, sqrt), n)
  {
    var fetch := AppFetcher(respond, sqrt);
    assert forall j :: 0 <= j < n ==> (fetch(tickers[j], j).1.Ok? <==> FetchAt(tickers, respond, j).Ok?);
  }

  /**
   * The call throws a fetch error exactly when some fetch fails after all
   * earlier ones succeeded, and then it throws that fetch's error.
   */
  lemma RecommendFetchFailure(tickers: seq<string>, funding: real, riskProfile: string,
                              respond: (nat, nat) -> Outcome, sqrt: real -> real, m: string)
    ensures Recommend(tickers, funding, riskProfile, respond, sqrt).1 == Err(FetchFailed(m))
      <==> exists k :: (0 <= k < |tickers| && FetchedAll(tickers, respond, k)
                        && FetchAt(tickers, respond, k) == Err(m))
  {
    var fetch := AppFetcher(respond, sqrt);
    GatherFailsWith(tickers, fetch, |tickers|, m);
    forall k | 0 <= k < |tickers|
      ensures (FetchedAll(tickers, respond, k) && FetchAt(tickers, respond, k) == Err(m))
          <==> (FetchedUpTo(tickers, fetch, k) && fetch(tickers[k], k).1 == Err(m))
    {
      FetchedAllLoop(tickers, respond, sqrt, k);
    }
  }

  /**
   * The volatilities of the returned rows, in order. Each pipeline returns
   * its own row type, so each module reads its own columns.
   */
  function VolatilitiesOf(rows: seq<Recommendation>): (vols: seq<real>)
    ensures |vols| == |rows|
  {
    seq(|rows|, i requires 0 <= i < |rows| => rows[i].volatility)
  }

  /** The percentages of the returned rows, in order. */
  function PercentagesOf(rows: seq<Recommendation>): (ps: seq<real>)
    ensures |ps| == |rows|
  {
    seq(|rows|, i requires 0 <= i < |rows| => rows[i].percentage)
  }

  /** The dollar amounts of the returned rows, in order. */
  function AmountsOf(rows: seq<Recommendation>): (amounts: seq<real>)
    ensures |amounts| == |rows|
  {
    seq(|rows|, i requires 0 <= i < |rows| => rows[i].amount)
  }

  /**
   * A returned row describes the fetched series of its ticker: the last close
   * is the current price, the year high and low are closes that bound every
   * close, and the volatility is that of the series.
   */
  predicate Describes(row: Recommendation, ticker: string, s: Series, sqrt: real -> real)
  {
    && row.ticker == ticker && row.prices == s.prices && row.timestamps == s.timestamps
    && |s.prices| >= 2
    && SeriesVolatility(s.prices, sqrt) == Some(row.volatility)
    && row.currentPrice == s.prices[|s.prices| - 1]
    && row.yearHigh in s.prices && row.yearLow in s.prices
    && forall j :: 0 <= j < |s.prices| ==> row.yearLow <= s.prices[j] <= row.yearHigh
  }

  /**
   * What `Finish` returns when it succeeds: one row per record, in order,
   * describing the record's series, with the allocation of the rows'
   * volatilities as percentages and that share of the funding as amounts.
   */
  lemma FinishRows(stockData: seq<StockData>, funding: real, riskProfile: string, sqrt: real -> real)
    requires forall i :: 0 <= i < |stockData| ==> Consistent(stockData[i], sqrt)
    requires Finish(stockData, funding, riskProfile, sqrt).Ok?
    ensures var rows := Finish(stockData, funding, riskProfile, sqrt).value;
      && |rows| == |stockData|
      && (forall i :: 0 <= i < |rows| ==>
            Describes(rows[i], stockData[i].ticker, Series(stockData[i].prices, stockData[i].timestamps), sqrt))
      && ParseProfile(riskProfile).Some?
      && Allocate(VolatilitiesOf(rows), ParseProfile(riskProfile).value, sqrt) == Ok(PercentagesOf(rows))
      && AmountsOf(rows) == Amounts(funding, PercentagesOf(rows))
  {
    var p := ParseProfile(riskProfile).value;
    assert Measured(stockData);
    var ps := Allocate(Volatilities(stockData), p, sqrt).value;
    MeasuredPriced(stockData, sqrt);
    assert Finish(stockData, funding, riskProfile, sqrt).value == Rows(stockData, ps, funding);
    RowsColumns(stockData, ps, funding);
    RowsDescribe(stockData, ps, funding, sqrt);
  }

  lemma RowDescribes(stock: StockData, percentage: real, funding: real, sqrt: real -> real)
    requires Consistent(stock, sqrt) && stock.volatility.Some?
    ensures |stock.prices| > 0
    ensures Describes(Row(stock, percentage, funding), stock.ticker, Series(stock.prices, stock.timestamps), sqrt)
  {
  }

  /**
   * A successful call fetched every ticker and returns one row per ticker, in
   * ticker order, each describing that ticker's series; the percentages are
   * the allocation of the rows' volatilities under the parsed profile, and
   * each amount is that percentage of the funding.
   */
  lemma RecommendRows(tickers: seq<string>, funding: real, riskProfile: string,
                      respond: (nat, nat) -> Outcome, sqrt: real -> real)
    requires Recommend(tickers, funding, riskProfile, respond, sqrt).1.Ok?
    ensures FetchedAll(tickers, respond, |tickers|)
    ensures var rows := Recommend(tickers, funding, riskProfile, respond, sqrt).1.value;
      && |rows| == |tickers|
      && (forall i :: 0 <= i < |rows| ==> Describes(rows[i], tickers[i], FetchAt(tickers, respond, i).value, sqrt))
      && ParseProfile(riskProfile).Some?
      && Allocate(VolatilitiesOf(rows), ParseProfile(riskProfile).value, sqrt) == Ok(PercentagesOf(rows))
      && AmountsOf(rows) == Amounts(funding, PercentagesOf(rows))
  {
    var n := |tickers|;
    var sd := Gather(tickers, AppFetcher(respond, sqrt), n).records;
    GatherFetched(tickers, respond, sqrt);
    GatherConsistent(tickers, respond, sqrt, n);
    assert Recommend(tickers, funding, riskProfile, respond, sqrt).1 == Finish(sd, funding, riskProfile, sqrt);
    FinishRows(sd, funding, riskProfile, sqrt);
  }

  /**
   * When the loop finishes without an error, every fetch succeeded and the
   * records are those of the fetched series, one per ticker, in order.
   */
  lemma GatherFetched(tickers: seq<string>, respond: (nat, nat) -> Outcome, sqrt: real -> real)
    requires Gather(tickers, AppFetcher(respond, sqrt), |tickers|).failure.None?
    ensures FetchedAll(tickers, respond, |tickers|)
    ensures var sd := Gather(tickers, AppFetcher(respond, sqrt), |tickers|).records;
      && |sd| == |tickers|
      && forall i :: 0 <= i < |sd| ==>
           sd[i].ticker == tickers[i] && Series(sd[i].prices, sd[i].timestamps) == FetchAt(tickers, respond, i).value
  {
    var n := |tickers|;
    var fetch := AppFetcher(respond, sqrt);
    var sd := Gather(tickers, fetch, n).records;
    GatherSucceeds(tickers, fetch, n);
    GatherRecords(tickers, fetch, n);
    GatherCount(tickers, fetch, n);
    FetchedAllLoop(tickers, respond, sqrt, n);
    forall i | 0 <= i < n
      ensures sd[i].ticker == tickers[i]
      ensures Series(sd[i].prices, sd[i].timestamps) == FetchAt(tickers, respond, i).value
    {
      assert sd[i] == Record(tickers[i], FetchAt(tickers, respond, i).value, sqrt);
    }
  }

  /** A successful call over at least one ticker allocates 100 percent and spends the whole funding. */
  lemma RecommendSpendsFunding(tickers: seq<string>, funding: real, riskProfile: string,
                               respond: (nat, nat) -> Outcome, sqrt: real -> real)
    requires |tickers| > 0 && Recommend(tickers, funding, riskProfile, respond, sqrt).1.Ok?
    ensures Sum(PercentagesOf(Recommend(tickers, funding, riskProfile, respond, sqrt).1.value)) == 100.0
    ensures Sum(AmountsOf(Recommend(tickers, funding, riskProfile, respond, sqrt).1.value)) == funding
  {
    var rows := Recommend(tickers, funding, riskProfile, respond, sqrt).1.value;
    RecommendRows(tickers, funding, riskProfile, respond, sqrt);
    var vols := VolatilitiesOf(rows);
    var p := ParseProfile(riskProfile).value;
    AllocationSumsTo100(vols, p, sqrt);
    AllocationSpendsFunding(vols, p, sqrt, funding);
  }

  /**
   * Once every fetch succeeded, an unrecognised profile makes the call throw
   * (`weights` is undefined), and it is the only cause of that error.
   */
  lemma RecommendUnknownProfile(tickers: seq<string>, funding: real, riskProfile: string,
                                respond: (nat, nat) -> Outcome, sqrt: real -> real)
    ensures Recommend(tickers, funding, riskProfile, respond, sqrt).1 == Err(AllocationFailed(UndefinedWeights))
      <==> FetchedAll(tickers, respond, |tickers|) && ParseProfile(riskProfile).None?
  {
    GatherSucceeds(tickers, AppFetcher(respond, sqrt), |tickers|);
    FetchedAllLoop(tickers, respond, sqrt, |tickers|);
  }

  /**
   * A ticker whose year has fewer than two closes has no volatility, so a
   * recognised profile cannot produce numbers for the call.
   */
  lemma RecommendShortSeries(tickers: seq<string>, funding: real, riskProfile: string,
                             respond: (nat, nat) -> Outcome, sqrt: real -> real, k: nat)
    requires FetchedAll(tickers, respond, |tickers|) && ParseProfile(riskProfile).Some?
    requires k < |tickers| && |FetchAt(tickers, respond, k).value.prices| < 2
    ensures Recommend(tickers, funding, riskProfile, respond, sqrt).1 == Err(AllocationFailed(NonFinite))
  {
    var n := |tickers|;
    var fetch := AppFetcher(respond, sqrt);
    FetchedAllLoop(tickers, respond, sqrt, n);
    GatherSucceeds(tickers, fetch, n);
    GatherRecords(tickers, fetch, n);
    GatherCount(tickers, fetch, n);
    assert Gather(tickers, fetch, n).records[k].volatility.None?;
  }

  /** Positive volatilities under a recognised profile always finish with rows. */
  lemma FinishSucceeds(stockData: seq<StockData>, funding: real, riskProfile: string, sqrt: real -> real)
    requires IsSqrt(sqrt)
    requires forall i :: 0 <= i < |stockData| ==> Consistent(stockData[i], sqrt)
    requires ParseProfile(riskProfile).Some?
    requires forall i :: 0 <= i < |stockData| ==> stockData[i].volatility.Some? && stockData[i].volatility.value > 0.0
    ensures Finish(stockData, funding, riskProfile, sqrt).Ok?
  {
    PositiveVolatilitiesAllocate(Volatilities(stockData), ParseProfile(riskProfile).value, sqrt);
  }

  /**
   * Every fetch returning at least two closes with a positive volatility,
   * under a recognised profile, is enough for the call to succeed.
   */
  lemma RecommendSucceeds(tickers: seq<string>, funding: real, riskProfile: string,
                          respond: (nat, nat) -> Outcome, sqrt: real -> real)
    requires IsSqrt(sqrt)
    requires FetchedAll(tickers, respond, |tickers|) && ParseProfile(riskProfile).Some?
    requires forall i :: 0 <= i < |tickers| ==>
      (var v := SeriesVolatility(FetchAt(tickers, respond, i).value.prices, sqrt);
       v.Some? && v.value > 0.0)
    ensures Recommend(tickers, funding, riskProfile, respond, sqrt).1.Ok?
  {
    var n := |tickers|;
    var fetch := AppFetcher(respond, sqrt);
    FetchedAllLoop(tickers, respond, sqrt, n);
    GatherSucceeds(tickers, fetch, n);
    GatherRecords(tickers, fetch, n);
    GatherCount(tickers, fetch, n);
    GatherConsistent(tickers, respond, sqrt, n);
    var sd := Gather(tickers, fetch, n).records;
    forall i | 0 <= i < n
      ensures sd[i].volatility.Some? && sd[i].volatility.value > 0.0
    {
      assert sd[i] == Record(tickers[i], FetchAt(tickers, respond, i).value, sqrt);
    }
    FinishSucceeds(sd, funding, riskProfile, sqrt);
  }

  /** No fetch of app.js shows loading text or awaits a pacing delay of its own. */
  lemma AppFetcherUnpaced(tickers: seq<string>, respond: (nat, nat) -> Outcome, sqrt: real -> real)
    ensures Unpaced(tickers, AppFetcher(respond, sqrt))
  {
    forall i | 0 <= i < |tickers|
      ensures Schedule(AppFetcher(respond, sqrt)(tickers[i], i).0) == []
    {
      FetchIsUnpaced(tickers[i], ResponsesFor(respond, i), 0, false, InitialRetries, InitialDelay);
    }
  }

  /**
   * The pacing the user sees: if the fetches before position `k` succeed and
   * the one at `k` fails (or `k` is past the end), the call shows the loading
   * text of exactly the tickers up to and including `k`, with a 1.5 second
   * pause after each but the first.
   */
  lemma RecommendPacing(tickers: seq<string>, funding: real, riskProfile: string,
                        respond: (nat, nat) -> Outcome, sqrt: real -> real, k: nat)
    requires k <= |tickers| && FetchedAll(tickers, respond, k)
    requires k < |tickers| ==> FetchAt(tickers, respond, k).Err?
    ensures Schedule(Recommend(tickers, funding, riskProfile, respond, sqrt).0)
      == PacedSchedule(tickers[..if k == |tickers| then k else k + 1])
  {
    AppFetcherUnpaced(tickers, respond, sqrt);
    FetchedAllLoop(tickers, respond, sqrt, k);
    GatherPacingUpTo(tickers, AppFetcher(respond, sqrt), k);
  }
}
