/**
 * index_based.js: the same fetch, measure and allocate pipeline as
 * app_v2.0.js, run over the hard-coded constituents of a stock index
 * instead of tickers typed in by the user.
 */
module IndexBased {
  import opened Wrappers
  import opened RealMath
  import opened Allocation
  import ChartRecommend

  /**
   * `fetchStocksByIndexAndMarketCap(index, minMarketCap, maxMarketCap)`:
   * the five tickers listed for a known index, none for any other; the
   * market-cap range is accepted and ignored.
   */
  function IndexStocks(index: string, minMarketCap: real, maxMarketCap: real): seq<string>
  {
    if index == "S&P500" then ["AAPL", "MSFT", "AMZN", "GOOGL", "FB"]
    else if index == "NASDAQ" then ["TSLA", "NVDA", "PYPL", "ADBE", "CMCSA"]
    else if index == "DJIA" then ["UNH", "GS", "HD", "AMGN", "MCD"]
    else []
  }

  /** The indices the lookup knows. */
  predicate KnownIndex(index: string)
  {
    index == "S&P500" || index == "NASDAQ" || index == "DJIA"
  }

  /**
   * A known index lists five distinct tickers and any other lists none;
   * the market-cap arguments never change the list.
   */
  lemma IndexStocksShape(index: string, minMarketCap: real, maxMarketCap: real, otherMin: real, otherMax: real)
    ensures KnownIndex(index) ==> |IndexStocks(index, minMarketCap, maxMarketCap)| == 5
    ensures !KnownIndex(index) <==> IndexStocks(index, minMarketCap, maxMarketCap) == []
    ensures ChartRecommend.Distinct(IndexStocks(index, minMarketCap, maxMarketCap))
    ensures IndexStocks(index, minMarketCap, maxMarketCap) == IndexStocks(index, otherMin, otherMax)
  {
    var stocks := IndexStocks(index, minMarketCap, maxMarketCap);
    if KnownIndex(index) {
      assert |stocks| == 5;
      forall i, j | 0 <= i < j < 5 ensures stocks[i] != stocks[j] {
        assert stocks[i][0] != stocks[j][0] || stocks[i][1] != stocks[j][1];
      }
    }
  }

  /** The whole call of index_based.js: what it returns or throws. */
  function Recommend(index: string, minMarketCap: real, maxMarketCap: real, funding: real, riskProfile: string,
                     charts: nat -> ChartRecommend.ChartOutcome, sqrt: real -> real)
    : Result<seq<ChartRecommend.ChartRecommendation>, ChartRecommend.ChartError>
  {
    ChartRecommend.Recommend(IndexStocks(index, minMarketCap, maxMarketCap), funding, riskProfile, charts, sqrt)
  }

  /**
   * `generateRecommendations(index, minMarketCap, maxMarketCap, funding, riskProfile)`:
   * look the tickers up, then run the loops of app_v2.0.js over them.
   */
  method GenerateRecommendations(index: string, minMarketCap: real, maxMarketCap: real, funding: real,
                                 riskProfile: string, charts: nat -> ChartRecommend.ChartOutcome, sqrt: real -> real)
    returns (result: Result<seq<ChartRecommend.ChartRecommendation>, ChartRecommend.ChartError>)
    ensures result == Recommend(index, minMarketCap, maxMarketCap, funding, riskProfile, charts, sqrt)
  {
    var stocks := IndexStocks(index, minMarketCap, maxMarketCap);
    result := ChartRecommend.GenerateRecommendations(stocks, funding, riskProfile, charts, sqrt);
  }

  /** An index the lookup does not know yields no recommendations and no error, whatever the profile. */
  lemma UnknownIndexNoRows(index: string, minMarketCap: real, maxMarketCap: real, funding: real, riskProfile: string,
                           charts: nat -> ChartRecommend.ChartOutcome, sqrt: real -> real)
    requires !KnownIndex(index)
    ensures Recommend(index, minMarketCap, maxMarketCap, funding, riskProfile, charts, sqrt) == Ok([])
  {
    IndexStocksShape(index, minMarketCap, maxMarketCap, minMarketCap, maxMarketCap);
    ChartRecommend.UnknownProfile(IndexStocks(index, minMarketCap, maxMarketCap), funding, riskProfile, charts, sqrt);
  }

  /**
   * For a known index, a successful call returns five rows, one per listed
   * ticker in list order, each with the record of that ticker's own chart;
   * the percentages are the allocation of the five volatilities and sum to
   * 100, and the amounts spend the whole funding.
   */
  lemma KnownIndexRows(index: string, minMarketCap: real, maxMarketCap: real, funding: real, riskProfile: string,
                       charts: nat -> ChartRecommend.ChartOutcome, sqrt: real -> real)
    requires KnownIndex(index)
    requires Recommend(index, minMarketCap, maxMarketCap, funding, riskProfile, charts, sqrt).Ok?
    ensures var stocks := IndexStocks(index, minMarketCap, maxMarketCap);
      var rows := Recommend(index, minMarketCap, maxMarketCap, funding, riskProfile, charts, sqrt).value;
      && |rows| == 5
      && ParseProfile(riskProfile).Some?
      && (forall i :: 0 <= i < 5 ==> ChartRecommend.ChartEntry(stocks[i], charts(i), sqrt).Ok?)
      && (forall i :: 0 <= i < 5 ==>
            rows[i].ticker == stocks[i]
            && rows[i].volatility == ChartRecommend.ChartEntry(stocks[i], charts(i), sqrt).value.volatility * 100.0
            && rows[i].prices == ChartRecommend.ChartEntry(stocks[i], charts(i), sqrt).value.prices)
      && Sum(ChartRecommend.RowPercentages(rows)) == 100.0
      && Sum(ChartRecommend.RowAmounts(rows)) == funding
  {
    var stocks := IndexStocks(index, minMarketCap, maxMarketCap);
    IndexStocksShape(index, minMarketCap, maxMarketCap, minMarketCap, maxMarketCap);
    ChartRecommend.DistinctRows(stocks, funding, riskProfile, charts, sqrt);
    ChartRecommend.RecommendSpendsFunding(stocks, funding, riskProfile, charts, sqrt);
  }

  /**
   * For a known index and a profile no `case` matches, the call throws at
   * `allocation.toFixed` exactly when all five charts were fetched and kept.
   */
  lemma KnownIndexUnknownProfile(index: string, minMarketCap: real, maxMarketCap: real, funding: real,
                                 riskProfile: string, charts: nat -> ChartRecommend.ChartOutcome, sqrt: real -> real)
    requires KnownIndex(index) && ParseProfile(riskProfile).None?
    ensures var stocks := IndexStocks(index, minMarketCap, maxMarketCap);
      Recommend(index, minMarketCap, maxMarketCap, funding, riskProfile, charts, sqrt) == Err(ChartRecommend.MissingAllocation)
      <==> forall i :: 0 <= i < 5 ==> ChartRecommend.ChartEntry(stocks[i], charts(i), sqrt).Ok?
  {
    var stocks := IndexStocks(index, minMarketCap, maxMarketCap);
    IndexStocksShape(index, minMarketCap, maxMarketCap, minMarketCap, maxMarketCap);
    ChartRecommend.UnknownProfile(stocks, funding, riskProfile, charts, sqrt);
    var entry := ChartRecommend.ChartEntries(charts, sqrt);
    assert forall i :: 0 <= i < 5 ==> entry(stocks[i], i) == ChartRecommend.ChartEntry(stocks[i], charts(i), sqrt);
  }
}
