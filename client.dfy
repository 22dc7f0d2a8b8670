/**
 * client.js: the risk questionnaire that classifies the user and stores the
 * profile on `window.currentRiskProfile`, and `generateRecommendations`,
 * which fetches one Alpha Vantage quote per ticker, measures each by its
 * day's high-low range and allocates under the stored profile.
 */
module Client {
  import opened Wrappers
  import opened Events
  import opened RealMath
  import opened Volatility
  import opened Allocation
  import opened PolygonFetch
  import opened PacedLoop
  import opened AppRecommend
  import Text

  // ---------------------------------------------------------------------
  // The questionnaire
  // ---------------------------------------------------------------------

  /** `['q1', 'q2', 'q3', 'q4', 'q5']` */
  const QuestionCount: nat := 5

  /** `q.charAt(1)` for the question at position `i`: its number as one digit. */
  function QuestionDigit(i: nat): (c: char)
    requires i < QuestionCount
    ensures '1' <= c <= '5'
  {
    Text.Digit(i + 1)
  }

  /**
   * `totalScore` after the `forEach` over the first `|answers|` questions:
   * the sum of the values of the checked answers (`answers[i]` is None when
   * no radio button of question `i + 1` is checked).
   */
  function TotalScore(answers: seq<Option<int>>): int
  {
    if |answers| == 0 then 0
    else
      var last := answers[|answers| - 1];
      TotalScore(answers[..|answers| - 1]) + (if last.Some? then last.value else 0)
  }

  /** `unansweredQuestions` after the `forEach`: the digits of the questions left blank, in order. */
  function Unanswered(answers: seq<Option<int>>): seq<char>
    requires |answers| <= QuestionCount
  {
    if |answers| == 0 then []
    else
      var n := |answers| - 1;
      Unanswered(answers[..n]) + (if answers[n].None? then [QuestionDigit(n)] else [])
  }

  /** The three bands of the score. */
  function ClassifyScore(score: int): string
  {
    if score <= 10 then "conservative"
    else if score <= 15 then "moderate"
    else "aggressive"
  }

  /** The alert listing the unanswered questions: `question` or `questions`, then the digits joined by `, `. */
  function AlertText(missing: seq<char>): string
  {
    "Please answer question" + (if |missing| > 1 then "s" else "") + " "
      + Text.Join(seq(|missing|, i requires 0 <= i < |missing| => [missing[i]]), ", ")
  }

  /** `calculateRiskProfile()`: the profile it stores, or the alert it shows instead. */
  function Classification(answers: seq<Option<int>>): Result<string, string>
    requires |answers| == QuestionCount
  {
    var missing := Unanswered(answers);
    if |missing| > 0 then Err(AlertText(missing)) else Ok(ClassifyScore(TotalScore(answers)))
  }

  /** A digit names an unanswered question exactly when that question has no answer. */
  lemma {:induction false} UnansweredListsMissing(answers: seq<Option<int>>)
    requires |answers| <= QuestionCount
    ensures forall j :: 0 <= j < |answers| ==> (QuestionDigit(j) in Unanswered(answers) <==> answers[j].None?)
    ensures forall a, b :: 0 <= a < b < |Unanswered(answers)| ==> Unanswered(answers)[a] < Unanswered(answers)[b]
    ensures forall k :: 0 <= k < |Unanswered(answers)| ==>
      '1' <= Unanswered(answers)[k] && Unanswered(answers)[k] as int - '1' as int < |answers|
  {
    if |answers| > 0 {
      var n := |answers| - 1;
      var init := answers[..n];
      UnansweredListsMissing(init);
      assert forall j :: 0 <= j < n ==> init[j] == answers[j];
    }
  }

  /** Every question answered with a value from 1 to 4 gives a score from 5 to 20. */
  lemma {:induction false} ScoreRange(answers: seq<Option<int>>)
    requires forall i :: 0 <= i < |answers| ==> answers[i].Some? && 1 <= answers[i].value <= 4
    ensures |answers| <= TotalScore(answers) <= 4 * |answers|
  {
    if |answers| > 0 {
      var n := |answers| - 1;
      assert forall i :: 0 <= i < n ==> answers[..n][i] == answers[i];
      ScoreRange(answers[..n]);
    }
  }

  /** The bands: at most 10 is conservative, 11 to 15 moderate, above 15 aggressive. */
  lemma ClassifyScoreBands(score: int)
    ensures ClassifyScore(score) == "conservative" <==> score <= 10
    ensures ClassifyScore(score) == "moderate" <==> 10 < score <= 15
    ensures ClassifyScore(score) == "aggressive" <==> 15 < score
    ensures ParseProfile(ClassifyScore(score)).Some?
  {
  }

  /** `parts.join(sep)` has the parts at every `|part| + |sep|` positions, in order. */
  lemma {:induction false} JoinSingles(parts: seq<string>, sep: string)
    requires |parts| > 0 && |sep| == 2
    requires forall i :: 0 <= i < |parts| ==> |parts[i]| == 1
    ensures |Text.Join(parts, sep)| == 3 * |parts| - 2
    ensures forall k :: 0 <= k < |parts| ==> Text.Join(parts, sep)[3 * k] == parts[k][0]
  {
    if |parts| > 1 {
      var n := |parts| - 1;
      var init := parts[..n];
      JoinSingles(init, sep);
      var j := Text.Join(init, sep);
      assert Text.Join(parts, sep) == j + sep + parts[n];
      forall k | 0 <= k < |parts| ensures Text.Join(parts, sep)[3 * k] == parts[k][0] {
        if k < n {
          assert init[k] == parts[k];
        }
      }
    }
  }

  /**
   * The alert starts with `Please answer question`, has the plural `s`
   * exactly when more than one question is missing, and then lists the
   * missing digits in order, three characters apart.
   */
  lemma AlertListsQuestions(missing: seq<char>)
    requires |missing| > 0
    ensures AlertText(missing)[..22] == "Please answer question"
    ensures var start := if |missing| > 1 then 24 else 23;
      && (AlertText(missing)[22] == 's' <==> |missing| > 1)
      && |AlertText(missing)| == start + 3 * |missing| - 2
      && forall k :: 0 <= k < |missing| ==> AlertText(missing)[start + 3 * k] == missing[k]
  {
    var parts := seq(|missing|, i requires 0 <= i < |missing| => [missing[i]]);
    JoinSingles(parts, ", ");
  }

  /** Two of the alerts the questionnaire can show. */
  lemma AlertExamples()
    ensures AlertText(['3']) == "Please answer question 3"
    ensures AlertText(['1', '4']) == "Please answer questions 1, 4"
  {
    var one := seq(1, i requires 0 <= i < 1 => [['3'][i]]);
    assert one == ["3"];
    var two := seq(2, i requires 0 <= i < 2 => [['1', '4'][i]]);
    assert two == ["1", "4"];
    assert two[..1] == ["1"];
  }

  /**
   * A questionnaire is classified exactly when every question is answered,
   * and then into the band of its total score.
   */
  lemma ClassificationBands(answers: seq<Option<int>>)
    requires |answers| == QuestionCount
    ensures Classification(answers).Ok? <==> forall j :: 0 <= j < QuestionCount ==> answers[j].Some?
    ensures Classification(answers).Ok? ==> ParseProfile(Classification(answers).value).Some?
    ensures Classification(answers).Err? ==> Classification(answers).error[..22] == "Please answer question"
  {
    UnansweredListsMissing(answers);
    var missing := Unanswered(answers);
    if |missing| > 0 {
      AlertListsQuestions(missing);
      var j := missing[0] as int - '1' as int;
      assert QuestionDigit(j) == missing[0];
      assert answers[j].None?;
    } else {
      ClassifyScoreBands(TotalScore(answers));
    }
  }

  // ---------------------------------------------------------------------
  // Quotes
  // ---------------------------------------------------------------------

  /** `{price, high, low}`: the parsed fields `05. price`, `03. high` and `04. low` of a quote. */
  datatype Quote = Quote(price: Price, high: real, low: real)

  /**
   * The parsed body of a quote response: not JSON; no `Global Quote`, or an
   * empty one; or a quote.
   */
  datatype QuoteBody = MalformedJson | NoGlobalQuote | GlobalQuote(quote: Quote)

  /** What the one `fetch` of a quote produces. */
  datatype QuoteOutcome =
    | QuoteResponse(status: nat, body: QuoteBody)
    | QuoteNetworkFailure

  /** The quote a single response yields, or the error thrown inside the `try`. */
  function SettleQuote(o: QuoteOutcome): Result<Quote, FetchError>
  {
    match o
    case QuoteNetworkFailure => Err(NetworkError)
    case QuoteResponse(status, body) =>
      if !IsOk(status) then Err(HttpError(status))
      else
        match body
        case MalformedJson => Err(InvalidJson)
        case NoGlobalQuote => Err(NoData)
        case GlobalQuote(q) => Ok(q)
  }

  /** `fetchStockData(ticker)` of client.js: one request, no retry, and the error rethrown with the ticker. */
  function FetchQuote(ticker: string, o: QuoteOutcome): (seq<Event>, Result<Quote, string>)
  {
    ([Request(ticker, false)],
     match SettleQuote(o)
     case Ok(q) => Ok(q)
     case Err(e) =>
       Err("Failed to fetch data for " + ticker + ". Please try again later. (" + ErrorMessage(e, ticker) + ")"))
  }

  /** A quote fetch is a single request, and a failed one names the ticker; nothing but a quote succeeds. */
  lemma FetchQuoteOnce(ticker: string, o: QuoteOutcome)
    ensures FetchQuote(ticker, o).0 == [Request(ticker, false)]
    ensures FetchQuote(ticker, o).1.Ok?
      <==> o.QuoteResponse? && IsOk(o.status) && o.body.GlobalQuote?
    ensures FetchQuote(ticker, o).1.Ok? ==> FetchQuote(ticker, o).1.value == o.body.quote
    ensures FetchQuote(ticker, o).1.Err? ==>
      FetchQuote(ticker, o).1.error[..25 + |ticker|] == "Failed to fetch data for " + ticker
  {
  }

  /** A non-OK status fails with its HTTP error; an OK response without a quote fails with "No data". */
  lemma FetchQuoteErrors(ticker: string, o: QuoteOutcome)
    requires o.QuoteResponse?
    ensures !IsOk(o.status) ==> SettleQuote(o) == Err(HttpError(o.status))
    ensures IsOk(o.status) && o.body.NoGlobalQuote? ==> SettleQuote(o) == Err(NoData)
  {
  }

  // ---------------------------------------------------------------------
  // Recommendations
  // ---------------------------------------------------------------------

  /** The record pushed into `stockData` for a quote. */
  datatype QuoteData = QuoteData(ticker: string, volatility: real, currentPrice: real, yearHigh: real, yearLow: real)

  /** One returned element: `{...stock, percentage, amount}`. */
  datatype QuoteRecommendation = QuoteRecommendation(stock: QuoteData, percentage: real, amount: real)

  /** The record of a quote, measured by `calculateVolatility(high, low, price)`. */
  function QuoteRecord(ticker: string, q: Quote): QuoteData
  {
    QuoteData(ticker, QuoteVolatility(q.high, q.low, q.price), q.price, q.high, q.low)
  }

  /** The per-ticker work of the loop: `quotes(i)` is what the fetch for position `i` receives. */
  function QuoteFetcher(quotes: nat -> QuoteOutcome): Fetcher<QuoteData>
  {
    (t: string, i: nat) =>
      var fetched := FetchQuote(t, quotes(i));
      (fetched.0, match fetched.1
                  case Ok(q) => Ok(QuoteRecord(t, q))
                  case Err(m) => Err(m))
  }

  /** The quote fetched for the ticker at position `i`, or the error thrown for it. */
  function QuoteAt(tickers: seq<string>, quotes: nat -> QuoteOutcome, i: nat): Result<Quote, string>
    requires i < |tickers|
  {
    FetchQuote(tickers[i], quotes(i)).1
  }

  /** The profile `window.currentRiskProfile` selects; None when unset or not a `case`. */
  function StoredProfile(currentRiskProfile: Option<string>): Option<RiskProfile>
  {
    match currentRiskProfile
    case None => None
    case Some(s) => ParseProfile(s)
  }

  /** `stockData.map(stock => stock.volatility)` */
  function QuoteVolatilities(stockData: seq<QuoteData>): (vols: seq<real>)
    ensures |vols| == |stockData|
  {
    seq(|stockData|, i requires 0 <= i < |stockData| => stockData[i].volatility)
  }

  /** `stockData.map((stock, i) => ...)` with the percentage at each position. */
  function QuoteRows(stockData: seq<QuoteData>, ps: seq<real>, funding: real): (rows: seq<QuoteRecommendation>)
    requires |ps| == |stockData|
    ensures |rows| == |stockData|
  {
    seq(|stockData|, i requires 0 <= i < |stockData| =>
      QuoteRecommendation(stockData[i], ps[i], funding * ps[i] / 100.0))
  }

  /** Allocation under the stored profile and the final map, after every fetch succeeded. */
  function QuoteFinish(stockData: seq<QuoteData>, funding: real, currentRiskProfile: Option<string>,
                       sqrt: real -> real): Result<seq<QuoteRecommendation>, Failure>
  {
    match AllocateOrThrow(QuoteVolatilities(stockData), StoredProfile(currentRiskProfile), sqrt)
    case Err(e) => Err(AllocationFailed(e))
    case Ok(ps) => Ok(QuoteRows(stockData, ps, funding))
  }

  /** The whole call of client.js: its trace, and what it returns or throws. */
  function QuoteRecommend(tickers: seq<string>, funding: real, currentRiskProfile: Option<string>,
                          quotes: nat -> QuoteOutcome, sqrt: real -> real)
    : (seq<Event>, Result<seq<QuoteRecommendation>, Failure>)
  {
    var g := Gather(tickers, QuoteFetcher(quotes), |tickers|);
    (g.trace, if g.failure.Some? then Err(FetchFailed(g.failure.value))
              else QuoteFinish(g.records, funding, currentRiskProfile, sqrt))
  }

  /** The page's global state: `window.currentRiskProfile`, undefined until the questionnaire is passed. */
  class Page {
    var currentRiskProfile: Option<string>

    constructor()
      ensures currentRiskProfile == None
    {
      currentRiskProfile := None;
    }

    /**
     * `calculateRiskProfile()`: sum the answers and collect the blank
     * questions in one pass; alert and keep the stored profile if any is
     * blank, otherwise store the band of the score.
     */
    method CalculateRiskProfile(answers: seq<Option<int>>) returns (alert: Option<string>)
      requires |answers| == QuestionCount
      modifies this
      ensures Classification(answers).Err? ==>
        alert == Some(Classification(answers).error) && currentRiskProfile == old(currentRiskProfile)
      ensures Classification(answers).Ok? ==>
        alert == None && currentRiskProfile == Some(Classification(answers).value)
    {
      var totalScore := 0;
      var unansweredQuestions: seq<char> := [];
      var i := 0;
      while i < |answers|
        invariant i <= |answers|
        invariant totalScore == TotalScore(answers[..i])
        invariant unansweredQuestions == Unanswered(answers[..i])
      {
        assert answers[..i + 1][..i] == answers[..i];
        if answers[i].Some? {
          totalScore := totalScore + answers[i].value;
        } else {
          unansweredQuestions := unansweredQuestions + [QuestionDigit(i)];
        }
        i := i + 1;
      }
      assert answers[..i] == answers;
      if |unansweredQuestions| > 0 {
        return Some(AlertText(unansweredQuestions));
      }
      currentRiskProfile := Some(ClassifyScore(totalScore));
      alert := None;
    }

    /**
     * `generateRecommendations(tickers, funding)`: the paced loop over the
     * quotes, then the allocation under `window.currentRiskProfile`.
     */
    method GenerateRecommendations(tickers: seq<string>, funding: real, quotes: nat -> QuoteOutcome, sqrt: real -> real)
      returns (trace: seq<Event>, result: Result<seq<QuoteRecommendation>, Failure>)
      ensures (trace, result) == QuoteRecommend(tickers, funding, currentRiskProfile, quotes, sqrt)
    {
      var stockData, failure;
      trace, stockData, failure := RunLoop(tickers, QuoteFetcher(quotes));
      if failure.Some? {
        return trace, Err(FetchFailed(failure.value));
      }
      result := QuoteFinish(stockData, funding, currentRiskProfile, sqrt);
    }
  }

  // ---------------------------------------------------------------------
  // Properties of the call
  // ---------------------------------------------------------------------

  /** Every quote fetch before position `n` returned a quote. */
  predicate QuotedAll(tickers: seq<string>, quotes: nat -> QuoteOutcome, n: nat)
    requires n <= |tickers|
  {
    forall j :: 0 <= j < n ==> QuoteAt(tickers, quotes, j).Ok?
  }

  lemma QuotedAllLoop(tickers: seq<string>, quotes: nat -> QuoteOutcome, n: nat)
    requires n <= |tickers|
    ensures QuotedAll(tickers, quotes, n) <==> FetchedUpTo(tickers, QuoteFetcher(quotes), n)
  {
    var fetch := QuoteFetcher(quotes);
    assert forall j :: 0 <= j < n ==> (fetch(tickers[j], j).1.Ok? <==> QuoteAt(tickers, quotes, j).Ok?);
  }

  /** When the loop finishes without an error, its records are the quotes' records, one per ticker, in order. */
  lemma QuotesGathered(tickers: seq<string>, quotes: nat -> QuoteOutcome)
    requires Gather(tickers, QuoteFetcher(quotes), |tickers|).failure.None?
    ensures QuotedAll(tickers, quotes, |tickers|)
    ensures var sd := Gather(tickers, QuoteFetcher(quotes), |tickers|).records;
      && |sd| == |tickers|
      && forall i :: 0 <= i < |sd| ==> sd[i] == QuoteRecord(tickers[i], QuoteAt(tickers, quotes, i).value)
  {
    var n := |tickers|;
    var fetch := QuoteFetcher(quotes);
    GatherSucceeds(tickers, fetch, n);
    GatherRecords(tickers, fetch, n);
    GatherCount(tickers, fetch, n);
    QuotedAllLoop(tickers, quotes, n);
  }

  /**
   * The percentage column of the rows. Each pipeline returns its own row
   * type, so each module reads its own columns.
   */
  function QuotePercentages(rows: seq<QuoteRecommendation>): (ps: seq<real>)
    ensures |ps| == |rows|
  {
    seq(|rows|, i requires 0 <= i < |rows| => rows[i].percentage)
  }

  /** The amount column of the rows. */
  function QuoteAmounts(rows: seq<QuoteRecommendation>): (amounts: seq<real>)
    ensures |amounts| == |rows|
  {
    seq(|rows|, i requires 0 <= i < |rows| => rows[i].amount)
  }

  /**
   * After the loop, a successful allocation yields one row per record, in
   * order, each carrying its record; the percentages are the allocation of
   * the records' volatilities under the stored profile and the amounts
   * those shares of the funding.
   */
  lemma QuoteFinishRows(stockData: seq<QuoteData>, funding: real, currentRiskProfile: Option<string>, sqrt: real -> real)
    requires QuoteFinish(stockData, funding, currentRiskProfile, sqrt).Ok?
    ensures var rows := QuoteFinish(stockData, funding, currentRiskProfile, sqrt).value;
      && |rows| == |stockData|
      && (forall i :: 0 <= i < |rows| ==> rows[i].stock == stockData[i])
      && StoredProfile(currentRiskProfile).Some?
      && Allocate(QuoteVolatilities(stockData), StoredProfile(currentRiskProfile).value, sqrt) == Ok(QuotePercentages(rows))
      && QuoteAmounts(rows) == Amounts(funding, QuotePercentages(rows))
  {
    var ps := Allocate(QuoteVolatilities(stockData), StoredProfile(currentRiskProfile).value, sqrt).value;
    var rows := QuoteRows(stockData, ps, funding);
    assert QuotePercentages(rows) == ps;
  }

  /**
   * A successful call fetched every quote and returns one row per ticker,
   * in ticker order, holding the record of that ticker's quote: price, high
   * and low copied, volatility the range over the price. The percentages
   * are the allocation of those volatilities under the stored profile, and
   * each amount is that share of the funding.
   */
  lemma QuoteRecommendRows(tickers: seq<string>, funding: real, currentRiskProfile: Option<string>,
                           quotes: nat -> QuoteOutcome, sqrt: real -> real)
    requires QuoteRecommend(tickers, funding, currentRiskProfile, quotes, sqrt).1.Ok?
    ensures QuotedAll(tickers, quotes, |tickers|)
    ensures var rows := QuoteRecommend(tickers, funding, currentRiskProfile, quotes, sqrt).1.value;
      && |rows| == |tickers|
      && (forall i :: 0 <= i < |rows| ==> rows[i].stock == QuoteRecord(tickers[i], QuoteAt(tickers, quotes, i).value))
      && StoredProfile(currentRiskProfile).Some?
      && Allocate(seq(|rows|, i requires 0 <= i < |rows| => rows[i].stock.volatility),
                  StoredProfile(currentRiskProfile).value, sqrt) == Ok(QuotePercentages(rows))
      && QuoteAmounts(rows) == Amounts(funding, QuotePercentages(rows))
  {
    var sd := Gather(tickers, QuoteFetcher(quotes), |tickers|).records;
    QuotesGathered(tickers, quotes);
    QuoteFinishRows(sd, funding, currentRiskProfile, sqrt);
    var rows := QuoteRecommend(tickers, funding, currentRiskProfile, quotes, sqrt).1.value;
    assert seq(|rows|, i requires 0 <= i < |rows| => rows[i].stock.volatility) == QuoteVolatilities(sd);
  }

  /**
   * Once every quote has been fetched, the call throws because `weights` is
   * undefined exactly when the questionnaire has not stored a recognised
   * profile.
   */
  lemma QuoteRecommendUnsetProfile(tickers: seq<string>, funding: real, currentRiskProfile: Option<string>,
                                   quotes: nat -> QuoteOutcome, sqrt: real -> real)
    ensures QuoteRecommend(tickers, funding, currentRiskProfile, quotes, sqrt).1 == Err(AllocationFailed(UndefinedWeights))
      <==> QuotedAll(tickers, quotes, |tickers|) && StoredProfile(currentRiskProfile).None?
  {
    GatherSucceeds(tickers, QuoteFetcher(quotes), |tickers|);
    QuotedAllLoop(tickers, quotes, |tickers|);
  }

  /** A profile stored by the questionnaire is always one the allocation recognises. */
  lemma StoredProfileRecognised(answers: seq<Option<int>>)
    requires |answers| == QuestionCount && Classification(answers).Ok?
    ensures StoredProfile(Some(Classification(answers).value)).Some?
  {
    ClassificationBands(answers);
  }

  /**
   * The call throws a fetch error exactly when some quote fetch fails after
   * all earlier ones succeeded, and then it throws that fetch's error.
   */
  lemma QuoteRecommendFetchFailure(tickers: seq<string>, funding: real, currentRiskProfile: Option<string>,
                                   quotes: nat -> QuoteOutcome, sqrt: real -> real, m: string)
    ensures QuoteRecommend(tickers, funding, currentRiskProfile, quotes, sqrt).1 == Err(FetchFailed(m))
      <==> exists k :: (0 <= k < |tickers| && QuotedAll(tickers, quotes, k)
                        && QuoteAt(tickers, quotes, k) == Err(m))
  {
    var fetch := QuoteFetcher(quotes);
    GatherFailsWith(tickers, fetch, |tickers|, m);
    forall k | 0 <= k < |tickers|
      ensures (QuotedAll(tickers, quotes, k) && QuoteAt(tickers, quotes, k) == Err(m))
          <==> (FetchedUpTo(tickers, fetch, k) && fetch(tickers[k], k).1 == Err(m))
    {
      QuotedAllLoop(tickers, quotes, k);
    }
  }

  /**
   * The pacing of client.js is that of app.js: loading text for each ticker
   * up to and including the first failing one, a 1.5 second pause before
   * every fetch but the first.
   */
  lemma QuoteRecommendPacing(tickers: seq<string>, funding: real, currentRiskProfile: Option<string>,
                             quotes: nat -> QuoteOutcome, sqrt: real -> real, k: nat)
    requires k <= |tickers| && QuotedAll(tickers, quotes, k)
    requires k < |tickers| ==> QuoteAt(tickers, quotes, k).Err?
    ensures Schedule(QuoteRecommend(tickers, funding, currentRiskProfile, quotes, sqrt).0)
      == PacedSchedule(tickers[..if k == |tickers| then k else k + 1])
  {
    var fetch := QuoteFetcher(quotes);
    forall i | 0 <= i < |tickers| ensures Schedule(fetch(tickers[i], i).0) == [] {
      var request := [Request(tickers[i], false)];
      assert FetchQuote(tickers[i], quotes(i)).0 == request;
      assert fetch(tickers[i], i).0 == FetchQuote(tickers[i], quotes(i)).0;
      assert request[..0] == [];
    }
    QuotedAllLoop(tickers, quotes, k);
    GatherPacingUpTo(tickers, fetch, k);
  }

  /** A successful call over at least one ticker allocates 100 percent and spends the whole funding. */
  lemma QuoteRecommendSpendsFunding(tickers: seq<string>, funding: real, currentRiskProfile: Option<string>,
                                    quotes: nat -> QuoteOutcome, sqrt: real -> real)
    requires |tickers| > 0 && QuoteRecommend(tickers, funding, currentRiskProfile, quotes, sqrt).1.Ok?
    ensures var rows := QuoteRecommend(tickers, funding, currentRiskProfile, quotes, sqrt).1.value;
      Sum(QuotePercentages(rows)) == 100.0 && Sum(QuoteAmounts(rows)) == funding
  {
    var sd := Gather(tickers, QuoteFetcher(quotes), |tickers|).records;
    QuotesGathered(tickers, quotes);
    QuoteFinishRows(sd, funding, currentRiskProfile, sqrt);
    var vols := QuoteVolatilities(sd);
    var p := StoredProfile(currentRiskProfile).value;
    AllocationSumsTo100(vols, p, sqrt);
    AllocationSpendsFunding(vols, p, sqrt, funding);
  }
}
