/**
 * The two volatility measures of the recommender: the population standard
 * deviation of consecutive returns of a closing-price series (app.js,
 * app_v2.0.js, index_based.js) and the high-low range of a single quote
 * relative to its price (client.js).
 */
module Volatility {
  import opened Wrappers
  import opened RealMath

  /** A closing or quoted price of a traded equity: always positive. */
  type Price = x: real | x > 0.0 witness 1.0

  /** The relative change `(next - prev) / prev` from one price to the next. */
  function RelativeChange(prev: Price, next: Price): real
  {
    (next as real - prev as real) / prev as real
  }

  /**
   * `prices.slice(1).map((price, i) => (price - prices[i]) / prices[i])`:
   * the relative change from each price to the next, in index order.
   */
  function Returns(prices: seq<Price>): (rs: seq<real>)
    ensures |rs| == if |prices| == 0 then 0 else |prices| - 1
  {
    if |prices| <= 1 then []
    else seq(|prices| - 1, i requires 0 <= i < |prices| - 1 => RelativeChange(prices[i], prices[i + 1]))
  }

  /** A price moved by the relative change `r`. */
  function Grow(p: real, r: real): real
  {
    p * (1.0 + r)
  }

  /** The series obtained by compounding the returns `rs` from the opening price `p0`. */
  function Compound(p0: real, rs: seq<real>): (ps: seq<real>)
    ensures |ps| == |rs| + 1 && ps[0] == p0
  {
    if |rs| == 0 then [p0]
    else
      var before := Compound(p0, rs[..|rs| - 1]);
      before + [Grow(before[|rs| - 1], rs[|rs| - 1])]
  }

  /** Compounding one return from the earlier price gives the later price. */
  lemma CompoundStep(prev: Price, next: Price)
    ensures Grow(prev, RelativeChange(prev, next)) == next as real
  {
    var p, q := prev as real, next as real;
    assert (q - p) / p * p == q - p;
  }

  /** Returns lose nothing but the scale: compounding them from the first price gives the series back. */
  lemma {:induction false} CompoundReturns(prices: seq<Price>)
    requires |prices| > 0
    ensures Compound(prices[0], Returns(prices)) == prices
  {
    if |prices| > 1 {
      var n := |prices| - 1;
      var init := prices[..n];
      assert init[0] == prices[0];
      assert Returns(prices)[..n - 1] == Returns(init);
      CompoundReturns(init);
      var rs := Returns(prices);
      var r := rs[n - 1];
      assert r == RelativeChange(prices[n - 1], prices[n]);
      CompoundStep(prices[n - 1], prices[n]);
      assert |rs| == n;
      var before := Compound(prices[0], rs[..n - 1]);
      assert before == init;
      assert Compound(prices[0], rs) == before + [Grow(before[n - 1], r)];
      assert prices == init + [prices[n]];
    }
  }

  /** `returns.reduce((sum, r) => sum + r, 0) / returns.length` */
  function Mean(rs: seq<real>): real
    requires |rs| > 0
  {
    Sum(rs) / (|rs| as real)
  }

  /** The squared deviations `Math.pow(r - mean, 2)` of the returns, in order. */
  function SquaredDeviations(rs: seq<real>): (ds: seq<real>)
    requires |rs| > 0
    ensures |ds| == |rs|
  {
    seq(|rs|, i requires 0 <= i < |rs| => Sq(rs[i] - Mean(rs)))
  }

  /** Population variance: the squared deviations are averaged over the count of returns. */
  function Variance(rs: seq<real>): real
    requires |rs| > 0
  {
    Sum(SquaredDeviations(rs)) / (|rs| as real)
  }

  /**
   * `calculateVolatility(prices)` of app.js: the square root of the population
   * variance of the returns. With fewer than two prices there is no return,
   * the source divides 0 by 0 and yields NaN; the model yields None.
   */
  function SeriesVolatility(prices: seq<Price>, sqrt: real -> real): Option<real>
  {
    if |prices| < 2 then None else Some(sqrt(Variance(Returns(prices))))
  }

  lemma SqNonNegative(d: real)
    ensures Sq(d) >= 0.0
  {
    if d > 0.0 {
      SqPositive(d);
    } else if d < 0.0 {
      SqPositive(-d);
      assert Sq(-d) == Sq(d);
    }
  }

  /** The variance is never negative, so its square root is always defined. */
  lemma VarianceNonNegative(rs: seq<real>)
    requires |rs| > 0
    ensures Variance(rs) >= 0.0
  {
    var ds := SquaredDeviations(rs);
    forall i | 0 <= i < |ds| ensures ds[i] >= 0.0 {
      SqNonNegative(rs[i] - Mean(rs));
    }
    SumNonNegative(ds);
  }

  /** A sum of `n` copies of `c` is `n * c`. */
  lemma {:induction false} SumConstant(xs: seq<real>, c: real)
    requires forall i :: 0 <= i < |xs| ==> xs[i] == c
    ensures Sum(xs) == (|xs| as real) * c
  {
    if |xs| > 0 {
      SumConstant(xs[..|xs| - 1], c);
    }
  }

  /** A sum of non-negative terms is zero only when every term is zero. */
  lemma {:induction false} SumZeroAllZero(xs: seq<real>)
    requires forall i :: 0 <= i < |xs| ==> xs[i] >= 0.0
    requires Sum(xs) == 0.0
    ensures forall i :: 0 <= i < |xs| ==> xs[i] == 0.0
  {
    if |xs| > 0 {
      var n := |xs| - 1;
      SumNonNegative(xs[..n]);
      SumZeroAllZero(xs[..n]);
      assert forall i :: 0 <= i < n ==> xs[..n][i] == xs[i];
    }
  }

  /** Returns that are all equal have variance zero, and only those. */
  lemma VarianceZeroIff(rs: seq<real>)
    requires |rs| > 0
    ensures Variance(rs) == 0.0 <==> forall i :: 0 <= i < |rs| ==> rs[i] == rs[0]
  {
    var ds := SquaredDeviations(rs);
    var m := Mean(rs);
    forall i | 0 <= i < |ds| ensures ds[i] >= 0.0 {
      SqNonNegative(rs[i] - m);
    }
    if Variance(rs) == 0.0 {
      assert Sum(ds) == 0.0;
      SumZeroAllZero(ds);
      forall i | 0 <= i < |rs| ensures rs[i] == m {
        var d := rs[i] - m;
        assert ds[i] == Sq(d) && ds[i] == 0.0;
        assert Sq(-d) == Sq(d);
        if d > 0.0 { SqPositive(d); }
        if d < 0.0 { SqPositive(-d); }
      }
    }
    if forall i :: 0 <= i < |rs| ==> rs[i] == rs[0] {
      SumConstant(rs, rs[0]);
      assert m == rs[0];
      SumOfZeros(ds);
    }
  }

  /** The volatility of a series of at least two prices is defined and non-negative. */
  lemma VolatilityNonNegative(prices: seq<Price>, sqrt: real -> real)
    requires IsSqrt(sqrt)
    requires |prices| >= 2
    ensures SeriesVolatility(prices, sqrt).Some?
    ensures SeriesVolatility(prices, sqrt).value >= 0.0
  {
    VarianceNonNegative(Returns(prices));
  }

  /**
   * The volatility of a series is zero exactly when every week moves the
   * price by the same relative amount; in particular a constant series has
   * volatility zero.
   */
  lemma VolatilityZeroIff(prices: seq<Price>, sqrt: real -> real)
    requires IsSqrt(sqrt)
    requires |prices| >= 2
    ensures var rs := Returns(prices);
      SeriesVolatility(prices, sqrt) == Some(0.0) <==> forall i :: 0 <= i < |rs| ==> rs[i] == rs[0]
  {
    var rs := Returns(prices);
    VarianceNonNegative(rs);
    SqrtPositive(sqrt, Variance(rs));
    VarianceZeroIff(rs);
  }

  /** A series whose prices are all equal has volatility exactly zero. */
  lemma ConstantSeriesVolatility(prices: seq<Price>, sqrt: real -> real)
    requires IsSqrt(sqrt)
    requires |prices| >= 2
    requires forall i :: 0 <= i < |prices| ==> prices[i] == prices[0]
    ensures SeriesVolatility(prices, sqrt) == Some(0.0)
  {
    var rs := Returns(prices);
    assert forall i :: 0 <= i < |rs| ==> rs[i] == 0.0;
    VolatilityZeroIff(prices, sqrt);
  }

  /** The worked example: returns 0.10 and -0.10 have mean 0, variance 0.01, and volatility the square root of 0.01. */
  lemma WorkedExample(sqrt: real -> real)
    ensures Variance(Returns([100.0, 110.0, 99.0])) == 0.01
    ensures SeriesVolatility([100.0, 110.0, 99.0], sqrt) == Some(sqrt(0.01))
  {
    var prices: seq<Price> := [100.0, 110.0, 99.0];
    var rs := Returns(prices);
    assert rs == [0.1, -0.1];
    assert Sum(rs) == 0.0 by { assert rs[..1] == [0.1]; assert [0.1][..0] == []; }
    var ds := SquaredDeviations(rs);
    assert ds == [0.01, 0.01];
    assert Sum(ds) == 0.02 by { assert ds[..1] == [0.01]; assert [0.01][..0] == []; }
  }

  /** Under a true square root, the worked example's volatility `sqrt(0.01)` is 0.10. */
  lemma WorkedExampleRoot(sqrt: real -> real)
    requires IsSqrt(sqrt)
    ensures sqrt(0.01) == 0.1
  {
    assert Sq(0.1) == 0.01;
    SqrtOfSquare(sqrt, 0.1);
  }

  /**
   * `calculateVolatility(prices)` of app_v2.0.js and index_based.js: the
   * returns are pushed one by one in a `for` loop from index 1, then reduced
   * as in app.js.
   */
  method CalculateVolatility(prices: seq<Price>, sqrt: real -> real) returns (vol: Option<real>)
    ensures vol == SeriesVolatility(prices, sqrt)
  {
    var weekly: seq<real> := [];
    var i := 1;
    while i < |prices|
      invariant 1 <= i <= (if |prices| == 0 then 1 else |prices|)
      invariant |weekly| == i - 1
      invariant forall k :: 0 <= k < i - 1 ==> weekly[k] == RelativeChange(prices[k], prices[k + 1])
    {
      weekly := weekly + [RelativeChange(prices[i - 1], prices[i])];
      i := i + 1;
    }
    if |weekly| == 0 {
      vol := None;
    } else {
      assert weekly == Returns(prices);
      var variance := Variance(weekly);
      vol := Some(sqrt(variance));
    }
  }

  /**
   * `calculateVolatility(high, low, price)` of client.js: the day's range
   * relative to the current price.
   */
  function QuoteVolatility(high: real, low: real, price: Price): (v: real)
    ensures v * price == high - low
    ensures v >= 0.0 <==> high >= low
    ensures v == 0.0 <==> high == low
  {
    (high - low) / price
  }
}
