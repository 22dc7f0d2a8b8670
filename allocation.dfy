/**
 * `calculateRiskAdjustedAllocation(volatilities, riskProfile)`, the same in
 * all four scripts: a weight per ticker chosen by the risk profile, then the
 * weights normalised to percentages of their total.
 */
module Allocation {
  import opened Wrappers
  import opened RealMath

  datatype RiskProfile = Conservative | Moderate | Aggressive

  /** The string the scripts compare against in `switch(riskProfile)`. */
  function ProfileName(p: RiskProfile): string
  {
    match p
    case Conservative => "conservative"
    case Moderate => "moderate"
    case Aggressive => "aggressive"
  }

  /** The `case` a profile string selects; None when no case matches. */
  function ParseProfile(s: string): (p: Option<RiskProfile>)
    ensures p.Some? <==> s == "conservative" || s == "moderate" || s == "aggressive"
  {
    if s == "conservative" then Some(Conservative)
    else if s == "moderate" then Some(Moderate)
    else if s == "aggressive" then Some(Aggressive)
    else None
  }

  /** Every profile is selected by its own name and by no other string. */
  lemma ParseProfileName(p: RiskProfile, s: string)
    ensures ParseProfile(s) == Some(p) <==> s == ProfileName(p)
  {
  }

  /**
   * Why an allocation has no numeric result. `UndefinedWeights`: no `case`
   * assigned `weights`, and `weights.reduce` throws a TypeError. `NonFinite`:
   * the source divides by zero or takes the square root of a negative number,
   * so its percentages are Infinity or NaN rather than numbers.
   */
  datatype AllocationError = UndefinedWeights | NonFinite

  /**
   * The condition under which every weight of the profile is a finite
   * number: no `1 / 0`, no square root of a negative volatility, no average
   * of zero.
   */
  predicate WeightsDefined(vols: seq<real>, p: RiskProfile, sqrt: real -> real)
  {
    match p
    case Conservative => forall i :: 0 <= i < |vols| ==> vols[i] != 0.0
    case Moderate => forall i :: 0 <= i < |vols| ==> vols[i] >= 0.0 && sqrt(vols[i]) != 0.0
    case Aggressive => Sum(vols) != 0.0
  }

  /** `volatilities.reduce((sum, vol) => sum + vol, 0) / volatilities.length` */
  function AverageVolatility(vols: seq<real>): real
    requires |vols| > 0
  {
    Sum(vols) / (|vols| as real)
  }

  /** The weight of one ticker: `1 / vol`, `1 / Math.sqrt(vol)` or `vol / avgVolatility`. */
  function Weight(vols: seq<real>, i: nat, p: RiskProfile, sqrt: real -> real): real
    requires i < |vols| && WeightsDefined(vols, p, sqrt)
  {
    match p
    case Conservative => 1.0 / vols[i]
    case Moderate => 1.0 / sqrt(vols[i])
    case Aggressive => vols[i] / AverageVolatility(vols)
  }

  /** `volatilities.map(...)` with the weight of the profile, in input order. */
  function Weights(vols: seq<real>, p: RiskProfile, sqrt: real -> real): (ws: seq<real>)
    requires WeightsDefined(vols, p, sqrt)
    ensures |ws| == |vols|
  {
    seq(|vols|, i requires 0 <= i < |vols| => Weight(vols, i, p, sqrt))
  }

  /**
   * The allocation for a recognised profile: `weights.map(w => (w / totalWeight) * 100)`.
   * An empty input gives an empty allocation, as mapping over `[]` does.
   */
  function Allocate(vols: seq<real>, p: RiskProfile, sqrt: real -> real): (r: Result<seq<real>, AllocationError>)
    ensures r.Ok? ==> |r.value| == |vols|
    ensures r.Err? ==> r.error == NonFinite
  {
    if |vols| == 0 then Ok([])
    else if !WeightsDefined(vols, p, sqrt) then Err(NonFinite)
    else
      var ws := Weights(vols, p, sqrt);
      if Sum(ws) == 0.0 then Err(NonFinite) else Ok(Percentages(ws, Sum(ws)))
  }

  /**
   * app.js and client.js: `weights` starts undefined, so a profile that no
   * `case` matches makes the call throw.
   */
  function AllocateOrThrow(vols: seq<real>, p: Option<RiskProfile>, sqrt: real -> real): (r: Result<seq<real>, AllocationError>)
    ensures p.None? ==> r == Err(UndefinedWeights)
    ensures p.Some? ==> r == Allocate(vols, p.value, sqrt)
  {
    match p
    case None => Err(UndefinedWeights)
    case Some(q) => Allocate(vols, q, sqrt)
  }

  /**
   * app_v2.0.js and index_based.js: `weights` starts as `[]`, so a profile
   * that no `case` matches yields no percentages at all.
   */
  function AllocateOrEmpty(vols: seq<real>, p: Option<RiskProfile>, sqrt: real -> real): (r: Result<seq<real>, AllocationError>)
    ensures p.None? ==> r == Ok([])
    ensures p.Some? ==> r == Allocate(vols, p.value, sqrt)
  {
    match p
    case None => Ok([])
    case Some(q) => Allocate(vols, q, sqrt)
  }

  /** `(funding * allocation) / 100` for every percentage: the dollar amount of each position. */
  function Amounts(funding: real, ps: seq<real>): (amounts: seq<real>)
    ensures |amounts| == |ps|
  {
    seq(|ps|, i requires 0 <= i < |ps| => funding * ps[i] / 100.0)
  }

  /** The amounts add up to the same share of the funding as the percentages add up to of 100. */
  lemma {:induction false} SumAmounts(funding: real, ps: seq<real>)
    ensures Sum(Amounts(funding, ps)) == funding * Sum(ps) / 100.0
  {
    if |ps| > 0 {
      var n := |ps| - 1;
      forall i | 0 <= i < n ensures Amounts(funding, ps)[..n][i] == Amounts(funding, ps[..n])[i] {
        assert ps[..n][i] == ps[i];
      }
      assert Amounts(funding, ps)[..n] == Amounts(funding, ps[..n]);
      SumAmounts(funding, ps[..n]);
      var before := Sum(ps[..n]);
      assert funding * (before + ps[n]) == funding * before + funding * ps[n];
    }
  }

  /** A full allocation spends the whole funding. */
  lemma AllocationSpendsFunding(vols: seq<real>, p: RiskProfile, sqrt: real -> real, funding: real)
    requires |vols| > 0 && Allocate(vols, p, sqrt).Ok?
    ensures Sum(Amounts(funding, Allocate(vols, p, sqrt).value)) == funding
  {
    AllocationSumsTo100(vols, p, sqrt);
    SumAmounts(funding, Allocate(vols, p, sqrt).value);
  }

  // ---------------------------------------------------------------------
  // Properties of the allocation
  // ---------------------------------------------------------------------

  /** One percentage per input, in input order, summing to exactly 100. */
  lemma AllocationSumsTo100(vols: seq<real>, p: RiskProfile, sqrt: real -> real)
    requires |vols| > 0 && Allocate(vols, p, sqrt).Ok?
    ensures |Allocate(vols, p, sqrt).value| == |vols|
    ensures Sum(Allocate(vols, p, sqrt).value) == 100.0
  {
    assert WeightsDefined(vols, p, sqrt);
    var ws := Weights(vols, p, sqrt);
    var total := Sum(ws);
    assert total != 0.0;
    assert Allocate(vols, p, sqrt).value == Percentages(ws, total);
    SumPercentages(ws, total);
    WholeShare(total);
  }

  /** Positive volatilities always allocate, whatever the profile. */
  lemma PositiveVolatilitiesAllocate(vols: seq<real>, p: RiskProfile, sqrt: real -> real)
    requires IsSqrt(sqrt)
    requires forall i :: 0 <= i < |vols| ==> vols[i] > 0.0
    ensures Allocate(vols, p, sqrt).Ok?
  {
    if |vols| > 0 {
      SumPositive(vols);
      forall i | 0 <= i < |vols| ensures sqrt(vols[i]) != 0.0 {
        SqrtPositive(sqrt, vols[i]);
      }
      assert WeightsDefined(vols, p, sqrt);
      var ws := Weights(vols, p, sqrt);
      forall i | 0 <= i < |ws| ensures ws[i] > 0.0 {
        SqrtPositive(sqrt, vols[i]);
        AverageVolatilityPositive(vols);
      }
      SumPositive(ws);
    }
  }

  lemma AverageVolatilityPositive(vols: seq<real>)
    requires |vols| > 0
    requires forall i :: 0 <= i < |vols| ==> vols[i] > 0.0
    ensures AverageVolatility(vols) > 0.0
  {
    SumPositive(vols);
  }

  /** Each percentage is the ticker's weight as a share of the total weight, at the ticker's position. */
  lemma ShareAt(vols: seq<real>, p: RiskProfile, sqrt: real -> real, i: nat)
    requires i < |vols| && Allocate(vols, p, sqrt).Ok?
    ensures WeightsDefined(vols, p, sqrt)
    ensures Sum(Weights(vols, p, sqrt)) != 0.0
    ensures Allocate(vols, p, sqrt).value[i]
      == Weight(vols, i, p, sqrt) / Sum(Weights(vols, p, sqrt)) * 100.0
    ensures p == Conservative ==> vols[i] != 0.0 && Weight(vols, i, p, sqrt) == 1.0 / vols[i]
    ensures p == Moderate ==> sqrt(vols[i]) != 0.0 && Weight(vols, i, p, sqrt) == 1.0 / sqrt(vols[i])
  {
  }

  /** A conservative share times the volatility is the same for every ticker: 100 over the total weight. */
  lemma ConservativeShareAt(vols: seq<real>, sqrt: real -> real, i: nat)
    requires i < |vols| && Allocate(vols, Conservative, sqrt).Ok?
    ensures Sum(Weights(vols, Conservative, sqrt)) != 0.0
    ensures Allocate(vols, Conservative, sqrt).value[i] * vols[i]
      == 100.0 / Sum(Weights(vols, Conservative, sqrt))
  {
    ShareAt(vols, Conservative, sqrt, i);
    InverseShareTimes(Allocate(vols, Conservative, sqrt).value[i], Weight(vols, i, Conservative, sqrt),
                      vols[i], Sum(Weights(vols, Conservative, sqrt)));
  }

  /** A moderate share times the volatility's square root is the same for every ticker. */
  lemma ModerateShareAt(vols: seq<real>, sqrt: real -> real, i: nat)
    requires i < |vols| && Allocate(vols, Moderate, sqrt).Ok?
    ensures Sum(Weights(vols, Moderate, sqrt)) != 0.0
    ensures Allocate(vols, Moderate, sqrt).value[i] * sqrt(vols[i])
      == 100.0 / Sum(Weights(vols, Moderate, sqrt))
  {
    ShareAt(vols, Moderate, sqrt, i);
    InverseShareTimes(Allocate(vols, Moderate, sqrt).value[i], Weight(vols, i, Moderate, sqrt),
                      sqrt(vols[i]), Sum(Weights(vols, Moderate, sqrt)));
  }

  /** Conservative: shares are inversely proportional to volatility (share times volatility is the same for all). */
  lemma ConservativeInverseProportional(vols: seq<real>, sqrt: real -> real, i: nat, j: nat)
    requires i < |vols| && j < |vols| && Allocate(vols, Conservative, sqrt).Ok?
    ensures Allocate(vols, Conservative, sqrt).value[i] * vols[i]
         == Allocate(vols, Conservative, sqrt).value[j] * vols[j]
  {
    ConservativeShareAt(vols, sqrt, i);
    ConservativeShareAt(vols, sqrt, j);
  }

  /** Moderate: shares are inversely proportional to the square root of volatility. */
  lemma ModerateInverseSqrtProportional(vols: seq<real>, sqrt: real -> real, i: nat, j: nat)
    requires i < |vols| && j < |vols| && Allocate(vols, Moderate, sqrt).Ok?
    ensures Allocate(vols, Moderate, sqrt).value[i] * sqrt(vols[i])
         == Allocate(vols, Moderate, sqrt).value[j] * sqrt(vols[j])
  {
    ModerateShareAt(vols, sqrt, i);
    ModerateShareAt(vols, sqrt, j);
  }

  /** Under aggressive the weights `vol / avgVolatility` always total the number of tickers. */
  lemma AggressiveTotalWeight(vols: seq<real>, sqrt: real -> real)
    requires |vols| > 0 && Sum(vols) != 0.0
    ensures Sum(Weights(vols, Aggressive, sqrt)) == |vols| as real
  {
    var n := |vols| as real;
    var avg := AverageVolatility(vols);
    CancelAverage(Sum(vols), n);
    var ws := Weights(vols, Aggressive, sqrt);
    forall i | 0 <= i < |vols| ensures ws[i] == Divided(vols, avg)[i] {
      assert ws[i] == Weight(vols, i, Aggressive, sqrt);
    }
    assert ws == Divided(vols, avg);
    SumDivided(vols, avg);
  }

  lemma CancelAverage(total: real, n: real)
    requires total != 0.0 && n > 0.0
    ensures total / n != 0.0
    ensures total / (total / n) == n
  {
  }

  lemma CancelAverageShare(v: real, total: real, n: real)
    requires total != 0.0 && n > 0.0
    ensures v / (total / n) / n * 100.0 == v / total * 100.0
  {
  }

  /** Aggressive: the average volatility cancels, and shares are the volatilities' shares of their sum. */
  lemma AggressiveProportional(vols: seq<real>, sqrt: real -> real, i: nat)
    requires i < |vols| && Allocate(vols, Aggressive, sqrt).Ok?
    ensures Sum(vols) != 0.0
    ensures Allocate(vols, Aggressive, sqrt).value[i] == vols[i] / Sum(vols) * 100.0
  {
    AggressiveTotalWeight(vols, sqrt);
    ShareAt(vols, Aggressive, sqrt, i);
    CancelAverageShare(vols[i], Sum(vols), |vols| as real);
  }

  /**
   * Conservative and moderate favour the calmer ticker: of two positive
   * volatilities the smaller one gets the strictly larger share.
   */
  lemma InverseProfilesFavourLowVolatility(vols: seq<real>, p: RiskProfile, sqrt: real -> real, i: nat, j: nat)
    requires IsSqrt(sqrt)
    requires p == Conservative || p == Moderate
    requires forall k :: 0 <= k < |vols| ==> vols[k] > 0.0
    requires i < |vols| && j < |vols| && vols[i] < vols[j]
    ensures Allocate(vols, p, sqrt).Ok?
    ensures Allocate(vols, p, sqrt).value[i] > Allocate(vols, p, sqrt).value[j]
  {
    PositiveVolatilitiesAllocate(vols, p, sqrt);
    var ws := Weights(vols, p, sqrt);
    forall k | 0 <= k < |ws| ensures ws[k] > 0.0 {
      SqrtPositive(sqrt, vols[k]);
    }
    SumPositive(ws);
    if p == Conservative {
      ReciprocalDecreasing(vols[i], vols[j]);
    } else {
      SqrtPositive(sqrt, vols[i]);
      SqrtStrictlyIncreasing(sqrt, vols[i], vols[j]);
      ReciprocalDecreasing(sqrt(vols[i]), sqrt(vols[j]));
    }
    ShareAt(vols, p, sqrt, i);
    ShareAt(vols, p, sqrt, j);
    ShareMonotone(ws[j], ws[i], Sum(ws));
  }

  /** Aggressive favours the more volatile ticker when the volatilities have a positive sum. */
  lemma AggressiveFavoursHighVolatility(vols: seq<real>, sqrt: real -> real, i: nat, j: nat)
    requires Sum(vols) > 0.0
    requires i < |vols| && j < |vols| && vols[i] < vols[j]
    ensures Allocate(vols, Aggressive, sqrt).Ok?
    ensures Allocate(vols, Aggressive, sqrt).value[i] < Allocate(vols, Aggressive, sqrt).value[j]
  {
    AggressiveTotalWeight(vols, sqrt);
    AggressiveProportional(vols, sqrt, i);
    AggressiveProportional(vols, sqrt, j);
    ShareMonotone(vols[i], vols[j], Sum(vols));
  }

  /** The two-ticker worked example: volatilities 0.05 and 0.20 under moderate split 2:1. */
  lemma ModerateWorkedExample(sqrt: real -> real)
    requires IsSqrt(sqrt)
    ensures Allocate([0.05, 0.2], Moderate, sqrt) == Ok([200.0 / 3.0, 100.0 / 3.0])
  {
    var vols := [0.05, 0.2];
    var a, b := sqrt(0.05), sqrt(0.2);
    assert 0.0 <= a && Sq(a) == 0.05;
    assert 0.0 <= b && Sq(b) == 0.2;
    assert Sq(2.0 * a) == 4.0 * Sq(a);
    SquareInjective(b, 2.0 * a);
    SqrtPositive(sqrt, 0.05);
    var ws := Weights(vols, Moderate, sqrt);
    assert ws == [1.0 / a, 1.0 / (2.0 * a)];
    SumTwo(1.0 / a, 1.0 / (2.0 * a));
    assert Sum(ws) == 3.0 / (2.0 * a);
    var ps := Percentages(ws, Sum(ws));
    assert ps[0] == 1.0 / a / (3.0 / (2.0 * a)) * 100.0 == 200.0 / 3.0;
    assert ps[1] == 1.0 / (2.0 * a) / (3.0 / (2.0 * a)) * 100.0 == 100.0 / 3.0;
    assert ps == [200.0 / 3.0, 100.0 / 3.0];
  }
}
