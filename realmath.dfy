/**
 * Arithmetic over Dafny's `real` standing in for the JavaScript numbers the
 * source reduces with `Array.prototype.reduce`, `Math.max`, `Math.min` and
 * `Math.sqrt`.
 */
module RealMath {

  /** `xs.reduce((a, b) => a + b, 0)`: a left fold, so the last element is added last. */
  function Sum(xs: seq<real>): real
  {
    if |xs| == 0 then 0.0 else Sum(xs[..|xs| - 1]) + xs[|xs| - 1]
  }

  lemma SumTwo(x: real, y: real)
    ensures Sum([x, y]) == x + y
  {
    assert [x, y][..1] == [x];
    assert [x][..0] == [];
    assert Sum([x]) == Sum([]) + x;
  }

  lemma {:induction false} SumAppend(xs: seq<real>, ys: seq<real>)
    ensures Sum(xs + ys) == Sum(xs) + Sum(ys)
    decreases |ys|
  {
    if |ys| > 0 {
      var n := |ys| - 1;
      assert (xs + ys)[..|xs + ys| - 1] == xs + ys[..n];
      SumAppend(xs, ys[..n]);
    } else {
      assert xs + ys == xs;
    }
  }

  /** A sum whose every term is zero is zero. */
  lemma {:induction false} SumOfZeros(xs: seq<real>)
    requires forall i :: 0 <= i < |xs| ==> xs[i] == 0.0
    ensures Sum(xs) == 0.0
  {
    if |xs| > 0 {
      SumOfZeros(xs[..|xs| - 1]);
    }
  }

  /** A sum of non-negative terms is non-negative. */
  lemma {:induction false} SumNonNegative(xs: seq<real>)
    requires forall i :: 0 <= i < |xs| ==> xs[i] >= 0.0
    ensures Sum(xs) >= 0.0
  {
    if |xs| > 0 {
      SumNonNegative(xs[..|xs| - 1]);
    }
  }

  /** A sum of positive terms over a non-empty sequence is positive. */
  lemma {:induction false} SumPositive(xs: seq<real>)
    requires |xs| > 0
    requires forall i :: 0 <= i < |xs| ==> xs[i] > 0.0
    ensures Sum(xs) > 0.0
  {
    if |xs| > 1 {
      SumPositive(xs[..|xs| - 1]);
    }
  }

  /** `ws.map(w => (w / total) * 100)` */
  function Percentages(ws: seq<real>, total: real): (ps: seq<real>)
    requires total != 0.0
    ensures |ps| == |ws|
  {
    seq(|ws|, i requires 0 <= i < |ws| => ws[i] / total * 100.0)
  }

  /** Scaling every term scales the sum: the sum of the percentages is `100 * Sum(ws) / total`. */
  lemma {:induction false} SumPercentages(ws: seq<real>, total: real)
    requires total != 0.0
    ensures Sum(Percentages(ws, total)) == Sum(ws) / total * 100.0
  {
    var ps := Percentages(ws, total);
    if |ws| > 0 {
      var n := |ws| - 1;
      assert ps[..n] == Percentages(ws[..n], total);
      SumPercentages(ws[..n], total);
      assert Sum(ps) == Sum(ws[..n]) / total * 100.0 + ws[n] / total * 100.0;
    }
  }

  /** The whole is one hundred percent of itself. */
  lemma WholeShare(total: real)
    requires total != 0.0
    ensures total / total * 100.0 == 100.0
  {
  }

  /** A share of a positive total grows with the weight. */
  lemma ShareMonotone(x: real, y: real, total: real)
    requires total > 0.0 && x < y
    ensures x / total * 100.0 < y / total * 100.0
  {
    assert y / total - x / total == (y - x) / total;
  }

  /** Reciprocals reverse the order of positive reals. */
  lemma ReciprocalDecreasing(a: real, b: real)
    requires 0.0 < a < b
    ensures 1.0 / b < 1.0 / a
  {
    assert 1.0 / a - 1.0 / b == (b - a) / (a * b);
    PositiveProduct(a, b);
  }

  /** The share of a weight `1 / x` times `x` does not depend on `x`. */
  lemma ReciprocalShare(x: real, total: real)
    requires x != 0.0 && total != 0.0
    ensures 1.0 / x / total * 100.0 * x == 100.0 / total
  {
  }

  /** A share of the reciprocal weight `w = 1 / x`, times `x`, is 100 over the total. */
  lemma InverseShareTimes(p: real, w: real, x: real, total: real)
    requires x != 0.0 && total != 0.0
    requires w == 1.0 / x && p == w / total * 100.0
    ensures p * x == 100.0 / total
  {
    ReciprocalShare(x, total);
  }

  /** `xs.map(x => x / c)` */
  function Divided(xs: seq<real>, c: real): (ys: seq<real>)
    requires c != 0.0
    ensures |ys| == |xs|
  {
    seq(|xs|, i requires 0 <= i < |xs| => xs[i] / c)
  }

  /** Dividing every term divides the sum. */
  lemma {:induction false} SumDivided(xs: seq<real>, c: real)
    requires c != 0.0
    ensures Sum(Divided(xs, c)) == Sum(xs) / c
  {
    if |xs| > 0 {
      var n := |xs| - 1;
      assert Divided(xs, c)[..n] == Divided(xs[..n], c);
      SumDivided(xs[..n], c);
      assert Sum(xs[..n]) / c + xs[n] / c == (Sum(xs[..n]) + xs[n]) / c;
    }
  }

  /** `Math.max(...xs)` for a non-empty sequence: an element of it that no element exceeds. */
  function Max(xs: seq<real>): (m: real)
    requires |xs| > 0
    ensures m in xs
    ensures forall i :: 0 <= i < |xs| ==> xs[i] <= m
  {
    if |xs| == 1 then xs[0]
    else
      var m := Max(xs[..|xs| - 1]);
      assert m in xs[..|xs| - 1];
      if xs[|xs| - 1] > m then xs[|xs| - 1] else m
  }

  /** `Math.min(...xs)` for a non-empty sequence: an element of it that exceeds no element. */
  function Min(xs: seq<real>): (m: real)
    requires |xs| > 0
    ensures m in xs
    ensures forall i :: 0 <= i < |xs| ==> m <= xs[i]
  {
    if |xs| == 1 then xs[0]
    else
      var m := Min(xs[..|xs| - 1]);
      assert m in xs[..|xs| - 1];
      if xs[|xs| - 1] < m then xs[|xs| - 1] else m
  }

  /** The square of a real, kept behind a name so that the solver treats it as one term. */
  function Sq(a: real): real
  {
    a * a
  }

  /**
   * What the model assumes of the square root it is handed in place of
   * `Math.sqrt`: on the non-negative reals it returns the non-negative root.
   */
  ghost predicate IsSqrt(sqrt: real -> real)
  {
    forall x :: 0.0 <= x ==> 0.0 <= sqrt(x) && Sq(sqrt(x)) == x
  }

  /** A product of two positive reals is positive. */
  lemma PositiveProduct(u: real, v: real)
    requires u > 0.0 && v > 0.0
    ensures u * v > 0.0
  {
  }

  /** The difference of two squares factors as the product of the difference and the sum. */
  lemma DifferenceOfSquares(a: real, b: real)
    ensures (b - a) * (b + a) == Sq(b) - Sq(a)
  {
    calc {
      (b - a) * (b + a);
    ==  // distribute over the sum
      (b - a) * b + (b - a) * a;
    ==  // distribute over the differences
      (b * b - a * b) + (b * a - a * a);
    ==  // the cross terms cancel
      b * b - a * a;
    }
  }

  /** Two non-negative reals with the same square are equal. */
  lemma SquareInjective(a: real, b: real)
    requires 0.0 <= a && 0.0 <= b
    requires Sq(a) == Sq(b)
    ensures a == b
  {
    if a < b {
      SquaresOrdered(a, b);
    } else if b < a {
      SquaresOrdered(b, a);
    }
  }

  /** Squaring keeps the order of non-negative reals. */
  lemma SquaresOrdered(a: real, b: real)
    requires 0.0 <= a < b
    ensures Sq(a) < Sq(b)
  {
    var d, t := b - a, b + a;
    PositiveProduct(d, t);
    DifferenceOfSquares(a, b);
    assert d * t == Sq(b) - Sq(a);
  }

  /** The square of a positive real is positive. */
  lemma SqPositive(s: real)
    requires s > 0.0
    ensures Sq(s) > 0.0
  {
    var half := s / 2.0;
    PositiveProduct(half, s);
    assert Sq(s) == 2.0 * (half * s);
  }

  /** The square root of the square of a non-negative real is that real. */
  lemma SqrtOfSquare(sqrt: real -> real, a: real)
    requires IsSqrt(sqrt)
    requires 0.0 <= a
    ensures sqrt(Sq(a)) == a
  {
    assert 0.0 <= Sq(a);
    SquareInjective(sqrt(Sq(a)), a);
  }

  /** The square root is positive exactly on the positive reals. */
  lemma SqrtPositive(sqrt: real -> real, x: real)
    requires IsSqrt(sqrt)
    requires 0.0 <= x
    ensures sqrt(x) > 0.0 <==> x > 0.0
  {
    var s := sqrt(x);
    assert 0.0 <= s && Sq(s) == x;
    if s > 0.0 {
      SqPositive(s);
    }
  }

  /** The square root is strictly increasing on the non-negative reals. */
  lemma SqrtStrictlyIncreasing(sqrt: real -> real, x: real, y: real)
    requires IsSqrt(sqrt)
    requires 0.0 <= x < y
    ensures sqrt(x) < sqrt(y)
  {
    var a, b := sqrt(x), sqrt(y);
    assert 0.0 <= a && Sq(a) == x;
    assert 0.0 <= b && Sq(b) == y;
    if b < a {
      SquaresOrdered(b, a);
    }
  }
}
