/** Column reductions over reals: the `np.sum` and extreme values the pipeline relies on,
    and the facts about them that weighted means and normalisation need. */
module RealSeq {

  /** `np.sum` of a column, added up from the front. */
  function Sum(xs: seq<real>): real {
    if |xs| == 0 then 0.0 else xs[0] + Sum(xs[1..])
  }

  /** The product of a scalar and a total. Facts about such products are stated
      through this function so that the solver matches them as whole terms. */
  function Product(a: real, b: real): real {
    a * b
  }

  /** The element-wise product of two columns of equal length (`a * b` on two Series). */
  function Times(xs: seq<real>, ys: seq<real>): (r: seq<real>)
    requires |xs| == |ys|
    ensures |r| == |xs|
    ensures forall i :: 0 <= i < |r| ==> r[i] == xs[i] * ys[i]
  {
    if |xs| == 0 then [] else [xs[0] * ys[0]] + Times(xs[1..], ys[1..])
  }

  /** The smallest value of a non-empty column. */
  function MinOf(xs: seq<real>): (m: real)
    requires |xs| > 0
    ensures m in xs
    ensures forall i :: 0 <= i < |xs| ==> m <= xs[i]
  {
    if |xs| == 1 then xs[0]
    else
      var r := MinOf(xs[1..]);
      assert forall i :: 1 <= i < |xs| ==> xs[i] == xs[1..][i - 1];
      if xs[0] <= r then xs[0] else r
  }

  /** The largest value of a non-empty column: the same maximum as
      `ChampionProfile.CurrentYear`, over reals instead of integers. */
  function MaxOf(xs: seq<real>): (m: real)
    requires |xs| > 0
    ensures m in xs
    ensures forall i :: 0 <= i < |xs| ==> xs[i] <= m
  {
    if |xs| == 1 then xs[0]
    else
      var r := MaxOf(xs[1..]);
      assert forall i :: 1 <= i < |xs| ==> xs[i] == xs[1..][i - 1];
      if r <= xs[0] then xs[0] else r
  }

  lemma SumOfTwo(a: real, b: real)
    ensures Sum([a, b]) == a + b
  {
    var none: seq<real> := [];
    assert [b][1..] == none;
    assert Sum([b]) == b + Sum(none);
    assert [a, b][1..] == [b];
  }

  /** A non-empty column of positive values has a positive sum. */
  lemma {:induction false} SumPositive(xs: seq<real>)
    requires |xs| > 0
    requires forall i :: 0 <= i < |xs| ==> xs[i] > 0.0
    ensures Sum(xs) > 0.0
  {
    if |xs| > 1 {
      SumPositive(xs[1..]);
    }
  }

  /** Scaling every element by `k` scales the sum by `k`. */
  lemma {:induction false} SumScaled(xs: seq<real>, ys: seq<real>, k: real)
    requires |ys| == |xs|
    requires forall i :: 0 <= i < |xs| ==> ys[i] == xs[i] * k
    ensures Sum(ys) == Product(Sum(xs), k)
  {
    if |xs| > 0 {
      SumScaled(xs[1..], ys[1..], k);
      assert Sum(xs) * k == xs[0] * k + Sum(xs[1..]) * k;
    }
  }

  /** With non-negative weights, raising values never lowers the weighted sum. */
  lemma {:induction false} WeightedSumMonotone(low: seq<real>, high: seq<real>, weights: seq<real>)
    requires |low| == |high| == |weights|
    requires forall i :: 0 <= i < |weights| ==> weights[i] >= 0.0
    requires forall i :: 0 <= i < |low| ==> low[i] <= high[i]
    ensures Sum(Times(low, weights)) <= Sum(Times(high, weights))
  {
    if |low| > 0 {
      WeightedSumMonotone(low[1..], high[1..], weights[1..]);
      MultiplyMonotone(low[0], high[0], weights[0]);
    }
  }

  /** When every value is `c`, the weighted sum is `c` times the total weight. */
  lemma {:induction false} WeightedSumOfConstant(values: seq<real>, weights: seq<real>, c: real)
    requires |values| == |weights|
    requires forall i :: 0 <= i < |values| ==> values[i] == c
    ensures Sum(Times(values, weights)) == Product(c, Sum(weights))
  {
    if |values| > 0 {
      WeightedSumOfConstant(values[1..], weights[1..], c);
      assert c * Sum(weights) == c * weights[0] + c * Sum(weights[1..]);
    }
  }

  /** A weighted sum of values that are all at least `lo` is at least `lo` times the total weight. */
  lemma WeightedSumAtLeast(values: seq<real>, weights: seq<real>, lo: real)
    requires |values| == |weights|
    requires forall i :: 0 <= i < |weights| ==> weights[i] >= 0.0
    requires forall i :: 0 <= i < |values| ==> lo <= values[i]
    ensures Product(lo, Sum(weights)) <= Sum(Times(values, weights))
  {
    var floor := seq(|values|, _ => lo);
    WeightedSumMonotone(floor, values, weights);
    WeightedSumOfConstant(floor, weights, lo);
  }

  /** A weighted sum of values that are all at most `hi` is at most `hi` times the total weight. */
  lemma WeightedSumAtMost(values: seq<real>, weights: seq<real>, hi: real)
    requires |values| == |weights|
    requires forall i :: 0 <= i < |weights| ==> weights[i] >= 0.0
    requires forall i :: 0 <= i < |values| ==> values[i] <= hi
    ensures Sum(Times(values, weights)) <= Product(hi, Sum(weights))
  {
    var ceiling := seq(|values|, _ => hi);
    WeightedSumMonotone(values, ceiling, weights);
    WeightedSumOfConstant(ceiling, weights, hi);
  }

  lemma DivideAtLeast(lo: real, p: real, s: real)
    requires s > 0.0 && Product(lo, s) <= p
    ensures lo <= p / s
  {
    assert p / s * s == p;
    assert p / s - lo == (p - lo * s) / s;
  }

  lemma DivideAtMost(hi: real, p: real, s: real)
    requires s > 0.0 && p <= Product(hi, s)
    ensures p / s <= hi
  {
    assert p / s * s == p;
    assert hi - p / s == (hi * s - p) / s;
  }

  /** Dividing by `t` and then multiplying by `c` is multiplying by `c / t`. */
  lemma QuotientScale(a: real, t: real, c: real)
    requires t != 0.0
    ensures a / t * c == Product(a, c / t)
  {
    assert a / t == a * (1.0 / t);
    assert c / t == c * (1.0 / t);
  }

  lemma DivideCancel(c: real, p: real, s: real)
    requires s != 0.0 && p == Product(c, s)
    ensures p / s == c
  {
  }

  lemma SquareNonNegative(x: real)
    ensures Product(x, x) >= 0.0
  {
    if x >= 0.0 {
      assert x * x >= 0.0;
    } else {
      assert (-x) * (-x) == x * x;
      assert (-x) * (-x) >= 0.0;
    }
  }

  lemma SquareZero(x: real)
    ensures Product(x, x) == 0.0 ==> x == 0.0
  {
    if x != 0.0 {
      assert x * x * (1.0 / x) == x;
    }
  }

  /** Multiplying by a positive factor keeps the strict order, in both directions. */
  lemma ScaleStrict(a: real, b: real, k: real)
    requires k > 0.0
    ensures a < b <==> Product(a, k) < Product(b, k)
  {
    assert Product(b, k) - Product(a, k) == (b - a) * k;
    if a < b {
      assert (b - a) * k > 0.0;
    } else {
      assert (a - b) * k >= 0.0;
      assert (b - a) * k == -((a - b) * k);
    }
  }

  /** On non-negative reals, squaring keeps the strict order, in both directions. */
  lemma SquareStrict(a: real, b: real)
    requires 0.0 <= a && 0.0 <= b
    ensures a < b <==> Product(a, a) < Product(b, b)
  {
    assert Product(b, b) - Product(a, a) == (b - a) * (b + a);
    if a < b {
      ScaleStrict(0.0, b - a, b + a);
    } else {
      MultiplyMonotone(0.0, a - b, b + a);
      assert (b - a) * (b + a) == -((a - b) * (b + a));
    }
  }

  lemma MultiplyMonotone(a: real, b: real, w: real)
    requires a <= b && w >= 0.0
    ensures a * w <= b * w
  {
    assert b * w - a * w == (b - a) * w;
  }
}
