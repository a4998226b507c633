/** The Score and Win Probability columns in a float model with infinity and NaN but
    no rounding: finite values are exact reals, and division by zero does not raise, as
    in numpy: `1 / 0.0` is infinity, `inf / inf` is NaN and a finite number divided by
    infinity is zero. Only non-negative values arise (distances are square roots), so
    no negative infinity is needed. */
module IeeeScores {
  import opened RealSeq
  import opened Scoring

  /** A non-negative float without rounding: an exact finite value, positive infinity, or NaN. */
  datatype Float = Finite(value: real) | Infinity | NaN

  /** `a + b`. */
  function Add(a: Float, b: Float): Float {
    match (a, b)
    case (NaN, _) => NaN
    case (_, NaN) => NaN
    case (Infinity, _) => Infinity
    case (_, Infinity) => Infinity
    case (Finite(x), Finite(y)) => Finite(x + y)
  }

  /** `a / b`. */
  function Divide(a: Float, b: Float): Float {
    match (a, b)
    case (NaN, _) => NaN
    case (_, NaN) => NaN
    case (Infinity, Infinity) => NaN
    case (Infinity, _) => Infinity
    case (Finite(_), Infinity) => Finite(0.0)
    case (Finite(x), Finite(y)) => if y != 0.0 then Finite(x / y) else if x == 0.0 then NaN else Infinity
  }

  /** `a * 100`. */
  function Percent(a: Float): Float {
    match a
    case Finite(x) => Finite(x * 100.0)
    case _ => a
  }

  /** `Series.sum()` of a column that holds no NaN. */
  function FloatSum(xs: seq<Float>): Float {
    if |xs| == 0 then Finite(0.0) else Add(xs[0], FloatSum(xs[1..]))
  }

  /** `1 / current_teams["Distance"]` on floats. */
  function FloatScores(ds: seq<real>): (r: seq<Float>)
    ensures |r| == |ds|
  {
    seq(|ds|, i requires 0 <= i < |ds| => Divide(Finite(1.0), Finite(ds[i])))
  }

  /** `current_teams["Score"] / current_teams["Score"].sum() * 100` on floats. */
  function FloatProbabilities(ds: seq<real>): (p: seq<Float>)
    ensures |p| == |ds|
  {
    var scores := FloatScores(ds);
    var total := FloatSum(scores);
    seq(|ds|, i requires 0 <= i < |ds| => Percent(Divide(scores[i], total)))
  }

  /** Whether `sort_values("Win Probability", ascending=False)` may place a row with
      probability `a` ahead of one with `b`: larger values first, NaN last. */
  predicate MayPrecede(a: Float, b: Float) {
    match (a, b)
    case (NaN, NaN) => true
    case (NaN, _) => false
    case (_, NaN) => true
    case (Infinity, _) => true
    case (Finite(_), Infinity) => false
    case (Finite(x), Finite(y)) => x >= y
  }

  /** Without rounding, a column of finite values adds up to the finite real sum. */
  lemma {:induction false} FloatSumOfFinite(xs: seq<real>)
    ensures FloatSum(seq(|xs|, i requires 0 <= i < |xs| => Finite(xs[i]))) == Finite(Sum(xs))
  {
    var fs := seq(|xs|, i requires 0 <= i < |xs| => Finite(xs[i]));
    if |xs| > 0 {
      FloatSumOfFinite(xs[1..]);
      assert fs[1..] == seq(|xs[1..]|, i requires 0 <= i < |xs[1..]| => Finite(xs[1..][i]));
    }
  }

  /** A column with no NaN and at least one infinity adds up to infinity. */
  lemma {:induction false} FloatSumWithInfinity(xs: seq<Float>, k: int)
    requires forall i :: 0 <= i < |xs| ==> xs[i] != NaN
    requires 0 <= k < |xs| && xs[k] == Infinity
    ensures FloatSum(xs) == Infinity
  {
    if k > 0 {
      FloatSumWithInfinity(xs[1..], k - 1);
    } else {
      FloatSumNotNaN(xs[1..]);
    }
  }

  /** A column with no NaN does not add up to NaN. */
  lemma {:induction false} FloatSumNotNaN(xs: seq<Float>)
    requires forall i :: 0 <= i < |xs| ==> xs[i] != NaN
    ensures FloatSum(xs) != NaN
  {
    if |xs| > 0 {
      FloatSumNotNaN(xs[1..]);
    }
  }

  /** With no zero distance and no rounding, the float columns are the real ones: the
      score is finite and the win probabilities are those of `WinProbabilities`. */
  lemma FloatProbabilitiesAgree(ds: seq<real>)
    requires forall i :: 0 <= i < |ds| ==> ds[i] > 0.0
    ensures forall i :: 0 <= i < |ds| ==> FloatProbabilities(ds)[i] == Finite(WinProbabilities(Scores(ds))[i])
  {
    var scores := Scores(ds);
    assert FloatScores(ds) == seq(|scores|, i requires 0 <= i < |scores| => Finite(scores[i]));
    FloatSumOfFinite(scores);
    if |ds| > 0 {
      SumPositive(scores);
    }
  }

  /** As written, once some candidate is at distance zero every such candidate's
      probability is NaN and every other candidate's is 0. */
  lemma ZeroDistanceProbabilities(ds: seq<real>, z: int)
    requires forall i :: 0 <= i < |ds| ==> ds[i] >= 0.0
    requires 0 <= z < |ds| && ds[z] == 0.0
    ensures forall i :: 0 <= i < |ds| ==>
              FloatProbabilities(ds)[i] == (if ds[i] == 0.0 then NaN else Finite(0.0))
  {
    FloatSumWithInfinity(FloatScores(ds), z);
  }

  /** The input that shows it: a team matching the profile (distance 0) and one at
      distance 2. The matching team gets NaN, the other 0, and the sort puts the
      other team first, so `prediction.iloc[0]` names the team that does not match. */
  lemma ZeroDistanceRanksMatchLast()
    ensures FloatProbabilities([0.0, 2.0]) == [NaN, Finite(0.0)]
    ensures MayPrecede(Finite(0.0), NaN) && !MayPrecede(NaN, Finite(0.0))
  {
    var ds := [0.0, 2.0];
    var p := FloatProbabilities(ds);
    ZeroDistanceProbabilities(ds, 0);
    assert p[0] == NaN && p[1] == Finite(0.0);
    assert p == [NaN, Finite(0.0)];
  }
}
