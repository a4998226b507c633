/** How far each candidate team is from the champion profile, and how that
    distance becomes a score and a win probability. */
module Scoring {
  import opened RealSeq
  import opened Dataset
  import opened ChampionProfile

  /** What the model relies on about `np.sqrt`: on a non-negative argument it
      returns the non-negative number whose square is that argument. */
  ghost predicate SqrtLaw(sqrt: real -> real) {
    forall x :: 0.0 <= x ==> 0.0 <= sqrt(x) && sqrt(x) * sqrt(x) == x
  }

  /** Such a square root is strictly increasing on the non-negative reals. */
  lemma SqrtStrictlyMonotone(sqrt: real -> real, x: real, y: real)
    requires SqrtLaw(sqrt) && 0.0 <= x && 0.0 <= y
    ensures sqrt(x) < sqrt(y) <==> x < y
  {
    var a, b := sqrt(x), sqrt(y);
    assert Product(a, a) == x;
    assert Product(b, b) == y;
    SquareStrict(a, b);
  }

  function Square(x: real): (r: real)
    ensures r >= 0.0
    ensures r == 0.0 <==> x == 0.0
  {
    SquareNonNegative(x);
    SquareZero(x);
    Product(x, x)
  }

  /** The team equals the profile on all four metrics. */
  predicate Matches(row: SeasonRecord, profile: map<Metric, real>)
    requires Complete(profile)
  {
    forall m: Metric :: Value(row, m) == profile[m]
  }

  /** The radicand of `calculate_distance`: the squared differences on WIN%,
      GD PER GAME and GA PER GAME, plus that of points divided by 100. */
  function SquaredDistance(row: SeasonRecord, profile: map<Metric, real>): (d: real)
    requires Complete(profile)
    ensures d >= 0.0
    ensures d == 0.0 <==> Matches(row, profile)
  {
    var d := Square(row.winPct - profile[WinPct]) + Square(row.gdPerGame - profile[GdPerGame])
      + Square(row.gaPerGame - profile[GaPerGame]) + Square((row.points - profile[Points]) / 100.0);
    assert d == 0.0 ==> Matches(row, profile) by {
      if d == 0.0 {
        forall m: Metric ensures Value(row, m) == profile[m] {
          MetricsListsAll(m);
        }
      }
    }
    d
  }

  /** A team that differs from the profile on metric `m` alone is that single
      difference away: unscaled for three metrics, a hundredth for points. */
  lemma OneMetricApart(row: SeasonRecord, profile: map<Metric, real>, m: Metric)
    requires Complete(profile)
    requires forall n: Metric :: n != m ==> Value(row, n) == profile[n]
    ensures m == Points ==> SquaredDistance(row, profile) == Square(row.points - profile[Points]) / 10000.0
    ensures m != Points ==> SquaredDistance(row, profile) == Square(Value(row, m) - profile[m])
  {
    assert Value(row, WinPct) == row.winPct && Value(row, GdPerGame) == row.gdPerGame;
    assert Value(row, GaPerGame) == row.gaPerGame && Value(row, Points) == row.points;
    if m == Points {
      var x := row.points - profile[Points];
      assert Square(x / 100.0) == Square(x) / 10000.0;
    }
  }

  /** `calculate_distance(row)`. */
  function Distance(row: SeasonRecord, profile: map<Metric, real>, sqrt: real -> real): (d: real)
    requires Complete(profile) && SqrtLaw(sqrt)
    ensures d >= 0.0
    ensures d == 0.0 <==> Matches(row, profile)
    ensures d * d == SquaredDistance(row, profile)
  {
    var s := SquaredDistance(row, profile);
    assert Square(sqrt(s)) == s;
    sqrt(s)
  }

  /** Distances compare exactly as the squared distances do, so the ranking does
      not depend on which square root is used. */
  lemma DistanceOrder(a: SeasonRecord, b: SeasonRecord, profile: map<Metric, real>, sqrt: real -> real)
    requires Complete(profile) && SqrtLaw(sqrt)
    ensures Distance(a, profile, sqrt) < Distance(b, profile, sqrt)
        <==> SquaredDistance(a, profile) < SquaredDistance(b, profile)
  {
    SqrtStrictlyMonotone(sqrt, SquaredDistance(a, profile), SquaredDistance(b, profile));
  }

  /** The Distance column of the latest-season teams. */
  function Distances(rows: seq<SeasonRecord>, profile: map<Metric, real>, sqrt: real -> real): (ds: seq<real>)
    requires Complete(profile) && SqrtLaw(sqrt)
    ensures |ds| == |rows|
    ensures forall i :: 0 <= i < |ds| ==> ds[i] == Distance(rows[i], profile, sqrt)
    ensures forall i :: 0 <= i < |ds| ==> ds[i] >= 0.0 && (ds[i] == 0.0 <==> Matches(rows[i], profile))
    ensures forall i, j :: 0 <= i < |ds| && 0 <= j < |ds| ==>
              (ds[i] < ds[j] <==> SquaredDistance(rows[i], profile) < SquaredDistance(rows[j], profile))
  {
    var ds := seq(|rows|, i requires 0 <= i < |rows| => Distance(rows[i], profile, sqrt));
    assert forall i, j :: 0 <= i < |ds| && 0 <= j < |ds| ==>
             (ds[i] < ds[j] <==> SquaredDistance(rows[i], profile) < SquaredDistance(rows[j], profile)) by {
      forall i, j | 0 <= i < |ds| && 0 <= j < |ds|
        ensures ds[i] < ds[j] <==> SquaredDistance(rows[i], profile) < SquaredDistance(rows[j], profile)
      {
        DistanceOrder(rows[i], rows[j], profile, sqrt);
      }
    }
    ds
  }

  /** `1 / Distance`: the reciprocal of the distance. */
  function Score(d: real): (s: real)
    requires d != 0.0
    ensures s * d == 1.0
    ensures d > 0.0 ==> s > 0.0
  {
    1.0 / d
  }

  /** Between two positive distances, the nearer one scores strictly higher. */
  lemma NearerScoresHigher(d1: real, d2: real)
    requires 0.0 < d1 && 0.0 < d2
    ensures d1 < d2 <==> Score(d1) > Score(d2)
  {
    if d1 < d2 {
      ReciprocalFalls(d1, d2);
    } else if d2 < d1 {
      ReciprocalFalls(d2, d1);
    }
  }

  /** The Score column. */
  function Scores(ds: seq<real>): (r: seq<real>)
    requires forall i :: 0 <= i < |ds| ==> ds[i] != 0.0
    ensures |r| == |ds|
    ensures forall i :: 0 <= i < |r| ==> r[i] == Score(ds[i])
    ensures (forall k :: 0 <= k < |ds| ==> ds[k] > 0.0) ==>
              forall i, j :: 0 <= i < |r| && 0 <= j < |r| ==> r[i] > 0.0 && (ds[i] < ds[j] <==> r[i] > r[j])
  {
    var r := seq(|ds|, i requires 0 <= i < |ds| => Score(ds[i]));
    assert (forall k :: 0 <= k < |ds| ==> ds[k] > 0.0) ==>
             forall i, j :: 0 <= i < |r| && 0 <= j < |r| ==> r[i] > 0.0 && (ds[i] < ds[j] <==> r[i] > r[j]) by {
      if forall k :: 0 <= k < |ds| ==> ds[k] > 0.0 {
        forall i, j | 0 <= i < |r| && 0 <= j < |r| ensures r[i] > 0.0 && (ds[i] < ds[j] <==> r[i] > r[j]) {
          NearerScoresHigher(ds[i], ds[j]);
        }
      }
    }
    r
  }

  /** The Win Probability column: each score as a percentage of the score total. */
  function WinProbabilities(scores: seq<real>): (p: seq<real>)
    requires forall i :: 0 <= i < |scores| ==> scores[i] > 0.0
    ensures |p| == |scores|
    ensures forall i :: 0 <= i < |p| ==> p[i] > 0.0
  {
    if |scores| == 0 then []
    else
      SumPositive(scores);
      var total := Sum(scores);
      seq(|scores|, i requires 0 <= i < |scores| => scores[i] / total * 100.0)
  }

  /** The win probabilities add up to 100. */
  lemma WinProbabilitiesSumTo100(scores: seq<real>)
    requires |scores| > 0
    requires forall i :: 0 <= i < |scores| ==> scores[i] > 0.0
    ensures Sum(WinProbabilities(scores)) == 100.0
  {
    SumPositive(scores);
    var total := Sum(scores);
    var p := WinProbabilities(scores);
    forall i | 0 <= i < |scores|
      ensures p[i] == scores[i] * (100.0 / total)
    {
      assert p[i] == scores[i] / total * 100.0;
    }
    SumScaled(scores, p, 100.0 / total);
    assert Product(total, 100.0 / total) == 100.0;
  }

  /** Win probability follows the score, in both directions. */
  lemma ProbabilityFollowsScore(scores: seq<real>, i: int, j: int)
    requires forall k :: 0 <= k < |scores| ==> scores[k] > 0.0
    requires 0 <= i < |scores| && 0 <= j < |scores|
    ensures scores[i] < scores[j] <==> WinProbabilities(scores)[i] < WinProbabilities(scores)[j]
  {
    SumPositive(scores);
    var total := Sum(scores);
    var p := WinProbabilities(scores);
    var k := 100.0 / total;
    assert k > 0.0;
    QuotientScale(scores[i], total, 100.0);
    QuotientScale(scores[j], total, 100.0);
    ScaleStrict(scores[i], scores[j], k);
  }

  /** Of two candidates, the one nearer the profile gets the strictly larger score
      and the strictly larger win probability, and conversely. */
  lemma CloserMeansMoreLikely(ds: seq<real>, i: int, j: int)
    requires forall k :: 0 <= k < |ds| ==> ds[k] > 0.0
    requires 0 <= i < |ds| && 0 <= j < |ds|
    ensures ds[i] < ds[j] <==> Scores(ds)[i] > Scores(ds)[j]
    ensures ds[i] < ds[j] <==> WinProbabilities(Scores(ds))[i] > WinProbabilities(Scores(ds))[j]
  {
    NearerScoresHigher(ds[i], ds[j]);
    ProbabilityFollowsScore(Scores(ds), j, i);
  }

  /** The latest-season copy of the table, to which Distance, Score and Win
      Probability are added in place. */
  class CandidateFrame {
    const rows: seq<SeasonRecord>
    var distance: seq<real>
    var score: seq<real>
    var winProbability: seq<real>

    /** `df[df["YEAR"] == season].copy()`. */
    constructor (df: seq<SeasonRecord>, season: string)
      ensures rows == SeasonRows(df, season)
      ensures distance == [] && score == [] && winProbability == []
    {
      rows := SeasonRows(df, season);
      distance, score, winProbability := [], [], [];
    }

    /** `apply(calculate_distance, axis=1)`. */
    method AddDistance(profile: map<Metric, real>, sqrt: real -> real)
      requires Complete(profile) && SqrtLaw(sqrt)
      modifies this
      ensures distance == Distances(rows, profile, sqrt)
      ensures score == old(score) && winProbability == old(winProbability)
    {
      distance := Distances(rows, profile, sqrt);
    }

    /** Adds Score; when some distance is zero the reciprocal is undefined and the
      frame is left as it was. */
    method AddScore() returns (ok: bool)
      modifies this
      ensures ok <==> forall i :: 0 <= i < |distance| ==> distance[i] != 0.0
      ensures ok ==> score == Scores(distance)
      ensures !ok ==> score == old(score)
      ensures distance == old(distance) && winProbability == old(winProbability)
    {
      ok := forall i :: 0 <= i < |distance| ==> distance[i] != 0.0;
      if ok {
        score := Scores(distance);
      }
    }

    /** Adds Win Probability from positive scores. */
    method AddWinProbability()
      requires forall i :: 0 <= i < |score| ==> score[i] > 0.0
      modifies this
      ensures distance == old(distance) && score == old(score)
      ensures winProbability == WinProbabilities(score)
    {
      winProbability := WinProbabilities(score);
    }
  }
}
