/** The recency-weighted profile of past champions: every title winner weighted by
    how recent its title is, and the weighted mean of each tracked metric. */
module ChampionProfile {
  import opened Wrappers
  import opened SeasonLabels
  import opened RealSeq
  import opened Dataset

  /** The YEAR prefixes of all rows cast to int at once: one label that does not
      parse makes the whole cast fail. */
  function SeasonStarts(rows: seq<SeasonRecord>): (r: Option<seq<int>>)
    ensures r.Some? <==> forall i :: 0 <= i < |rows| ==> SeasonStart(rows[i].year).Some?
    ensures r.Some? ==> |r.value| == |rows|
    ensures r.Some? ==> forall i :: 0 <= i < |rows| ==> r.value[i] == SeasonStart(rows[i].year).value
  {
    if |rows| == 0 then Some([])
    else
      var rest := SeasonStarts(rows[1..]);
      assert forall i :: 1 <= i < |rows| ==> rows[i] == rows[1..][i - 1];
      match SeasonStart(rows[0].year)
      case None => None
      case Some(y) => if rest.Some? then Some([y] + rest.value) else None
  }

  /** The latest title year: the largest season start among the champions
      (`RealSeq.MaxOf` is the same maximum over reals). */
  function CurrentYear(starts: seq<int>): (y: int)
    requires |starts| > 0
    ensures y in starts
    ensures forall i :: 0 <= i < |starts| ==> starts[i] <= y
  {
    if |starts| == 1 then starts[0]
    else
      var r := CurrentYear(starts[1..]);
      assert forall i :: 1 <= i < |starts| ==> starts[i] == starts[1..][i - 1];
      if r <= starts[0] then starts[0] else r
  }

  /** The weight of a title won in season `start`: one over the number of seasons
      from `start` up to and including `currentYear`. */
  function Weight(currentYear: int, start: int): (w: real)
    requires start <= currentYear
    ensures 0.0 < w <= 1.0
    ensures w == 1.0 <==> start == currentYear
  {
    var span := (currentYear - start + 1) as real;
    assert span >= 1.0;
    assert 1.0 / span <= 1.0 by {
      assert 1.0 / span * span == 1.0;
    }
    assert 1.0 / span == 1.0 ==> span == 1.0 by {
      assert 1.0 / span * span == 1.0;
    }
    1.0 / span
  }

  /** An older title always weighs strictly less than a more recent one. */
  lemma WeightFallsWithAge(currentYear: int, older: int, newer: int)
    requires older < newer <= currentYear
    ensures Weight(currentYear, older) < Weight(currentYear, newer)
  {
    var a, b := (currentYear - older + 1) as real, (currentYear - newer + 1) as real;
    assert a > b >= 1.0;
    assert 1.0 / a * a == 1.0 && 1.0 / b * b == 1.0;
    assert 1.0 / a < 1.0 / b by {
      ReciprocalFalls(b, a);
    }
  }

  lemma ReciprocalFalls(lo: real, hi: real)
    requires 0.0 < lo < hi
    ensures 1.0 / hi < 1.0 / lo
  {
    assert 1.0 / hi * hi == 1.0 && 1.0 / lo * lo == 1.0;
    assert 1.0 / lo - 1.0 / hi == (hi - lo) / (lo * hi);
  }

  /** The Weight column of the champions. */
  function Weights(starts: seq<int>, currentYear: int): (w: seq<real>)
    requires forall i :: 0 <= i < |starts| ==> starts[i] <= currentYear
    ensures |w| == |starts|
    ensures forall i :: 0 <= i < |w| ==> 0.0 < w[i] <= 1.0
    ensures forall i :: 0 <= i < |w| ==> (w[i] == 1.0 <==> starts[i] == currentYear)
  {
    seq(|starts|, i requires 0 <= i < |starts| => Weight(currentYear, starts[i]))
  }

  /** `np.sum(values * weights) / np.sum(weights)`. */
  function WeightedMean(values: seq<real>, weights: seq<real>): (r: real)
    requires |values| == |weights| && Sum(weights) != 0.0
    ensures Product(r, Sum(weights)) == Sum(Times(values, weights))
  {
    Sum(Times(values, weights)) / Sum(weights)
  }

  /** Over positively weighted champions, every metric's weighted mean lies between
      the column's minimum and maximum. */
  lemma ColumnMeansWithin(champions: seq<SeasonRecord>, weights: seq<real>)
    requires |champions| == |weights| > 0
    requires forall i :: 0 <= i < |weights| ==> weights[i] > 0.0
    ensures Sum(weights) > 0.0
    ensures forall m: Metric :: MinOf(Column(champions, m)) <= WeightedMean(Column(champions, m), weights)
                                                         <= MaxOf(Column(champions, m))
  {
    SumPositive(weights);
    forall m: Metric
      ensures MinOf(Column(champions, m)) <= WeightedMean(Column(champions, m), weights) <= MaxOf(Column(champions, m))
    {
      var column := Column(champions, m);
      WeightedMeanWithin(column, weights, MinOf(column), MaxOf(column));
    }
  }

  /** With positive weights the weighted mean is a convex combination of the values:
      it stays within any bounds that all the values respect. */
  lemma WeightedMeanWithin(values: seq<real>, weights: seq<real>, lo: real, hi: real)
    requires |values| == |weights| > 0
    requires forall i :: 0 <= i < |weights| ==> weights[i] > 0.0
    requires forall i :: 0 <= i < |values| ==> lo <= values[i] <= hi
    ensures Sum(weights) > 0.0
    ensures lo <= WeightedMean(values, weights) <= hi
  {
    SumPositive(weights);
    WeightedMeanAtLeast(values, weights, lo);
    WeightedMeanAtMost(values, weights, hi);
  }

  lemma WeightedMeanAtLeast(values: seq<real>, weights: seq<real>, lo: real)
    requires |values| == |weights| && Sum(weights) > 0.0
    requires forall i :: 0 <= i < |weights| ==> weights[i] >= 0.0
    requires forall i :: 0 <= i < |values| ==> lo <= values[i]
    ensures lo <= WeightedMean(values, weights)
  {
    WeightedSumAtLeast(values, weights, lo);
    DivideAtLeast(lo, Sum(Times(values, weights)), Sum(weights));
  }

  lemma WeightedMeanAtMost(values: seq<real>, weights: seq<real>, hi: real)
    requires |values| == |weights| && Sum(weights) > 0.0
    requires forall i :: 0 <= i < |weights| ==> weights[i] >= 0.0
    requires forall i :: 0 <= i < |values| ==> values[i] <= hi
    ensures WeightedMean(values, weights) <= hi
  {
    WeightedSumAtMost(values, weights, hi);
    DivideAtMost(hi, Sum(Times(values, weights)), Sum(weights));
  }

  /** When all values agree, the weighted mean is that common value. */
  lemma WeightedMeanOfConstant(values: seq<real>, weights: seq<real>, c: real)
    requires |values| == |weights| && Sum(weights) != 0.0
    requires forall i :: 0 <= i < |values| ==> values[i] == c
    ensures WeightedMean(values, weights) == c
  {
    WeightedSumOfConstant(values, weights, c);
    DivideCancel(c, Sum(Times(values, weights)), Sum(weights));
  }

  /** A metric on which every champion agrees has exactly that value in the
      profile; in particular a lone champion is its own profile. */
  lemma SharedValueIsProfile(champions: seq<SeasonRecord>, weights: seq<real>, m: Metric, c: real)
    requires |weights| == |champions| && Sum(weights) != 0.0
    requires forall i :: 0 <= i < |champions| ==> Value(champions[i], m) == c
    ensures WeightedMean(Column(champions, m), weights) == c
  {
    WeightedMeanOfConstant(Column(champions, m), weights, c);
  }

  lemma SingleChampionProfile(champion: SeasonRecord, weights: seq<real>, m: Metric)
    requires |weights| == 1 && Sum(weights) != 0.0
    ensures WeightedMean(Column([champion], m), weights) == Value(champion, m)
  {
    SharedValueIsProfile([champion], weights, m, Value(champion, m));
  }

  /** The profile holds a value for every tracked metric. */
  predicate Complete(profile: map<Metric, real>) {
    forall m: Metric :: m in profile
  }

  /** `weighted_profile` as a value: every metric's weighted mean over the champions. */
  function WeightedProfile(champions: seq<SeasonRecord>, weights: seq<real>): (p: map<Metric, real>)
    requires |weights| == |champions| > 0
    requires forall i :: 0 <= i < |weights| ==> weights[i] > 0.0
    ensures Complete(p)
    ensures forall m: Metric :: MinOf(Column(champions, m)) <= p[m] <= MaxOf(Column(champions, m))
  {
    ColumnMeansWithin(champions, weights);
    assert forall m: Metric :: m in METRICS by {
      forall m: Metric ensures m in METRICS {
        MetricsListsAll(m);
      }
    }
    map m: Metric | m in METRICS :: WeightedMean(Column(champions, m), weights)
  }

  /** The `weighted_profile` dict, filled in one metric at a time. */
  method BuildProfile(champions: seq<SeasonRecord>, weights: seq<real>) returns (profile: map<Metric, real>)
    requires |weights| == |champions| && Sum(weights) != 0.0
    ensures Complete(profile)
    ensures forall m: Metric :: profile[m] == WeightedMean(Column(champions, m), weights)
    ensures (forall i :: 0 <= i < |weights| ==> weights[i] > 0.0) ==>
              forall m: Metric :: MinOf(Column(champions, m)) <= profile[m] <= MaxOf(Column(champions, m))
  {
    profile := map[];
    for k := 0 to |METRICS|
      invariant forall j :: 0 <= j < k ==> METRICS[j] in profile
      invariant forall m :: m in profile ==> profile[m] == WeightedMean(Column(champions, m), weights)
    {
      var m := METRICS[k];
      profile := profile[m := WeightedMean(Column(champions, m), weights)];
    }
    forall m: Metric ensures m in profile {
      MetricsListsAll(m);
    }
    if forall i :: 0 <= i < |weights| ==> weights[i] > 0.0 {
      forall m: Metric
        ensures MinOf(Column(champions, m)) <= profile[m] <= MaxOf(Column(champions, m))
      {
        var column := Column(champions, m);
        WeightedMeanWithin(column, weights, MinOf(column), MaxOf(column));
      }
    }
  }

  /** The `champions` copy of the table, to which the Season_Start and Weight
      columns are added in place. */
  class ChampionFrame {
    const rows: seq<SeasonRecord>
    var seasonStart: seq<int>
    var weight: seq<real>

    /** `df[df["CHAMPION"] == 1].copy()`. */
    constructor (df: seq<SeasonRecord>)
      ensures rows == ChampionRows(df) && seasonStart == [] && weight == []
    {
      rows := ChampionRows(df);
      seasonStart, weight := [], [];
    }

    /** Adds Season_Start; on a label that does not parse the frame is left as it was. */
    method AddSeasonStart() returns (ok: bool)
      modifies this
      ensures ok <==> SeasonStarts(rows).Some?
      ensures ok ==> seasonStart == SeasonStarts(rows).value
      ensures !ok ==> seasonStart == old(seasonStart)
      ensures weight == old(weight)
    {
      var starts := SeasonStarts(rows);
      ok := starts.Some?;
      if ok {
        seasonStart := starts.value;
      }
    }

    /** Adds Weight for the given latest title year. */
    method AddWeight(currentYear: int)
      requires |seasonStart| == |rows|
      requires forall i :: 0 <= i < |seasonStart| ==> seasonStart[i] <= currentYear
      modifies this
      ensures seasonStart == old(seasonStart)
      ensures weight == Weights(seasonStart, currentYear)
    {
      weight := Weights(seasonStart, currentYear);
    }
  }
}
