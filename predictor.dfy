/** The whole pipeline of the predictor page: champion profile, latest-season
    candidates, distances, probabilities, ranking and predicted champion. */
module Predictor {
  import opened Wrappers
  import opened SeasonLabels
  import opened RealSeq
  import opened Dataset
  import opened ChampionProfile
  import opened Scoring
  import opened Ranking

  /** The inputs on which the page cannot produce a prediction. */
  datatype PredictError =
    | BadSeasonLabel  // a champion's YEAR is empty or one of its first four characters is not a digit: the int cast raises
    | NoChampions     // no row has CHAMPION == 1: the weight total is zero
    | ZeroDistance    // a candidate equals the profile: its score would be 1 / 0

  datatype Forecast = Forecast(
    profile: map<Metric, real>, latestSeason: string, prediction: seq<PredictionRow>, winner: PredictionRow)

  /** The champion profile exists: every title winner's season parses and there is one. */
  predicate ProfileDefined(df: seq<SeasonRecord>) {
    SeasonStarts(ChampionRows(df)).Some? && |ChampionRows(df)| > 0
  }

  /** The Weight column of the champions. */
  function ChampionWeights(df: seq<SeasonRecord>): (w: seq<real>)
    requires ProfileDefined(df)
    ensures |w| == |ChampionRows(df)|
    ensures forall i :: 0 <= i < |w| ==> 0.0 < w[i] <= 1.0
  {
    var starts := SeasonStarts(ChampionRows(df)).value;
    Weights(starts, CurrentYear(starts))
  }

  /** `weighted_profile` as a value. */
  function ProfileOf(df: seq<SeasonRecord>): (p: map<Metric, real>)
    requires ProfileDefined(df)
    ensures Complete(p)
    ensures forall m: Metric :: MinOf(Column(ChampionRows(df), m)) <= p[m] <= MaxOf(Column(ChampionRows(df), m))
  {
    WeightedProfile(ChampionRows(df), ChampionWeights(df))
  }

  /** A complete profile holding the weighted mean of every metric is `ProfileOf(df)`. */
  lemma BuiltProfileIsProfileOf(df: seq<SeasonRecord>, profile: map<Metric, real>)
    requires ProfileDefined(df) && Complete(profile)
    requires Sum(ChampionWeights(df)) != 0.0
    requires forall m: Metric :: profile[m] == WeightedMean(Column(ChampionRows(df), m), ChampionWeights(df))
    ensures profile == ProfileOf(df)
  {
    var expected := ProfileOf(df);
    assert forall m: Metric :: m in expected && expected[m] == profile[m];
  }

  /** `current_teams`: the rows whose YEAR is the greatest label. */
  function Candidates(df: seq<SeasonRecord>): (c: seq<SeasonRecord>)
    requires |df| > 0
    ensures |c| > 0
    ensures forall x :: x in c <==> x in df && x.year == MaxLabel(Labels(df))
  {
    var latest := MaxLabel(Labels(df));
    assert exists x :: x in df && x.year == latest by {
      var i :| 0 <= i < |Labels(df)| && Labels(df)[i] == latest;
      assert df[i] in df;
    }
    SeasonRows(df, latest)
  }

  /** app.py:27-40: the champion profile, or why there is none. */
  method ChampionStage(df: seq<SeasonRecord>) returns (res: Result<map<Metric, real>, PredictError>)
    ensures res == Failure(BadSeasonLabel) <==> SeasonStarts(ChampionRows(df)).None?
    ensures res == Failure(NoChampions) <==> SeasonStarts(ChampionRows(df)).Some? && |ChampionRows(df)| == 0
    ensures res.Failure? ==> res.error != ZeroDistance
    ensures res.Success? ==> ProfileDefined(df) && res.value == ProfileOf(df)
  {
    var champions := new ChampionFrame(df);
    var parsed := champions.AddSeasonStart();
    if !parsed {
      return Failure(BadSeasonLabel);
    }
    if |champions.rows| == 0 {
      return Failure(NoChampions);
    }
    var currentYear := CurrentYear(champions.seasonStart);
    champions.AddWeight(currentYear);
    SumPositive(champions.weight);
    var profile := BuildProfile(champions.rows, champions.weight);
    assert champions.weight == ChampionWeights(df);
    BuiltProfileIsProfileOf(df, profile);
    return Success(profile);
  }

  /** `prediction` ranks `rows`, whose distances `ds` are all positive, by the win
      probability that normalises the reciprocal distances to 100. */
  ghost predicate RankedBy(rows: seq<SeasonRecord>, ds: seq<real>, prediction: seq<PredictionRow>)
    requires |ds| == |rows|
    requires forall i :: 0 <= i < |ds| ==> ds[i] > 0.0
  {
    var probabilities := WinProbabilities(Scores(ds));
    && multiset(prediction) == multiset(Project(rows, probabilities))
    && Sum(probabilities) == 100.0
    && SortedByProbability(prediction)
  }

  /** No candidate sits on the profile, and `prediction` ranks the candidates. */
  ghost predicate RankedCandidates(rows: seq<SeasonRecord>, profile: map<Metric, real>, sqrt: real -> real,
                                   prediction: seq<PredictionRow>)
    requires Complete(profile) && SqrtLaw(sqrt)
  {
    var ds := Distances(rows, profile, sqrt);
    (forall i :: 0 <= i < |ds| ==> ds[i] > 0.0) && RankedBy(rows, ds, prediction)
  }

  /** What the page shows for `df`: the profile of its champions, the greatest
      YEAR label, the ranked latest-season teams and the head of that ranking. */
  ghost predicate IsForecast(df: seq<SeasonRecord>, sqrt: real -> real, f: Forecast)
    requires SqrtLaw(sqrt)
  {
    && ProfileDefined(df)
    && f.profile == ProfileOf(df)
    && f.latestSeason == MaxLabel(Labels(df))
    && RankedCandidates(Candidates(df), f.profile, sqrt, f.prediction)
    && Winner(f.prediction) == Some(f.winner)
  }

  /** app.py:52-74: the latest-season teams ranked by Win Probability, or the failure
      of the score when a team sits exactly on the profile. */
  method CandidateStage(df: seq<SeasonRecord>, profile: map<Metric, real>, sqrt: real -> real)
    returns (res: Result<seq<PredictionRow>, PredictError>)
    requires |df| > 0 && Complete(profile) && SqrtLaw(sqrt)
    ensures res.Failure? <==> exists x :: x in Candidates(df) && Matches(x, profile)
    ensures res.Failure? ==> res.error == ZeroDistance
    ensures res.Success? ==> |res.value| == |Candidates(df)|
    ensures res.Success? ==> RankedCandidates(Candidates(df), profile, sqrt, res.value)
  {
    var latestSeason := MaxLabel(Labels(df));
    var current := new CandidateFrame(df, latestSeason);
    current.AddDistance(profile, sqrt);
    var scored := current.AddScore();
    if !scored {
      var i :| 0 <= i < |current.distance| && current.distance[i] == 0.0;
      assert current.rows[i] in current.rows;
      return Failure(ZeroDistance);
    }
    forall x | x in current.rows
      ensures !Matches(x, profile)
    {
      var i :| 0 <= i < |current.rows| && current.rows[i] == x;
      assert current.distance[i] != 0.0;
    }
    current.AddWinProbability();
    WinProbabilitiesSumTo100(current.score);
    var prediction := SortDescending(Project(current.rows, current.winProbability));
    assert |prediction| == |current.rows| by {
      assert |multiset(prediction)| == |Project(current.rows, current.winProbability)|;
    }
    return Success(prediction);
  }

  /** Runs the page's computation on a loaded table `df`, with `sqrt` standing for `np.sqrt`. */
  method Predict(df: seq<SeasonRecord>, sqrt: real -> real) returns (res: Result<Forecast, PredictError>)
    requires SqrtLaw(sqrt)
    ensures res == Failure(BadSeasonLabel) <==> SeasonStarts(ChampionRows(df)).None?
    ensures res == Failure(NoChampions) <==> SeasonStarts(ChampionRows(df)).Some? && |ChampionRows(df)| == 0
    ensures res == Failure(ZeroDistance) <==>
              ProfileDefined(df) && exists x :: x in Candidates(df) && Matches(x, ProfileOf(df))
    ensures res.Success? ==> IsForecast(df, sqrt, res.value)
  {
    var profiled := ChampionStage(df);
    if profiled.Failure? {
      return Failure(profiled.error);
    }
    var profile := profiled.value;
    var ranked := CandidateStage(df, profile, sqrt);
    if ranked.Failure? {
      return Failure(ZeroDistance);
    }
    var prediction := ranked.value;
    res := Success(Forecast(profile, MaxLabel(Labels(df)), prediction, prediction[0]));
  }

  /** The head of a ranking is a row that no other row is nearer to the profile than. */
  lemma HeadIsNearest(rows: seq<SeasonRecord>, ds: seq<real>, prediction: seq<PredictionRow>)
    requires |ds| == |rows|
    requires forall i :: 0 <= i < |ds| ==> ds[i] > 0.0
    requires RankedBy(rows, ds, prediction) && |prediction| > 0
    ensures exists i :: 0 <= i < |rows|
              && prediction[0].team == rows[i].team
              && forall j :: 0 <= j < |rows| ==> ds[i] <= ds[j]
  {
    var probabilities := WinProbabilities(Scores(ds));
    var table := Project(rows, probabilities);
    assert prediction[0] in multiset(table) by {
      assert prediction[0] in multiset(prediction);
    }
    var i :| 0 <= i < |table| && table[i] == prediction[0];
    forall j | 0 <= j < |rows|
      ensures ds[i] <= ds[j]
    {
      assert table[j] in multiset(prediction);
      var k :| 0 <= k < |prediction| && prediction[k] == table[j];
      assert prediction[k].winProbability <= prediction[0].winProbability;
      assert table[j].winProbability == probabilities[j];
      CloserMeansMoreLikely(ds, j, i);
    }
    assert prediction[0].team == rows[i].team;
  }

  /** The predicted champion is a latest-season team that no other team is nearer
      to the profile than. */
  lemma WinnerIsNearest(df: seq<SeasonRecord>, sqrt: real -> real, f: Forecast)
    requires SqrtLaw(sqrt) && IsForecast(df, sqrt, f)
    ensures var rows := Candidates(df);
            var ds := Distances(rows, f.profile, sqrt);
            exists i :: 0 <= i < |rows|
              && f.winner.team == rows[i].team
              && forall j :: 0 <= j < |rows| ==> ds[i] <= ds[j]
  {
    assert f.winner == f.prediction[0];
    HeadIsNearest(Candidates(df), Distances(Candidates(df), f.profile, sqrt), f.prediction);
  }

  lemma ExampleSeasonStarts(older: SeasonRecord, newer: SeasonRecord)
    requires older.year == "2020-21" && newer.year == "2023-24"
    ensures SeasonStarts([older, newer]) == Some([2020, 2023])
  {
    SeasonStartRoundTrip(2020, "-21");
    SeasonStartRoundTrip(2023, "-24");
    assert YearText(2020) + "-21" == "2020-21";
    assert YearText(2023) + "-24" == "2023-24";
    assert SeasonStart(older.year) == Some(2020);
    assert SeasonStart(newer.year) == Some(2023);
    var none: seq<SeasonRecord> := [];
    assert SeasonStarts(none) == Some([]);
    assert [newer][1..] == none;
    assert [2023] + [] == [2023];
    assert SeasonStarts([newer]) == Some([2023]);
    assert [older, newer][1..] == [newer];
    assert [2020] + [2023] == [2020, 2023];
  }

  lemma ExampleChampionRows(older: SeasonRecord, newer: SeasonRecord)
    requires older.champion == 1 && newer.champion == 1
    ensures ChampionRows([older, newer]) == [older, newer]
  {
    var df := [older, newer];
    var keep := (row: SeasonRecord) => row.champion == 1;
    var none: seq<SeasonRecord> := [];
    assert Where(none, keep) == [];
    assert df[1..] == [newer] && [newer][1..] == none;
    assert Where([newer], keep) == [newer];
    assert Where(df, keep) == df;
  }

  /** Two titles, won in 2020-21 and 2023-24, weigh 1/4 and 1. */
  lemma ExampleWeights(older: SeasonRecord, newer: SeasonRecord)
    requires older.year == "2020-21" && newer.year == "2023-24"
    requires older.champion == 1 && newer.champion == 1
    ensures ChampionRows([older, newer]) == [older, newer]
    ensures ProfileDefined([older, newer])
    ensures ChampionWeights([older, newer]) == [0.25, 1.0]
  {
    ExampleChampionRows(older, newer);
    ExampleSeasonStarts(older, newer);
    assert CurrentYear([2020, 2023]) == 2023 by {
      assert [2020, 2023][1..] == [2023];
    }
    assert Weight(2023, 2020) == 0.25;
  }

  /** With those weights the profile's WIN% is (70 * 0.25 + 75 * 1.0) / 1.25 = 74. */
  lemma TwoChampionsExample(older: SeasonRecord, newer: SeasonRecord)
    requires older == SeasonRecord("A", "2020-21", 1, 70.0, 2.0, 0.5, 90.0)
    requires newer == SeasonRecord("B", "2023-24", 1, 75.0, 2.2, 0.4, 95.0)
    ensures ProfileDefined([older, newer])
    ensures ProfileOf([older, newer])[WinPct] == 74.0
  {
    var df := [older, newer];
    ExampleWeights(older, newer);
    var values := Column(df, WinPct);
    assert values == [70.0, 75.0];
    ExampleMean();
    assert WinPct in METRICS;
    assert ProfileOf(df)[WinPct] == WeightedMean(values, [0.25, 1.0]);
  }

  /** The arithmetic of that example: (70 * 0.25 + 75 * 1.0) / (0.25 + 1.0) = 74. */
  lemma ExampleMean()
    ensures Sum([0.25, 1.0]) == 1.25
    ensures WeightedMean([70.0, 75.0], [0.25, 1.0]) == 74.0
  {
    SumOfTwo(0.25, 1.0);
    assert Times([70.0, 75.0], [0.25, 1.0]) == [17.5, 75.0];
    SumOfTwo(17.5, 75.0);
  }
}
