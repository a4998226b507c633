/** The published prediction table: the latest-season teams with their win
    probabilities, ranked from most to least likely champion. */
module Ranking {
  import opened Wrappers
  import opened Dataset

  /** A row of `prediction`: Team, WIN%, GD PER GAME, GA PER GAME, P and Win Probability. */
  datatype PredictionRow = PredictionRow(
    team: string, winPct: real, gdPerGame: real, gaPerGame: real, points: real, winProbability: real)

  /** The column selection `current_teams[[...]]`, pairing every team with its probability. */
  function Project(rows: seq<SeasonRecord>, probabilities: seq<real>): (r: seq<PredictionRow>)
    requires |probabilities| == |rows|
    ensures |r| == |rows|
    ensures forall i :: 0 <= i < |r| ==> r[i].team == rows[i].team && r[i].winProbability == probabilities[i]
    ensures forall i :: 0 <= i < |r| ==>
              r[i].winPct == Value(rows[i], WinPct) && r[i].gdPerGame == Value(rows[i], GdPerGame)
              && r[i].gaPerGame == Value(rows[i], GaPerGame) && r[i].points == Value(rows[i], Points)
  {
    seq(|rows|, i requires 0 <= i < |rows| =>
      PredictionRow(rows[i].team, rows[i].winPct, rows[i].gdPerGame, rows[i].gaPerGame,
                    rows[i].points, probabilities[i]))
  }

  /** Win Probability never increases down the table. */
  predicate SortedByProbability(s: seq<PredictionRow>) {
    forall i, j :: 0 <= i < j < |s| ==> s[i].winProbability >= s[j].winProbability
  }

  /** Places `x` in a ranked table ahead of the first row it is at least as likely as. */
  function Insert(x: PredictionRow, s: seq<PredictionRow>): (r: seq<PredictionRow>)
    requires SortedByProbability(s)
    ensures SortedByProbability(r)
    ensures multiset(r) == multiset(s) + multiset{x}
    ensures forall y :: y in r ==> y == x || y in s
  {
    if |s| == 0 then [x]
    else if x.winProbability >= s[0].winProbability then [x] + s
    else
      var rest := Insert(x, s[1..]);
      assert s == [s[0]] + s[1..];
      assert forall y :: y in rest ==> s[0].winProbability >= y.winProbability;
      [s[0]] + rest
  }

  /** `sort_values("Win Probability", ascending=False)`: the same rows, ranked. */
  function SortDescending(s: seq<PredictionRow>): (r: seq<PredictionRow>)
    ensures SortedByProbability(r)
    ensures multiset(r) == multiset(s)
  {
    if |s| == 0 then []
    else
      assert s == [s[0]] + s[1..];
      Insert(s[0], SortDescending(s[1..]))
  }

  /** `prediction.iloc[0]`: the head of the ranked table, which no row outranks. */
  function Winner(prediction: seq<PredictionRow>): (w: Option<PredictionRow>)
    ensures w.Some? <==> |prediction| > 0
    ensures w.Some? ==> w.value in prediction
    ensures w.Some? && SortedByProbability(prediction) ==>
              forall i :: 0 <= i < |prediction| ==> prediction[i].winProbability <= w.value.winProbability
  {
    if |prediction| == 0 then None else Some(prediction[0])
  }
}
