# Serie A champion predictor — verified model

This project models the scoring pipeline of the Serie A 2025–26 predictor page
(`app.py`), over Dafny `real` numbers.

- **Champion profile.** Every past title winner (a row with `CHAMPION == 1`) gets a
  recency weight `1 / (current_year - start + 1)`. Here `start` is the integer value
  of the first four characters of its `YEAR` label, and `current_year` is the latest
  such start among the champions. The profile holds the weighted mean of WIN%,
  GD PER GAME, GA PER GAME and P.
- **Candidates.** The candidates are the rows whose `YEAR` is the greatest label
  under Python's string order.
- **Distance.** Each candidate's distance to the profile is the square root of the
  squared differences on the first three metrics plus the square of the points
  difference divided by 100.
- **Score and probability.** The score is the reciprocal of the distance. The win
  probability is the score as a percentage of the score total.
- **Ranking and winner.** The table is ranked by win probability, descending. Its
  first row is the predicted champion.

Modules follow the steps of the page:

- `Dataset`: the loaded table and its row filters.
- `SeasonLabels`: the YEAR parse and the string order.
- `RealSeq`: column sums and weighted-sum facts.
- `ChampionProfile`: lines 27–40.
- `Scoring`: lines 52–69.
- `Ranking`: lines 72–85.
- `Predictor`: the whole run.
- `IeeeScores`: lines 66–74 in a float model with infinity and NaN but no rounding, for the input on which the
  exact model reports `ZeroDistance` (see Findings).

Where the script changes things in place, the model does too:

- The `weighted_profile` dict is filled by a method with a `for` loop over the metric list.
- The `champions` and `current_teams` copies are classes (`ChampionFrame`,
  `CandidateFrame`). Their methods add the Season_Start and Weight columns, and the
  Distance, Score and Win Probability columns.

`np.sqrt` is the parameter `sqrt`, constrained by `SqrtLaw`: on a non-negative
argument it returns the non-negative number whose square is that argument.

The three inputs on which the script divides by zero or raises become explicit
errors of `Predictor.Predict`:

- `BadSeasonLabel`: a champion's YEAR is empty or one of its first four characters is not a digit, so `astype(int)` raises a ValueError.
- `NoChampions`: no champion rows, so the weight total at line 40 is zero.
- `ZeroDistance`: a candidate equals the profile on all four metrics, so line 66 computes `1 / 0`.

## Model

| member | source | states |
|---|---|---|
| `Dataset.Where` | app.py:27 | a boolean mask keeps each matching row exactly as often as the table holds it, and no other row |
| `Dataset.ChampionRows` | app.py:27 | the champion rows are exactly the rows with CHAMPION == 1, with their multiplicities |
| `Dataset.SeasonRows` | app.py:53 | the rows of a season are exactly the rows whose YEAR equals that label, with their multiplicities |
| `Dataset.MetricsListsAll` | app.py:33 | the metric list names every one of the four metrics |
| `SeasonLabels.SeasonStartOfDigits` | app.py:28 | a label starting with four digits has season start equal to their decimal value |
| `SeasonLabels.SeasonStartFails` | app.py:28 | the int cast fails exactly when the label is empty or one of its first four characters is not a digit |
| `SeasonLabels.SeasonStartRoundTrip` | app.py:28 | writing a year as four digits and parsing the label back gives the year, whatever follows |
| `SeasonLabels.SeasonStart` | app.py:28 | a parsed season start lies in 0..9999 |
| `SeasonLabels.LexLeReflexive` | app.py:52 | string order is reflexive |
| `SeasonLabels.LexLeAntisymmetric` | app.py:52 | string order is antisymmetric |
| `SeasonLabels.LexLeTransitive` | app.py:52 | string order is transitive |
| `SeasonLabels.LexLeTotal` | app.py:52 | any two labels are comparable |
| `SeasonLabels.MaxLabel` | app.py:52 | the latest label is one of the labels and no label is greater in string order |
| `ChampionProfile.SeasonStarts` | app.py:28 | the cast of the whole column succeeds exactly when every label parses, and then holds each row's start |
| `ChampionProfile.CurrentYear` | app.py:29 | current_year is one of the starts and no start exceeds it |
| `ChampionProfile.Weight` | app.py:31 | every weight lies in (0, 1] and is 1 exactly when the title is from current_year |
| `ChampionProfile.WeightFallsWithAge` | app.py:31 | an older title weighs strictly less than a more recent one |
| `ChampionProfile.Weights` | app.py:31 | the Weight column has one weight in (0, 1] per champion, 1 exactly for the current_year titles |
| `ChampionProfile.WeightedMeanWithin` | app.py:38-40 | with positive weights the weight total is positive and the weighted mean stays within any bounds the values respect |
| `ChampionProfile.WeightedMeanOfConstant` | app.py:38-40 | the weighted mean of equal values is that value |
| `ChampionProfile.ColumnMeansWithin` | app.py:35-40 | with positive weights every metric's weighted mean lies between the column's minimum and maximum |
| `ChampionProfile.WeightedProfile` | app.py:35-40 | the profile has every metric, each between the champions' minimum and maximum of that metric |
| `ChampionProfile.SharedValueIsProfile` | app.py:37-40 | a metric on which all champions agree has that value in the profile |
| `ChampionProfile.SingleChampionProfile` | app.py:37-40 | with a single champion the profile equals that champion's values |
| `ChampionProfile.BuildProfile` | app.py:35-40 | the loop fills every metric with the weighted mean of its column; with positive weights each lies between the column's minimum and maximum |
| `ChampionProfile.ChampionFrame.constructor` | app.py:27 | the champions copy holds the champion rows and no added columns |
| `ChampionProfile.ChampionFrame.AddSeasonStart` | app.py:28 | Season_Start is added exactly when every label parses; otherwise the frame is unchanged |
| `ChampionProfile.ChampionFrame.AddWeight` | app.py:31 | Weight becomes the recency weights of Season_Start; Season_Start is unchanged |
| `Scoring.SqrtStrictlyMonotone` | app.py:57 | the square root is strictly increasing on non-negative arguments |
| `Scoring.SquaredDistance` | app.py:57-62 | the radicand is non-negative and is zero exactly when the team equals the profile on all four metrics |
| `Scoring.OneMetricApart` | app.py:58-61 | a team off the profile on one metric only is that difference away; unscaled, except points, which is divided by 100 |
| `Scoring.Distance` | app.py:56-62 | the distance is non-negative, its square is the radicand, and it is zero exactly when the team equals the profile |
| `Scoring.DistanceOrder` | app.py:56-62 | distances compare exactly as squared distances do |
| `Scoring.Distances` | app.py:65 | every distance is non-negative and is zero exactly when that team equals the profile; distances compare as the squared distances do |
| `Scoring.Score` | app.py:66 | the score times the distance is 1, and a positive distance gives a positive score |
| `Scoring.NearerScoresHigher` | app.py:66 | of two positive distances, the smaller gets the strictly larger score, and conversely |
| `Scoring.Scores` | app.py:66 | with positive distances every score is positive and a strictly smaller distance gives a strictly larger score, and conversely |
| `Scoring.WinProbabilities` | app.py:67-69 | positive scores give one positive win probability per team |
| `Scoring.WinProbabilitiesSumTo100` | app.py:67-69 | the win probabilities add up to 100 |
| `Scoring.ProbabilityFollowsScore` | app.py:67-69 | a strictly larger score gives a strictly larger win probability, and conversely |
| `Scoring.CloserMeansMoreLikely` | app.py:65-69 | a strictly smaller distance gives a strictly larger score and win probability, and conversely |
| `Scoring.CandidateFrame.constructor` | app.py:53 | the current_teams copy holds the latest-season rows and no added columns |
| `Scoring.CandidateFrame.AddDistance` | app.py:65 | Distance becomes every row's distance to the profile; other columns are unchanged |
| `Scoring.CandidateFrame.AddScore` | app.py:66 | Score is added exactly when no distance is zero; otherwise the frame is unchanged |
| `Scoring.CandidateFrame.AddWinProbability` | app.py:67-69 | Win Probability becomes the normalised scores; other columns are unchanged |
| `Ranking.Project` | app.py:72-73 | the selection keeps one row per team, in order, with its four metrics and its win probability |
| `Ranking.Insert` | app.py:74 | inserting into a ranked table keeps it ranked and adds exactly that row |
| `Ranking.SortDescending` | app.py:72-74 | the prediction holds the same rows, with win probability non-increasing |
| `Ranking.Winner` | app.py:85 | a non-empty table has a first row, which is in the table and has the largest win probability of a ranked table |
| `Predictor.ChampionWeights` | app.py:28-31 | the Weight column has one weight in (0, 1] per champion |
| `Predictor.ProfileOf` | app.py:35-40 | the profile has every metric, each between the champions' minimum and maximum of that metric |
| `Predictor.Candidates` | app.py:52-53 | the candidates are the rows whose YEAR is the greatest label, and there is at least one |
| `Predictor.BuiltProfileIsProfileOf` | app.py:35-40 | a complete map of the metric weighted means is the profile |
| `Predictor.ChampionStage` | app.py:27-40 | the profile is computed unless a champion label does not parse or there are no champions, each reported exactly in its case |
| `Predictor.CandidateStage` | app.py:52-74 | the ranking fails exactly when a candidate equals the profile; otherwise every distance is positive, the probabilities add up to 100 and the prediction is a ranked permutation of the candidates |
| `Predictor.Predict` | app.py:27-85 | each error is reported exactly on its inputs; on success the profile, latest label, ranked prediction and winner are those of the table |
| `Predictor.HeadIsNearest` | app.py:72-85 | the first row of a ranking is a team that no candidate is nearer to the profile than |
| `Predictor.WinnerIsNearest` | app.py:56-85 | the predicted champion is a latest-season team at the smallest distance from the profile |
| `Predictor.ExampleSeasonStarts` | app.py:28 | the labels 2020-21 and 2023-24 have season starts 2020 and 2023 |
| `Predictor.ExampleChampionRows` | app.py:27 | a table of two champions is its own champion set |
| `Predictor.ExampleWeights` | app.py:28-31 | titles of 2020-21 and 2023-24 weigh 0.25 and 1 |
| `Predictor.TwoChampionsExample` | app.py:35-40 | with WIN% 70 and 75 for those titles, the profile's WIN% is 74 |
| `Predictor.ExampleMean` | app.py:38-40 | values 70 and 75 weighted 1/4 and 1 have weight total 1.25 and weighted mean 74 |
| `RealSeq.Times` | app.py:38-39 | the element-wise product has one entry per pair, each the product of the pair |
| `RealSeq.SumPositive` | app.py:40 | a non-empty column of positive weights has a positive total |
| `RealSeq.SumScaled` | app.py:67-69 | scaling every score by a constant scales their total by it |
| `IeeeScores.FloatSumOfFinite` | app.py:67 | in the float model without rounding, a column of finite values sums to its real sum |
| `IeeeScores.FloatSumWithInfinity` | app.py:66-67 | a score column with no NaN and an infinite score sums to infinity |
| `IeeeScores.FloatSumNotNaN` | app.py:67 | a score column with no NaN does not sum to NaN |
| `IeeeScores.FloatProbabilitiesAgree` | app.py:65-69 | in the float model without rounding, positive distances give the real win probabilities |
| `IeeeScores.ZeroDistanceProbabilities` | app.py:65-69 | as written, once a distance is zero each zero-distance team gets NaN and every other team 0 |
| `IeeeScores.ZeroDistanceRanksMatchLast` | app.py:66-85 | with distances 0 and 2 the probabilities are NaN and 0, and the descending sort puts the 0 row first |

## Left out

- Data loading (app.py:14-21): reading the Excel file, the `pd.to_numeric` coercion and `@st.cache_data` are I/O. The table is an input sequence of `SeasonRecord` values.
- Page display and formatting (`st.set_page_config`, `st.title`, `st.markdown`, `st.subheader`, `st.dataframe`, `st.success`, `st.info`, `profile_df`, the `{:.2f}%` styles) are presentation only.
- Floating point: all arithmetic is over exact reals and IEEE rounding is not modelled. The NaN `0/0` gives when there are no champions is the error `NoChampions`. The infinity and NaN of a zero distance are the error `ZeroDistance`; `IeeeScores` shows what the script computes there instead.
- `np.sqrt` is a foreign numeric call. It is the parameter `sqrt`, and the model relies only on `SqrtLaw`.
- `SeasonLabels.SeasonStart` accepts only ASCII decimal digits. Python's `int` also accepts surrounding whitespace, a sign, underscores between digits and non-ASCII digits. Labels using those are reported as not parsing.
- `Ranking.SortDescending` fixes one order among tied probabilities. The page's `sort_values` does not specify one, so only sortedness and permutation are promised.
- The frame classes hold their columns as sequences and their rows as copies. Aliasing between a DataFrame and its `.copy()` is not modelled.
- Missing values in the table (NaN in a metric, CHAMPION or YEAR) are not modelled. Every record has all its fields.

## Findings

| source | as written | input that shows it | evidently intended | confidence | as-written member | corrected member |
|---|---|---|---|---|---|---|
| app.py:66-85 | `1 / Distance` on a zero distance gives infinity; the score sum is then infinite, so that team's win probability is `inf / inf` = NaN and every other team's is 0; `sort_values(ascending=False)` puts NaN last, so `prediction.iloc[0]` announces a team with 0.00% | two latest-season teams, one equal to the profile on all four metrics (distance 0), the other at distance 2 | the team that equals the champion profile is not ranked below teams farther from it; the model reports this input as the error `ZeroDistance`, and otherwise proves the predicted champion is a team nearest the profile | not executed; follows IEEE 754 division and pandas' default `na_position="last"` | `IeeeScores.ZeroDistanceRanksMatchLast` | `Predictor.CandidateStage` |
