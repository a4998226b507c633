/** The loaded league table: one record per team and season, and the row
    selections the pipeline makes on it. */
module Dataset {

  /** The four tracked columns: "WIN%", "GD PER GAME", "GA PER GAME", "P". */
  datatype Metric = WinPct | GdPerGame | GaPerGame | Points

  /** The metric list, in the order the profile is built. */
  const METRICS: seq<Metric> := [WinPct, GdPerGame, GaPerGame, Points]

  lemma MetricsListsAll(m: Metric)
    ensures m in METRICS
  {
    match m
    case WinPct => assert METRICS[0] == m;
    case GdPerGame => assert METRICS[1] == m;
    case GaPerGame => assert METRICS[2] == m;
    case Points => assert METRICS[3] == m;
  }

  /** One row of the table; `champion` is the CHAMPION column (1 for the title winner). */
  datatype SeasonRecord = SeasonRecord(
    team: string,
    year: string,
    champion: int,
    winPct: real,
    gdPerGame: real,
    gaPerGame: real,
    points: real)

  function Value(row: SeasonRecord, m: Metric): real {
    match m
    case WinPct => row.winPct
    case GdPerGame => row.gdPerGame
    case GaPerGame => row.gaPerGame
    case Points => row.points
  }

  /** The column of metric `m`, row by row. */
  function Column(rows: seq<SeasonRecord>, m: Metric): seq<real> {
    seq(|rows|, i requires 0 <= i < |rows| => Value(rows[i], m))
  }

  /** The rows that satisfy `keep`, as a boolean mask selects them: each kept row
      appears exactly as often as in `rows`, every other row not at all. */
  function Where(rows: seq<SeasonRecord>, keep: SeasonRecord -> bool): (r: seq<SeasonRecord>)
    ensures |r| <= |rows|
    ensures forall x :: multiset(r)[x] == if keep(x) then multiset(rows)[x] else 0
  {
    if |rows| == 0 then []
    else
      var rest := Where(rows[1..], keep);
      assert rows == [rows[0]] + rows[1..];
      if keep(rows[0]) then [rows[0]] + rest else rest
  }

  /** `df[df["CHAMPION"] == 1]`. */
  function ChampionRows(df: seq<SeasonRecord>): (r: seq<SeasonRecord>)
    ensures |r| <= |df|
    ensures forall x :: x in r <==> x in df && x.champion == 1
    ensures forall x :: multiset(r)[x] == if x.champion == 1 then multiset(df)[x] else 0
  {
    var r := Where(df, (row: SeasonRecord) => row.champion == 1);
    assert forall x :: x in r <==> multiset(r)[x] > 0;
    r
  }

  /** `df[df["YEAR"] == season]`. */
  function SeasonRows(df: seq<SeasonRecord>, season: string): (r: seq<SeasonRecord>)
    ensures forall x :: x in r <==> x in df && x.year == season
    ensures forall x :: multiset(r)[x] == if x.year == season then multiset(df)[x] else 0
  {
    var r := Where(df, (row: SeasonRecord) => row.year == season);
    assert forall x :: x in r <==> multiset(r)[x] > 0;
    r
  }

  /** The YEAR column. */
  function Labels(df: seq<SeasonRecord>): seq<string> {
    seq(|df|, i requires 0 <= i < |df| => df[i].year)
  }
}
