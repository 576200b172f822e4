/**
 * The schema transformer of the proxy: it turns the historical stats source's
 * positional tables (a game-header table and a line-score table) into the
 * scoreboard shape the CDN source produces natively.
 *
 * A header row yields a game only when both its home team and its visitor
 * team have a line-score row with the same game id and team id; the first
 * such row wins, and a game with a missing side is dropped. Missing cells
 * fall back through JavaScript's `||` defaults.
 */
module StatsTransform {
  import opened Js

  type Row = seq<Value>

  /** One table of the stats payload; `rowSet` may be absent. */
  datatype ResultSet = ResultSet(rowSet: Option<seq<Row>>)

  /** The stats payload; `resultSets` may be absent. */
  datatype StatsData = StatsData(resultSets: Option<seq<ResultSet>>)

  // Column positions in a game-header row.
  const HeaderGameDate: nat := 0
  const HeaderGameId: nat := 2
  const HeaderGameStatus: nat := 3
  const HeaderHomeTeamId: nat := 6
  const HeaderVisitorTeamId: nat := 7
  const HeaderLivePeriod: nat := 9

  // Column positions in a line-score row.
  const LineGameId: nat := 2
  const LineTeamId: nat := 3
  const LineTricode: nat := 4
  const LineCity: nat := 5
  const LineName: nat := 6
  const LinePoints: nat := 22

  /** One side of a game. The CDN shape's placeholder fields (slug, record,
      seed, bonus, timeouts, periods) are constants and appear only in
      `TeamToValue`. */
  datatype TeamSide = TeamSide(teamId: Value, teamName: Value, teamCity: Value, teamTricode: Value, score: Value)

  /** A game in the CDN shape; its `gameTimeUTC` is its `gameDate` and its
      `gameClock` is empty, so neither is stored separately. */
  datatype Game = Game(gameId: Value, gameDate: Value, gameStatus: Value, period: int, homeTeam: TeamSide, awayTeam: TeamSide)

  /** `{scoreboard: {games, gameDate}}`; the early exits carry no `gameDate`. */
  datatype Scoreboard = Scoreboard(games: seq<Game>, gameDate: Option<Value>)

  const EmptyBoard := Scoreboard([], None)

  /** The error the transformer throws when the line-score table has no
      `rowSet`: `lineScore.rowSet.find` reads `find` of `undefined`. */
  const MissingLineScore := ReadOfNullish(Undefined, "find")

  /** The join condition of the two `find` calls. */
  predicate Joins(line: Row, gameId: Value, teamId: Value) {
    StrictEq(At(line, LineGameId), gameId) && StrictEq(At(line, LineTeamId), teamId)
  }

  predicate HasLine(lines: seq<Row>, gameId: Value, teamId: Value) {
    exists i :: 0 <= i < |lines| && Joins(lines[i], gameId, teamId)
  }

  /** `lines.find(...)` from position `from` on, as the index of the first
      joining row. */
  function FindLine(lines: seq<Row>, gameId: Value, teamId: Value, from: nat): (r: Option<nat>)
    requires from <= |lines|
    decreases |lines| - from
    ensures r.Some? ==> from <= r.value < |lines| && Joins(lines[r.value], gameId, teamId)
    ensures r.Some? ==> forall j :: from <= j < r.value ==> !Joins(lines[j], gameId, teamId)
    ensures r.None? ==> forall j :: from <= j < |lines| ==> !Joins(lines[j], gameId, teamId)
  {
    if from == |lines| then None
    else if Joins(lines[from], gameId, teamId) then Some(from)
    else FindLine(lines, gameId, teamId, from + 1)
  }

  /** The team side read from its line-score row, with the `|| ""` and
      `|| 0` defaults. */
  function TeamFrom(teamId: Value, line: Row): (t: TeamSide)
    ensures t.teamId == teamId
    ensures !Nullish(t.teamName) && !Nullish(t.teamCity) && !Nullish(t.teamTricode) && !Nullish(t.score)
  {
    TeamSide(
      teamId,
      Or(At(line, LineName), Str("")),
      Or(At(line, LineCity), Str("")),
      Or(At(line, LineTricode), Str("")),
      Or(At(line, LinePoints), Num(0)))
  }

  /** The game one header row yields, or nothing when a side has no
      line-score row. */
  function BuildGame(header: Row, lines: seq<Row>): (r: Option<Game>)
    ensures r.Some? <==>
      HasLine(lines, At(header, HeaderGameId), At(header, HeaderHomeTeamId))
      && HasLine(lines, At(header, HeaderGameId), At(header, HeaderVisitorTeamId))
  {
    var gameId := At(header, HeaderGameId);
    var homeTeamId := At(header, HeaderHomeTeamId);
    var visitorTeamId := At(header, HeaderVisitorTeamId);
    var home := FindLine(lines, gameId, homeTeamId, 0);
    var visitor := FindLine(lines, gameId, visitorTeamId, 0);
    if home.None? || visitor.None? then None
    else
      Some(Game(
        gameId,
        At(header, HeaderGameDate),
        At(header, HeaderGameStatus),
        ParseIntOrZero(Or(At(header, HeaderLivePeriod), Num(0))),
        TeamFrom(homeTeamId, lines[home.value]),
        TeamFrom(visitorTeamId, lines[visitor.value])))
  }

  function Emit(g: Option<Game>): seq<Game> {
    if g.Some? then [g.value] else []
  }

  /** The present games of a sequence of optional games, in order. */
  function Collect(built: seq<Option<Game>>): (games: seq<Game>)
    ensures |games| <= |built|
  {
    if |built| == 0 then [] else Collect(built[..|built| - 1]) + Emit(built[|built| - 1])
  }

  /** `BuildGame` against one line-score table, as a function of the header. */
  function Builder(lines: seq<Row>): Row -> Option<Game> {
    header => BuildGame(header, lines)
  }

  /** `f` applied to every row, in order. */
  function MapRows(rows: seq<Row>, f: Row -> Option<Game>): (r: seq<Option<Game>>)
    ensures |r| == |rows| && forall i :: 0 <= i < |rows| ==> r[i] == f(rows[i])
  {
    seq(|rows|, i requires 0 <= i < |rows| => f(rows[i]))
  }

  /** The games of the header rows, in header order: what the `forEach` loop
      pushes. */
  function GamesFrom(headers: seq<Row>, lines: seq<Row>): (games: seq<Game>)
    ensures |games| <= |headers|
  {
    Collect(MapRows(headers, Builder(lines)))
  }

  /** `transformStatsAPIResponse`, as a function of the payload. */
  function Transform(data: StatsData): (r: Result<Scoreboard, TypeError>)
    ensures r.Err? <==>
      data.resultSets.Some? && |data.resultSets.value| >= 2
      && data.resultSets.value[0].rowSet.Some? && |data.resultSets.value[0].rowSet.value| > 0
      && data.resultSets.value[1].rowSet.None?
    ensures r.Err? ==> r.error == MissingLineScore
    ensures data.resultSets.None? || |data.resultSets.value| < 2 ==> r == Ok(EmptyBoard)
    ensures data.resultSets.Some? && |data.resultSets.value| >= 2
            && (data.resultSets.value[0].rowSet.None? || data.resultSets.value[0].rowSet.value == [])
            ==> r == Ok(EmptyBoard)
    ensures r.Ok? ==> |r.value.games| <= HeaderCount(data)
    ensures data.resultSets.Some? && |data.resultSets.value| >= 2
            && data.resultSets.value[0].rowSet.Some? && |data.resultSets.value[0].rowSet.value| > 0
            && data.resultSets.value[1].rowSet.Some?
            ==> var headers := data.resultSets.value[0].rowSet.value;
                r == Ok(Scoreboard(GamesFrom(headers, data.resultSets.value[1].rowSet.value),
                                   Some(Or(At(headers[0], HeaderGameDate), Str("")))))
  {
    if data.resultSets.None? || |data.resultSets.value| < 2 then Ok(EmptyBoard)
    else
      var headers := data.resultSets.value[0].rowSet;
      var lines := data.resultSets.value[1].rowSet;
      if headers.None? || |headers.value| == 0 then Ok(EmptyBoard)
      else if lines.None? then Err(MissingLineScore)
      else Ok(Scoreboard(GamesFrom(headers.value, lines.value), Some(Or(At(headers.value[0], HeaderGameDate), Str("")))))
  }

  /** Number of game-header rows in a payload (0 when there is no such table). */
  function HeaderCount(data: StatsData): nat {
    if data.resultSets.None? || |data.resultSets.value| < 1 || data.resultSets.value[0].rowSet.None? then 0
    else |data.resultSets.value[0].rowSet.value|
  }

  /** `transformStatsAPIResponse` as the source writes it: a loop over the
      header rows that pushes one game per fully joined row. */
  method TransformStatsResponse(data: StatsData) returns (r: Result<Scoreboard, TypeError>)
    ensures r == Transform(data)
  {
    if data.resultSets.None? || |data.resultSets.value| < 2 {
      return Ok(EmptyBoard);
    }
    var gameHeader := data.resultSets.value[0];
    var lineScore := data.resultSets.value[1];
    if gameHeader.rowSet.None? || |gameHeader.rowSet.value| == 0 {
      return Ok(EmptyBoard);
    }
    var rows := gameHeader.rowSet.value;
    if lineScore.rowSet.None? {
      return Err(MissingLineScore);
    }
    var lines := lineScore.rowSet.value;
    var games: seq<Game> := [];
    var i := 0;
    while i < |rows|
      invariant 0 <= i <= |rows|
      invariant games == GamesFrom(rows[..i], lines)
    {
      var game := BuildGame(rows[i], lines);
      if game.Some? {
        games := games + [game.value];
      }
      GamesFromStep(rows, i, lines);
      i := i + 1;
    }
    assert rows[..i] == rows;
    r := Ok(Scoreboard(games, Some(Or(At(rows[0], HeaderGameDate), Str("")))));
  }

  // ---------------------------------------------------------------------
  // The payload as JSON

  function TeamToValue(t: TeamSide): Value {
    Obj(map[
      "teamId" := t.teamId, "teamName" := t.teamName, "teamCity" := t.teamCity,
      "teamTricode" := t.teamTricode, "teamSlug" := Str(""), "wins" := Num(0),
      "losses" := Num(0), "score" := t.score, "seed" := Null, "inBonus" := Null,
      "timeoutsRemaining" := Num(0), "periods" := Arr([])])
  }

  function GameToValue(g: Game): Value {
    Obj(map[
      "gameId" := g.gameId, "gameDate" := g.gameDate, "gameStatus" := g.gameStatus,
      "gameTimeUTC" := g.gameDate, "period" := Num(g.period), "gameClock" := Str(""),
      "homeTeam" := TeamToValue(g.homeTeam), "awayTeam" := TeamToValue(g.awayTeam)])
  }

  /** The `games` array: one document per game, in order, each reading back
      the game's id and its two team documents. */
  function GamesToValue(games: seq<Game>): (v: Value)
    ensures v.Arr? && |v.items| == |games|
    ensures forall i :: 0 <= i < |games| ==>
      && Get(v.items[i], "gameId") == games[i].gameId
      && Get(v.items[i], "homeTeam") == TeamToValue(games[i].homeTeam)
      && Get(v.items[i], "awayTeam") == TeamToValue(games[i].awayTeam)
  {
    Arr(seq(|games|, i requires 0 <= i < |games| => GameToValue(games[i])))
  }

  /** The answer document: `scoreboard.games` holds the games, and
      `scoreboard.gameDate` is the board's date, or absent on the early exits. */
  function BoardToValue(sb: Scoreboard): (v: Value)
    ensures Get(Get(v, "scoreboard"), "games") == GamesToValue(sb.games)
    ensures sb.gameDate.Some? ==> Get(Get(v, "scoreboard"), "gameDate") == sb.gameDate.value
    ensures sb.gameDate.None? ==> Get(Get(v, "scoreboard"), "gameDate") == Undefined
  {
    var body := if sb.gameDate.Some?
      then map["games" := GamesToValue(sb.games), "gameDate" := sb.gameDate.value]
      else map["games" := GamesToValue(sb.games)];
    Obj(map["scoreboard" := Obj(body)])
  }

  lemma TeamValueFields(t: TeamSide)
    ensures var v := TeamToValue(t);
      && Get(v, "teamId") == t.teamId && Get(v, "teamName") == t.teamName
      && Get(v, "teamCity") == t.teamCity && Get(v, "teamTricode") == t.teamTricode
      && Get(v, "score") == t.score
  {
  }

  lemma GameValueFields(g: Game)
    ensures var v := GameToValue(g);
      && Get(v, "gameId") == g.gameId && Get(v, "gameTimeUTC") == g.gameDate
      && Get(v, "gameStatus") == g.gameStatus && Get(v, "period") == Num(g.period)
      && Get(v, "gameClock") == Str("") && Get(v, "homeTeam") == TeamToValue(g.homeTeam)
      && Get(v, "awayTeam") == TeamToValue(g.awayTeam)
  {
  }

  // ---------------------------------------------------------------------
  // Properties of the join

  /** Collecting a concatenation collects each part, in order. */
  lemma {:induction false} CollectConcat(x: seq<Option<Game>>, y: seq<Option<Game>>)
    ensures Collect(x + y) == Collect(x) + Collect(y)
  {
    if |y| == 0 {
      assert x + y == x;
    } else {
      var n := |y| - 1;
      assert (x + y)[..|x + y| - 1] == x + y[..n];
      assert (x + y)[|x + y| - 1] == y[n];
      CollectConcat(x, y[..n]);
    }
  }

  lemma MapRowsConcat(a: seq<Row>, b: seq<Row>, f: Row -> Option<Game>)
    ensures MapRows(a + b, f) == MapRows(a, f) + MapRows(b, f)
  {
  }

  /** The games of a concatenation of header tables are the games of the
      first followed by the games of the second: header order is kept. */
  lemma GamesFromConcat(a: seq<Row>, b: seq<Row>, lines: seq<Row>)
    ensures GamesFrom(a + b, lines) == GamesFrom(a, lines) + GamesFrom(b, lines)
  {
    MapRowsConcat(a, b, Builder(lines));
    CollectConcat(MapRows(a, Builder(lines)), MapRows(b, Builder(lines)));
  }

  /** A header row on its own yields its game, or nothing. */
  lemma GamesFromSingle(row: Row, lines: seq<Row>)
    ensures GamesFrom([row], lines) == Emit(BuildGame(row, lines))
  {
    var built := MapRows([row], Builder(lines));
    assert built[..0] == [];
    assert built[0] == BuildGame(row, lines);
  }

  /** One more header row appends its game, if any. */
  lemma GamesFromStep(headers: seq<Row>, i: nat, lines: seq<Row>)
    requires i < |headers|
    ensures GamesFrom(headers[..i + 1], lines) == GamesFrom(headers[..i], lines) + Emit(BuildGame(headers[i], lines))
  {
    assert headers[..i + 1] == headers[..i] + [headers[i]];
    GamesFromConcat(headers[..i], [headers[i]], lines);
    GamesFromSingle(headers[i], lines);
  }

  /** Row `i`'s game, if any, sits between the games of the rows before it
      and those of the rows after it. */
  lemma GamesFromSplit(headers: seq<Row>, i: nat, lines: seq<Row>)
    requires i < |headers|
    ensures GamesFrom(headers, lines)
         == GamesFrom(headers[..i], lines) + Emit(BuildGame(headers[i], lines)) + GamesFrom(headers[i + 1..], lines)
  {
    assert headers == headers[..i] + [headers[i]] + headers[i + 1..];
    GamesFromConcat(headers[..i] + [headers[i]], headers[i + 1..], lines);
    GamesFromConcat(headers[..i], [headers[i]], lines);
    GamesFromSingle(headers[i], lines);
  }

  /** A header row without both line-score rows is dropped, and removing it
      changes nothing else. */
  lemma UnmatchedRowDropped(before: seq<Row>, row: Row, after: seq<Row>, lines: seq<Row>)
    requires BuildGame(row, lines).None?
    ensures GamesFrom(before + [row] + after, lines) == GamesFrom(before + after, lines)
  {
    GamesFromConcat(before + [row], after, lines);
    GamesFromConcat(before, [row], lines);
    GamesFromSingle(row, lines);
    GamesFromConcat(before, after, lines);
  }

  /** Every emitted game comes from some header row. */
  lemma EmittedGameHasRow(headers: seq<Row>, lines: seq<Row>, g: Game)
    requires g in GamesFrom(headers, lines)
    ensures exists i :: 0 <= i < |headers| && BuildGame(headers[i], lines) == Some(g)
  {
    var built := MapRows(headers, Builder(lines));
    CollectedFrom(built, g);
    var i :| 0 <= i < |built| && built[i] == Some(g);
    assert BuildGame(headers[i], lines) == Some(g);
  }

  /** Every fully joined header row has its game in the output. */
  lemma MatchedRowEmitted(headers: seq<Row>, i: nat, lines: seq<Row>)
    requires i < |headers| && BuildGame(headers[i], lines).Some?
    ensures BuildGame(headers[i], lines).value in GamesFrom(headers, lines)
  {
    GamesFromSplit(headers, i, lines);
  }

  lemma {:induction false} CollectAllPresent(built: seq<Option<Game>>)
    requires forall i :: 0 <= i < |built| ==> built[i].Some?
    ensures |Collect(built)| == |built|
    ensures forall i :: 0 <= i < |built| ==> Collect(built)[i] == built[i].value
  {
    if |built| > 0 {
      var n := |built| - 1;
      CollectAllPresent(built[..n]);
    }
  }

  lemma {:induction false} CollectedFrom(built: seq<Option<Game>>, g: Game)
    requires g in Collect(built)
    ensures exists i :: 0 <= i < |built| && built[i] == Some(g)
  {
    var n := |built| - 1;
    if g in Collect(built[..n]) {
      CollectedFrom(built[..n], g);
      var i :| 0 <= i < n && built[..n][i] == Some(g);
      assert built[i] == Some(g);
    } else {
      assert built[n] == Some(g);
    }
  }

  /** When every header row joins, there is exactly one game per row, in row
      order. */
  lemma AllRowsMatched(headers: seq<Row>, lines: seq<Row>)
    requires forall i :: 0 <= i < |headers| ==> BuildGame(headers[i], lines).Some?
    ensures |GamesFrom(headers, lines)| == |headers|
    ensures forall i :: 0 <= i < |headers| ==> GamesFrom(headers, lines)[i] == BuildGame(headers[i], lines).value
  {
    CollectAllPresent(MapRows(headers, Builder(lines)));
  }

  lemma {:induction false} CollectNonePresent(built: seq<Option<Game>>)
    requires forall i :: 0 <= i < |built| ==> built[i].None?
    ensures Collect(built) == []
  {
    if |built| > 0 {
      CollectNonePresent(built[..|built| - 1]);
    }
  }

  /** When no header row joins, there are no games. */
  lemma NoRowMatched(headers: seq<Row>, lines: seq<Row>)
    requires forall i :: 0 <= i < |headers| ==> BuildGame(headers[i], lines).None?
    ensures GamesFrom(headers, lines) == []
  {
    CollectNonePresent(MapRows(headers, Builder(lines)));
  }

  /** What a joined game is made of: the header's ids, date and status, the
      live period parsed as an integer, and each side read from the FIRST
      line-score row with that game id and team id. */
  lemma BuiltGameFields(header: Row, lines: seq<Row>)
    requires BuildGame(header, lines).Some?
    ensures var g := BuildGame(header, lines).value;
      && g.gameId == At(header, HeaderGameId)
      && g.gameDate == At(header, HeaderGameDate)
      && g.gameStatus == At(header, HeaderGameStatus)
      && g.period == ParseIntOrZero(Or(At(header, HeaderLivePeriod), Num(0)))
      && g.homeTeam.teamId == At(header, HeaderHomeTeamId)
      && g.awayTeam.teamId == At(header, HeaderVisitorTeamId)
      && (exists i :: 0 <= i < |lines| && Joins(lines[i], g.gameId, g.homeTeam.teamId)
            && (forall j :: 0 <= j < i ==> !Joins(lines[j], g.gameId, g.homeTeam.teamId))
            && g.homeTeam == TeamFrom(g.homeTeam.teamId, lines[i]))
      && (exists i :: 0 <= i < |lines| && Joins(lines[i], g.gameId, g.awayTeam.teamId)
            && (forall j :: 0 <= j < i ==> !Joins(lines[j], g.gameId, g.awayTeam.teamId))
            && g.awayTeam == TeamFrom(g.awayTeam.teamId, lines[i]))
  {
    var g := BuildGame(header, lines).value;
    var h := FindLine(lines, At(header, HeaderGameId), At(header, HeaderHomeTeamId), 0);
    var v := FindLine(lines, At(header, HeaderGameId), At(header, HeaderVisitorTeamId), 0);
    assert g.homeTeam == TeamFrom(g.homeTeam.teamId, lines[h.value]);
    assert g.awayTeam == TeamFrom(g.awayTeam.teamId, lines[v.value]);
  }

  /** Each text field of a side is its line-score cell when that is truthy
      and "" otherwise; the score is the points cell or 0. So no field is
      ever missing, and a field is falsy only when it is the default. */
  lemma TeamFieldDefaults(teamId: Value, line: Row)
    ensures var t := TeamFrom(teamId, line);
      && (Truthy(At(line, LineName)) ==> t.teamName == At(line, LineName))
      && (!Truthy(At(line, LineName)) ==> t.teamName == Str(""))
      && (Truthy(At(line, LineCity)) ==> t.teamCity == At(line, LineCity))
      && (!Truthy(At(line, LineCity)) ==> t.teamCity == Str(""))
      && (Truthy(At(line, LineTricode)) ==> t.teamTricode == At(line, LineTricode))
      && (!Truthy(At(line, LineTricode)) ==> t.teamTricode == Str(""))
      && (Truthy(At(line, LinePoints)) ==> t.score == At(line, LinePoints))
      && (!Truthy(At(line, LinePoints)) ==> t.score == Num(0))
      && (Truthy(t.teamName) || t.teamName == Str(""))
      && (Truthy(t.score) || t.score == Num(0))
  {
  }

  /** The live period: the number itself when the cell is a number, or a
      string spelling one; 0 when the cell is falsy or past the row's end,
      and 0 when it is truthy but `parseInt` reads no number from it. */
  lemma PeriodOfCell(header: Row, n: int)
    ensures At(header, HeaderLivePeriod) == Num(n) ==> ParseIntOrZero(Or(At(header, HeaderLivePeriod), Num(0))) == n
    ensures At(header, HeaderLivePeriod) == Str(IntToString(n)) ==> ParseIntOrZero(Or(At(header, HeaderLivePeriod), Num(0))) == n
    ensures !Truthy(At(header, HeaderLivePeriod)) ==> ParseIntOrZero(Or(At(header, HeaderLivePeriod), Num(0))) == 0
    ensures Truthy(At(header, HeaderLivePeriod)) && ParseInt(ToJsString(At(header, HeaderLivePeriod))).None?
            ==> ParseIntOrZero(Or(At(header, HeaderLivePeriod), Num(0))) == 0
  {
    ParseIntOfIntToString(n);
  }

  // ---------------------------------------------------------------------
  // The historical scenario: one game "G1", status 3, home 11 (100 points),
  // visitor 22 (95 points), no live period.

  function LineRow(gameId: Value, teamId: Value, points: Value): Row {
    [Str("2023-12-25"), Num(1), gameId, teamId, Str(""), Str(""), Str("")]
      + seq(15, _ => Null) + [points]
  }

  const ScenarioHeader: Row := [Str("2023-12-25"), Num(1), Str("G1"), Num(3), Null, Null, Num(11), Num(22)]

  const ScenarioLines: seq<Row> := [LineRow(Str("G1"), Num(11), Num(100)), LineRow(Str("G1"), Num(22), Num(95))]

  /** Each side of "G1" joins its own line-score row, the first for the home
      team and the second for the visitor. */
  lemma ScenarioJoins()
    ensures FindLine(ScenarioLines, Str("G1"), Num(11), 0) == Some(0)
    ensures FindLine(ScenarioLines, Str("G1"), Num(22), 0) == Some(1)
  {
    var lines := ScenarioLines;
    assert Joins(lines[0], Str("G1"), Num(11));
    assert !Joins(lines[0], Str("G1"), Num(22)) && Joins(lines[1], Str("G1"), Num(22));
  }

  /** The header row yields game "G1" with both scores and period 0. */
  lemma ScenarioGame()
    ensures var g := BuildGame(ScenarioHeader, ScenarioLines);
      && g.Some? && g.value.gameId == Str("G1") && g.value.period == 0
      && g.value.homeTeam.score == Num(100) && g.value.awayTeam.score == Num(95)
  {
    var lines := ScenarioLines;
    ScenarioJoins();
    assert At(lines[0], LinePoints) == Num(100) && At(lines[1], LinePoints) == Num(95);
    assert At(ScenarioHeader, HeaderLivePeriod) == Undefined;
  }

  /** The whole payload becomes a one-game board. */
  lemma HistoricalScenario()
    ensures
      var data := StatsData(Some([ResultSet(Some([ScenarioHeader])), ResultSet(Some(ScenarioLines))]));
      && Transform(data).Ok?
      && |Transform(data).value.games| == 1
      && Transform(data).value.games[0].gameId == Str("G1")
      && Transform(data).value.games[0].homeTeam.score == Num(100)
      && Transform(data).value.games[0].awayTeam.score == Num(95)
      && Transform(data).value.games[0].period == 0
  {
    ScenarioGame();
    GamesFromSingle(ScenarioHeader, ScenarioLines);
    var data := StatsData(Some([ResultSet(Some([ScenarioHeader])), ResultSet(Some(ScenarioLines))]));
    assert Transform(data).Ok? && Transform(data).value.games == GamesFrom([ScenarioHeader], ScenarioLines);
  }

}
