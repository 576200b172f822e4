/**
 * The browser client's data mappers: the status-code table, the reshaping of
 * a CDN-shaped game into the app's record, the team totals of a box score,
 * the null handling of the box-score view, and the extraction of the games
 * list from a scoreboard answer. All of them work on the JSON the proxy
 * answers, with JavaScript's `||` and `?.` defaults.
 */
module NbaApi {
  import opened Js
  import opened StatsTransform
  import Proxy
  import TtlCache

  // ---------------------------------------------------------------------
  // getGameStatus

  /** The app's status text for an upstream status code (`switch` uses `===`,
      so only the numbers 1, 2 and 3 are recognised). */
  function GameStatus(statusCode: Value): (status: string)
    ensures status == "scheduled" || status == "live" || status == "final" || status == "unknown"
  {
    if statusCode == Num(1) then "scheduled"
    else if statusCode == Num(2) then "live"
    else if statusCode == Num(3) then "final"
    else "unknown"
  }

  /** The status code a known status text comes from. */
  function StatusCode(status: string): Option<int> {
    if status == "scheduled" then Some(1)
    else if status == "live" then Some(2)
    else if status == "final" then Some(3)
    else None
  }

  /** Each of the codes 1, 2 and 3 has its own text, every other value is
      'unknown', and the text of a known code leads back to that code. */
  lemma GameStatusTable(statusCode: Value)
    ensures GameStatus(statusCode) == "scheduled" <==> statusCode == Num(1)
    ensures GameStatus(statusCode) == "live" <==> statusCode == Num(2)
    ensures GameStatus(statusCode) == "final" <==> statusCode == Num(3)
    ensures GameStatus(statusCode) == "unknown" <==> statusCode !in {Num(1), Num(2), Num(3)}
    ensures StatusCode(GameStatus(statusCode)).Some? ==> statusCode == Num(StatusCode(GameStatus(statusCode)).value)
  {
  }

  // ---------------------------------------------------------------------
  // transformGame

  datatype AppTeam = AppTeam(id: Value, abbreviation: Value, city: Value, fullName: Value, name: Value)

  datatype AppGame = AppGame(
    id: Value, date: Value, status: string, period: Value, time: Value,
    homeTeam: AppTeam, visitorTeam: AppTeam, homeTeamScore: Value, visitorTeamScore: Value)

  /** `city ? `${city} ${name}` : name`: with a city, the text of the city,
      one space and the text of the name, each readable back by position. */
  function FullName(city: Value, name: Value): (full: Value)
    ensures Truthy(city) ==>
      var c := ToJsString(city);
      && full.Str? && |full.s| == |c| + 1 + |ToJsString(name)|
      && full.s[..|c|] == c && full.s[|c|] == ' ' && full.s[|c| + 1..] == ToJsString(name)
    ensures !Truthy(city) ==> full == name
  {
    if Truthy(city) then
      var c := ToJsString(city);
      var whole := c + " " + ToJsString(name);
      assert whole[..|c|] == c && whole[|c| + 1..] == ToJsString(name);
      Str(whole)
    else name
  }

  /** The app's team record for a team object that is not nullish: id,
      tricode and name are copied, and the city is never falsy unless the
      name is, since it falls back to the name. */
  function AppTeamOf(team: Value, teamId: Value): (t: AppTeam)
    ensures t.id == teamId && t.abbreviation == Get(team, "teamTricode") && t.name == Get(team, "teamName")
    ensures Truthy(t.city) || t.city == t.name
  {
    AppTeam(
      teamId,
      Get(team, "teamTricode"),
      Or(Get(team, "teamCity"), Get(team, "teamName")),
      FullName(Get(team, "teamCity"), Get(team, "teamName")),
      Get(team, "teamName"))
  }

  /** `transformGame`: the fields of the object literal in source order, so a
      nullish game throws on `gameId` and a nullish side on `teamId`. */
  function TransformGame(game: Value): (r: Result<AppGame, TypeError>)
    ensures r.Err? <==> Nullish(game) || Nullish(Get(game, "homeTeam")) || Nullish(Get(game, "awayTeam"))
    ensures r.Ok? ==>
      var home := Get(game, "homeTeam");
      var away := Get(game, "awayTeam");
      && r.value.id == Get(game, "gameId")
      && r.value.date == Get(game, "gameTimeUTC")
      && r.value.status == GameStatus(Get(game, "gameStatus"))
      && r.value.period == Get(game, "period")
      && r.value.time == Get(game, "gameClock")
      && r.value.homeTeam == AppTeamOf(home, Get(home, "teamId"))
      && r.value.visitorTeam == AppTeamOf(away, Get(away, "teamId"))
      && r.value.homeTeamScore == Or(Get(home, "score"), Num(0))
      && r.value.visitorTeamScore == Or(Get(away, "score"), Num(0))
  {
    if Nullish(game) then Err(ReadOfNullish(game, "gameId"))
    else
      var home := Get(game, "homeTeam");
      var away := Get(game, "awayTeam");
      if Nullish(home) then Err(ReadOfNullish(home, "teamId"))
      else if Nullish(away) then Err(ReadOfNullish(away, "teamId"))
      else
        Ok(AppGame(
          Get(game, "gameId"),
          Get(game, "gameTimeUTC"),
          GameStatus(Get(game, "gameStatus")),
          Get(game, "period"),
          Get(game, "gameClock"),
          AppTeamOf(home, Get(home, "teamId")),
          AppTeamOf(away, Get(away, "teamId")),
          Or(Get(home, "score"), Num(0)),
          Or(Get(away, "score"), Num(0))))
  }

  /** A side's full name is "city name" when it has a city, and its name
      alone otherwise; its city falls back to its name. A missing, `null` or
      empty `teamCity` counts as no city. For string fields the city can be
      read back off the front of the full name. */
  lemma AppTeamNames(team: Value, teamId: Value)
    ensures var city, name := Get(team, "teamCity"), Get(team, "teamName");
      Truthy(city) ==>
        && AppTeamOf(team, teamId).fullName == Str(ToJsString(city) + " " + ToJsString(name))
        && AppTeamOf(team, teamId).city == city
    ensures var city, name := Get(team, "teamCity"), Get(team, "teamName");
      !Truthy(city) ==> AppTeamOf(team, teamId).fullName == name && AppTeamOf(team, teamId).city == name
    ensures var city, name := Get(team, "teamCity"), Get(team, "teamName");
      city.Str? && name.Str? && city.s != "" ==>
        && AppTeamOf(team, teamId).fullName == Str(city.s + " " + name.s)
        && AppTeamOf(team, teamId).fullName.s[..|city.s|] == city.s
  {
    var city, name := Get(team, "teamCity"), Get(team, "teamName");
    if Truthy(city) {
      var full := ToJsString(city) + " " + ToJsString(name);
      assert AppTeamOf(team, teamId).fullName == Str(full) by {
        assert full[..|ToJsString(city)|] == ToJsString(city);
      }
    }
  }

  /** A CDN-shaped game as the app sees it: the game's id, time, status
      text, period and clock, each side's id, tricode, names, and its score
      or 0. */
  lemma ClientViewOfGame(g: Game)
    ensures var r := TransformGame(GameToValue(g));
      && r.Ok?
      && r.value.id == g.gameId
      && r.value.date == g.gameDate
      && r.value.status == GameStatus(g.gameStatus)
      && r.value.period == Num(g.period)
      && r.value.time == Str("")
      && r.value.homeTeam == AppTeamOf(TeamToValue(g.homeTeam), g.homeTeam.teamId)
      && r.value.visitorTeam == AppTeamOf(TeamToValue(g.awayTeam), g.awayTeam.teamId)
      && r.value.homeTeam.name == g.homeTeam.teamName
      && r.value.homeTeam.abbreviation == g.homeTeam.teamTricode
      && r.value.visitorTeam.name == g.awayTeam.teamName
      && r.value.visitorTeam.abbreviation == g.awayTeam.teamTricode
      && r.value.homeTeamScore == Or(g.homeTeam.score, Num(0))
      && r.value.visitorTeamScore == Or(g.awayTeam.score, Num(0))
  {
    GameValueFields(g);
    TeamValueFields(g.homeTeam);
    TeamValueFields(g.awayTeam);
  }

  /** A game the stats transformer built reaches the app with a score that
      is exactly the points cell of the side's first joining line-score row,
      or 0 when that cell is falsy. */
  lemma TransformedScoreOnClient(header: Row, lines: seq<Row>)
    requires BuildGame(header, lines).Some?
    ensures var g := BuildGame(header, lines).value;
      var r := TransformGame(GameToValue(g));
      && r.Ok?
      && r.value.status == GameStatus(At(header, HeaderGameStatus))
      && (exists i :: 0 <= i < |lines| && Joins(lines[i], g.gameId, g.homeTeam.teamId)
            && (forall j :: 0 <= j < i ==> !Joins(lines[j], g.gameId, g.homeTeam.teamId))
            && r.value.homeTeamScore == Or(At(lines[i], LinePoints), Num(0)))
      && (exists i :: 0 <= i < |lines| && Joins(lines[i], g.gameId, g.awayTeam.teamId)
            && (forall j :: 0 <= j < i ==> !Joins(lines[j], g.gameId, g.awayTeam.teamId))
            && r.value.visitorTeamScore == Or(At(lines[i], LinePoints), Num(0)))
  {
    var g := BuildGame(header, lines).value;
    BuiltGameFields(header, lines);
    ClientViewOfGame(g);
    var h :| 0 <= h < |lines| && Joins(lines[h], g.gameId, g.homeTeam.teamId)
            && (forall j :: 0 <= j < h ==> !Joins(lines[j], g.gameId, g.homeTeam.teamId))
            && g.homeTeam == TeamFrom(g.homeTeam.teamId, lines[h]);
    var a :| 0 <= a < |lines| && Joins(lines[a], g.gameId, g.awayTeam.teamId)
            && (forall j :: 0 <= j < a ==> !Joins(lines[j], g.gameId, g.awayTeam.teamId))
            && g.awayTeam == TeamFrom(g.awayTeam.teamId, lines[a]);
    TeamFieldDefaults(g.homeTeam.teamId, lines[h]);
    TeamFieldDefaults(g.awayTeam.teamId, lines[a]);
  }

  // ---------------------------------------------------------------------
  // calculateTeamTotals

  /** The twelve counting totals of one team, and its three percentages as
      text. */
  datatype TeamTotals = TeamTotals(
    pts: Value, reb: Value, ast: Value, stl: Value, blk: Value, turnover: Value,
    fgm: Value, fga: Value, fg3m: Value, fg3a: Value, ftm: Value, fta: Value,
    fgPct: string, fg3Pct: string, ftPct: string)

  /** The box-score statistics each counting total is read from, in the
      order of `Counts`. */
  const CountingSources: seq<string> := [
    "points", "reboundsTotal", "assists", "steals", "blocks", "turnovers",
    "fieldGoalsMade", "fieldGoalsAttempted", "threePointersMade",
    "threePointersAttempted", "freeThrowsMade", "freeThrowsAttempted"]

  function Counts(t: TeamTotals): (c: seq<Value>)
    ensures |c| == |CountingSources|
  {
    [t.pts, t.reb, t.ast, t.stl, t.blk, t.turnover, t.fgm, t.fga, t.fg3m, t.fg3a, t.ftm, t.fta]
  }

  const ZeroTotals := TeamTotals(
    Num(0), Num(0), Num(0), Num(0), Num(0), Num(0),
    Num(0), Num(0), Num(0), Num(0), Num(0), Num(0),
    "0.0", "0.0", "0.0")

  /** `calculateTeamTotals(teamStats)`. `percent` stands for the floating
      point `(x * 100).toFixed(1)`, applied to the percentage field or 0. */
  function CalculateTeamTotals(teamStats: Value, percent: Value -> string): (t: TeamTotals)
    ensures Truthy(teamStats) && Truthy(Get(teamStats, "statistics")) ==>
      var stats := Get(teamStats, "statistics");
      && t.fgPct == percent(Or(Get(stats, "fieldGoalsPercentage"), Num(0)))
      && t.fg3Pct == percent(Or(Get(stats, "threePointersPercentage"), Num(0)))
      && t.ftPct == percent(Or(Get(stats, "freeThrowsPercentage"), Num(0)))
  {
    if !Truthy(teamStats) || !Truthy(Get(teamStats, "statistics")) then ZeroTotals
    else
      var stats := Get(teamStats, "statistics");
      TeamTotals(
        Or(Get(stats, "points"), Num(0)),
        Or(Get(stats, "reboundsTotal"), Num(0)),
        Or(Get(stats, "assists"), Num(0)),
        Or(Get(stats, "steals"), Num(0)),
        Or(Get(stats, "blocks"), Num(0)),
        Or(Get(stats, "turnovers"), Num(0)),
        Or(Get(stats, "fieldGoalsMade"), Num(0)),
        Or(Get(stats, "fieldGoalsAttempted"), Num(0)),
        Or(Get(stats, "threePointersMade"), Num(0)),
        Or(Get(stats, "threePointersAttempted"), Num(0)),
        Or(Get(stats, "freeThrowsMade"), Num(0)),
        Or(Get(stats, "freeThrowsAttempted"), Num(0)),
        percent(Or(Get(stats, "fieldGoalsPercentage"), Num(0))),
        percent(Or(Get(stats, "threePointersPercentage"), Num(0))),
        percent(Or(Get(stats, "freeThrowsPercentage"), Num(0))))
  }

  /** A missing team, or a team without statistics, totals to all zeros with
      "0.0" percentages. */
  lemma MissingStatisticsAreZero(teamStats: Value, percent: Value -> string)
    requires !Truthy(teamStats) || !Truthy(Get(teamStats, "statistics"))
    ensures forall i :: 0 <= i < |CountingSources| ==> Counts(CalculateTeamTotals(teamStats, percent))[i] == Num(0)
    ensures var t := CalculateTeamTotals(teamStats, percent); t.fgPct == "0.0" && t.fg3Pct == "0.0" && t.ftPct == "0.0"
  {
  }

  /** Every counting total is copied from the statistic of the same position
      in `CountingSources`, with 0 for a falsy one. */
  lemma CountsCopied(teamStats: Value, percent: Value -> string)
    requires Truthy(teamStats) && Truthy(Get(teamStats, "statistics"))
    ensures var stats := Get(teamStats, "statistics");
      forall i :: 0 <= i < |CountingSources| ==>
        Counts(CalculateTeamTotals(teamStats, percent))[i] == Or(Get(stats, CountingSources[i]), Num(0))
  {
    var stats := Get(teamStats, "statistics");
    var t := CalculateTeamTotals(teamStats, percent);
    forall i | 0 <= i < |CountingSources|
      ensures Counts(t)[i] == Or(Get(stats, CountingSources[i]), Num(0))
    {
      if i < 6 {
        ScoringCopied(stats, t);
      } else {
        ShootingCopied(stats, t);
      }
    }
  }

  /** Points, rebounds, assists, steals, blocks and turnovers. */
  lemma ScoringCopied(stats: Value, t: TeamTotals)
    requires t.pts == Or(Get(stats, "points"), Num(0)) && t.reb == Or(Get(stats, "reboundsTotal"), Num(0))
    requires t.ast == Or(Get(stats, "assists"), Num(0)) && t.stl == Or(Get(stats, "steals"), Num(0))
    requires t.blk == Or(Get(stats, "blocks"), Num(0)) && t.turnover == Or(Get(stats, "turnovers"), Num(0))
    ensures forall i :: 0 <= i < 6 ==> Counts(t)[i] == Or(Get(stats, CountingSources[i]), Num(0))
  {
  }

  /** Made and attempted field goals, three-pointers and free throws. */
  lemma ShootingCopied(stats: Value, t: TeamTotals)
    requires t.fgm == Or(Get(stats, "fieldGoalsMade"), Num(0)) && t.fga == Or(Get(stats, "fieldGoalsAttempted"), Num(0))
    requires t.fg3m == Or(Get(stats, "threePointersMade"), Num(0)) && t.fg3a == Or(Get(stats, "threePointersAttempted"), Num(0))
    requires t.ftm == Or(Get(stats, "freeThrowsMade"), Num(0)) && t.fta == Or(Get(stats, "freeThrowsAttempted"), Num(0))
    ensures forall i :: 6 <= i < 12 ==> Counts(t)[i] == Or(Get(stats, CountingSources[i]), Num(0))
  {
  }

  /** A total is never falsy unless it is the default 0. */
  predicate Normalised(t: TeamTotals) {
    forall i :: 0 <= i < |CountingSources| ==> Truthy(Counts(t)[i]) || Counts(t)[i] == Num(0)
  }

  lemma TotalsNormalised(teamStats: Value, percent: Value -> string)
    ensures Normalised(CalculateTeamTotals(teamStats, percent))
  {
    var t := CalculateTeamTotals(teamStats, percent);
    if Truthy(teamStats) && Truthy(Get(teamStats, "statistics")) {
      CountsCopied(teamStats, percent);
    }
  }

  /** The object whose properties are `keys`, each holding the value at the
      same position; a later key overrides an earlier one. */
  function FieldsOf(keys: seq<string>, values: seq<Value>): map<string, Value>
    requires |keys| == |values|
  {
    if keys == [] then map[]
    else
      var n := |keys| - 1;
      FieldsOf(keys[..n], values[..n])[keys[n] := values[n]]
  }

  predicate Distinct(keys: seq<string>) {
    forall i, j :: 0 <= i < j < |keys| ==> keys[i] != keys[j]
  }

  /** With distinct keys, each key reads back the value at its position. */
  lemma {:induction false} FieldsOfAt(keys: seq<string>, values: seq<Value>, i: nat)
    requires |keys| == |values| && Distinct(keys) && i < |keys|
    ensures keys[i] in FieldsOf(keys, values) && FieldsOf(keys, values)[keys[i]] == values[i]
  {
    var n := |keys| - 1;
    if i < n {
      assert Distinct(keys[..n]) by {
        forall p, q | 0 <= p < q < n ensures keys[..n][p] != keys[..n][q] {
          assert keys[..n][p] == keys[p] && keys[..n][q] == keys[q];
        }
      }
      FieldsOfAt(keys[..n], values[..n], i);
      assert keys[..n][i] == keys[i] && values[..n][i] == values[i];
      assert keys[i] != keys[n];
    }
  }

  /** A box-score team whose statistics hold the given totals. */
  function StatisticsOf(t: TeamTotals): Value {
    Obj(map["statistics" := Obj(FieldsOf(CountingSources, Counts(t)))])
  }

  /** Totals survive being written back as statistics and totalled again,
      so totalling is idempotent on its own results. */
  lemma TotalsRoundTrip(t: TeamTotals, percent: Value -> string)
    requires Normalised(t)
    ensures Counts(CalculateTeamTotals(StatisticsOf(t), percent)) == Counts(t)
  {
    var c := Counts(t);
    var stats := Get(StatisticsOf(t), "statistics");
    assert stats == Obj(FieldsOf(CountingSources, c));
    assert Distinct(CountingSources);
    FieldsOfAt(CountingSources, c, 0);
    assert Truthy(stats);
    CountsCopied(StatisticsOf(t), percent);
    forall i | 0 <= i < |CountingSources|
      ensures Counts(CalculateTeamTotals(StatisticsOf(t), percent))[i] == c[i]
    {
      FieldsOfAt(CountingSources, c, i);
      assert Truthy(c[i]) || c[i] == Num(0);
    }
  }

  lemma TotalsIdempotent(teamStats: Value, percent: Value -> string)
    ensures var t := CalculateTeamTotals(teamStats, percent);
      Counts(CalculateTeamTotals(StatisticsOf(t), percent)) == Counts(t)
  {
    TotalsNormalised(teamStats, percent);
    TotalsRoundTrip(CalculateTeamTotals(teamStats, percent), percent);
  }

  // ---------------------------------------------------------------------
  // getBoxScore, getGameStats, and the games of a scoreboard answer

  /** `getBoxScore`: `data.game || null` of the proxy's answer, and `null`
      when the request failed or reading `game` threw. */
  function BoxScoreOf(response: Proxy.Response): (game: Value)
    ensures game.Null? || Truthy(game)
    ensures response.Json? && !Nullish(response.body) && Truthy(Get(response.body, "game"))
            ==> game == Get(response.body, "game")
    ensures response.ServerError? || Nullish(response.body) || !Truthy(Get(response.body, "game"))
            ==> game == Null
  {
    match response
    case ServerError(_) => Null
    case Json(data) => if Nullish(data) then Null else Or(Get(data, "game"), Null)
  }

  datatype GameStats = GameStats(homeTeam: Value, visitorTeam: Value, homeTeamPlayers: Value, visitorTeamPlayers: Value)

  /** `getGameStats` once the box score is known. */
  function GetGameStats(boxScore: Value): (r: GameStats)
    ensures !Truthy(boxScore) ==> r == GameStats(Null, Null, Arr([]), Arr([]))
  {
    if !Truthy(boxScore) then GameStats(Null, Null, Arr([]), Arr([]))
    else
      GameStats(
        Or(Get(boxScore, "homeTeam"), Null),
        Or(Get(boxScore, "awayTeam"), Null),
        Or(OptionalGet(Get(boxScore, "homeTeam"), "players"), Arr([])),
        Or(OptionalGet(Get(boxScore, "awayTeam"), "players"), Arr([])))
  }

  /** The teams are `null` or truthy and the player lists are never falsy.
      Of a present box score, each side is its team when that is truthy and
      `null` otherwise, and its players are the team's own list when the
      team is not nullish and the list is truthy, and `[]` otherwise. */
  lemma GameStatsShape(boxScore: Value)
    ensures var r := GetGameStats(boxScore);
      && (r.homeTeam.Null? || Truthy(r.homeTeam))
      && (r.visitorTeam.Null? || Truthy(r.visitorTeam))
      && Truthy(r.homeTeamPlayers) && Truthy(r.visitorTeamPlayers)
    ensures Truthy(boxScore) ==>
      var home, r := Get(boxScore, "homeTeam"), GetGameStats(boxScore);
      && (Truthy(home) ==> r.homeTeam == home)
      && (!Truthy(home) ==> r.homeTeam == Null)
      && (!Nullish(home) && Truthy(Get(home, "players")) ==> r.homeTeamPlayers == Get(home, "players"))
      && (Nullish(home) || !Truthy(Get(home, "players")) ==> r.homeTeamPlayers == Arr([]))
    ensures Truthy(boxScore) ==>
      var away, r := Get(boxScore, "awayTeam"), GetGameStats(boxScore);
      && (Truthy(away) ==> r.visitorTeam == away)
      && (!Truthy(away) ==> r.visitorTeam == Null)
      && (!Nullish(away) && Truthy(Get(away, "players")) ==> r.visitorTeamPlayers == Get(away, "players"))
      && (Nullish(away) || !Truthy(Get(away, "players")) ==> r.visitorTeamPlayers == Arr([]))
  {
  }

  /** The box score the client shows after the proxy answered: the CDN
      document's `game` on a successful fetch, and on a failed one `null`,
      which `getGameStats` turns into no teams and no players. */
  lemma BoxScoreReachesClient(
    entries: map<string, TtlCache.Entry<Value>>, gameId: string, lookupAt: int, storeAt: int,
    cdn: Proxy.Request -> Result<Value, string>)
    ensures var x := Proxy.ResolveBoxScore(entries, gameId, lookupAt, storeAt, cdn);
      var request := Proxy.CdnGet(Proxy.BoxScorePath(gameId));
      && (x.issued.Some? && cdn(request).Ok? && !Nullish(cdn(request).value)
          && Truthy(Get(cdn(request).value, "game")) ==>
            BoxScoreOf(x.response) == Get(cdn(request).value, "game"))
      && (x.issued.Some? && cdn(request).Err? ==>
            && BoxScoreOf(x.response) == Null
            && GetGameStats(BoxScoreOf(x.response)) == GameStats(Null, Null, Arr([]), Arr([])))
  {
  }

  /** `data.scoreboard?.games || []` inside `getGamesToday`/`getGamesByDate`,
      whose `catch` turns a failed request or a `null` answer into `[]`. */
  function GamesOf(response: Proxy.Response): (games: Value)
    ensures Truthy(games)
  {
    match response
    case ServerError(_) => Arr([])
    case Json(data) => if Nullish(data) then Arr([]) else Or(OptionalGet(Get(data, "scoreboard"), "games"), Arr([]))
  }

  /** The games list is the answer's `scoreboard.games` when that is present
      and truthy, and `[]` otherwise. */
  lemma GamesOfAnswer(response: Proxy.Response)
    ensures response.Json? && !Nullish(response.body) && Get(response.body, "scoreboard").Obj?
            && Truthy(Get(Get(response.body, "scoreboard"), "games"))
            ==> GamesOf(response) == Get(Get(response.body, "scoreboard"), "games")
    ensures response.ServerError? ==> GamesOf(response) == Arr([])
    ensures response.Json? && Nullish(Get(response.body, "scoreboard")) ==> GamesOf(response) == Arr([])
    ensures response.Json? && !Truthy(Get(Get(response.body, "scoreboard"), "games")) ==> GamesOf(response) == Arr([])
  {
  }

  /** A transformed scoreboard reaches the client as exactly its games, in
      order, even when there are none. */
  lemma BoardGamesReachClient(board: Scoreboard)
    ensures GamesOf(Proxy.Json(BoardToValue(board))) == GamesToValue(board.games)
  {
    var body := BoardToValue(board);
    assert Get(body, "scoreboard").Obj?;
    assert Get(Get(body, "scoreboard"), "games") == GamesToValue(board.games);
  }
}
