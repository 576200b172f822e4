/**
 * The two proxy endpoints, `GET /api/scoreboard[?date=YYYY-MM-DD]` and
 * `GET /api/boxscore/:gameId`, as the same state machine: build the cache
 * key, read the cache, answer a hit from the cache, and on a miss fetch from
 * the source the request calls for, cache the result only if everything
 * succeeded, and answer it (or answer a 500 with the error's message).
 *
 * The upstream services are parameters: `cdn` answers a request to the live
 * CDN feed and `stats` a request to the historical stats API, each with the
 * parsed JSON or the message of the error the fetch helper throws. The clock
 * is read twice, as `Date.now()` is: once by the cache read, and once by the
 * cache write after the upstream call has completed.
 */
module Proxy {
  import opened Js
  import opened TtlCache
  import opened StatsTransform

  const TodayTtl := 10000
  const HistoricalTtl := 300000
  const BoxScoreTtl := 15000

  const TodayPath := "/scoreboard/todaysScoreboard_00.json"

  function BoxScorePath(gameId: string): string {
    "/boxscore/boxscore_" + gameId + ".json"
  }

  /** A request the proxy sends upstream. */
  datatype Request =
    | CdnGet(path: string)
    | StatsGet(path: string, query: seq<(string, string)>)

  /** The stats API query for one game date, already in `MM/DD/YYYY` form. */
  function ScoreboardQuery(gameDate: string): Request {
    StatsGet("/scoreboardv2", [("GameDate", gameDate), ("LeagueID", "00"), ("DayOffset", "0")])
  }

  /** What the proxy answers: the JSON body with status 200, or status 500
      with `{error: message}`. */
  datatype Response = Json(body: Value) | ServerError(message: string)

  /** One request's effect: the cache afterwards, the answer, and the
      upstream request issued, if any. */
  datatype Exchange = Exchange(entries: map<string, Entry<Value>>, response: Response, issued: Option<Request>)

  /** The `message` of a TypeError thrown by reading a property of a nullish value. */
  function TypeErrorMessage(e: TypeError): string {
    "Cannot read properties of " + ToJsString(e.target) + " (reading '" + e.property + "')"
  }

  // ---------------------------------------------------------------------
  // `date.split('-')` and the `MM/DD/YYYY` reshuffle

  /** `s.split(sep)` for a one-character separator. */
  function Split(s: string, sep: char): (parts: seq<string>)
    ensures |parts| >= 1
    ensures forall i :: 0 <= i < |parts| ==> sep !in parts[i]
  {
    if |s| == 0 then [""]
    else
      var rest := Split(s[1..], sep);
      if s[0] == sep then [""] + rest
      else [[s[0]] + rest[0]] + rest[1..]
  }

  /** `parts.join(sep)`. */
  function Join(parts: seq<string>, sep: char): string
    requires |parts| >= 1
  {
    if |parts| == 1 then parts[0] else parts[0] + [sep] + Join(parts[1..], sep)
  }

  /** The element a destructuring `const [a, b, c] = parts` binds, printed
      by a template literal: "undefined" past the end. */
  function Part(parts: seq<string>, i: nat): string {
    if i < |parts| then parts[i] else "undefined"
  }

  /** `const [year, month, day] = date.split('-'); `${month}/${day}/${year}``. */
  /** A date without a dash, such as `today`, is one piece, so the month and
      the day print as "undefined". */
  function ReformatDate(date: string): (formatted: string)
    ensures '-' !in date ==> formatted == "undefined/undefined/" + date
  {
    var parts := Split(date, '-');
    assert '-' !in date ==> parts == [date] by {
      if '-' !in date {
        SplitWithoutSeparator(date, '-');
      }
    }
    Part(parts, 1) + "/" + Part(parts, 2) + "/" + Part(parts, 0)
  }

  /** Joining what a split produced gives back the string. */
  lemma {:induction false} JoinSplit(s: string, sep: char)
    ensures Join(Split(s, sep), sep) == s
  {
    if |s| > 0 {
      JoinSplit(s[1..], sep);
      var rest := Split(s[1..], sep);
      if s[0] == sep {
        assert s == [sep] + s[1..];
      } else if |rest| == 1 {
        assert s == [s[0]] + s[1..];
      } else {
        var parts := Split(s, sep);
        assert parts == [[s[0]] + rest[0]] + rest[1..];
        assert parts[1..] == rest[1..];
        var tail := Join(rest[1..], sep);
        assert Join(parts, sep) == ([s[0]] + rest[0]) + [sep] + tail;
        assert Join(rest, sep) == rest[0] + [sep] + tail;
        assert ([s[0]] + rest[0]) + [sep] + tail == [s[0]] + (rest[0] + [sep] + tail);
        assert s == [s[0]] + s[1..];
      }
    }
  }

  /** A string free of the separator splits into itself alone. */
  lemma {:induction false} SplitWithoutSeparator(p: string, sep: char)
    requires sep !in p
    ensures Split(p, sep) == [p]
  {
    if |p| > 0 {
      SplitWithoutSeparator(p[1..], sep);
      assert [p[0]] + p[1..] == p;
    }
  }

  /** A separator-free piece followed by the separator splits off as the
      first part. */
  lemma {:induction false} SplitAfterPiece(p: string, sep: char, rest: string)
    requires sep !in p
    ensures Split(p + [sep] + rest, sep) == [p] + Split(rest, sep)
  {
    if |p| == 0 {
      assert p + [sep] + rest == [sep] + rest;
      assert ([sep] + rest)[1..] == rest;
    } else {
      var s := p + [sep] + rest;
      assert s[1..] == p[1..] + [sep] + rest;
      SplitAfterPiece(p[1..], sep, rest);
      assert [p[0]] + p[1..] == p;
    }
  }

  /** Splitting a join of separator-free parts gives the parts back. */
  lemma {:induction false} SplitJoin(parts: seq<string>, sep: char)
    requires |parts| >= 1
    requires forall i :: 0 <= i < |parts| ==> sep !in parts[i]
    ensures Split(Join(parts, sep), sep) == parts
  {
    if |parts| == 1 {
      SplitWithoutSeparator(parts[0], sep);
    } else {
      SplitJoin(parts[1..], sep);
      SplitAfterPiece(parts[0], sep, Join(parts[1..], sep));
    }
  }

  /** `"Y-M-D"` becomes `"M/D/Y"` when none of the three pieces holds a dash. */
  lemma ReformatDateOfParts(year: string, month: string, day: string)
    requires '-' !in year && '-' !in month && '-' !in day
    ensures ReformatDate(year + "-" + month + "-" + day) == month + "/" + day + "/" + year
  {
    var parts := [year, month, day];
    assert Join(parts, '-') == year + "-" + month + "-" + day by {
      assert Join(parts[1..], '-') == month + "-" + day by {
        assert parts[1..][1..] == [day];
      }
    }
    SplitJoin(parts, '-');
  }

  lemma ReformatDateExample()
    ensures ReformatDate("2024-01-15") == "01/15/2024"
  {
    var year, month, day := "2024", "01", "15";
    assert '-' !in year && '-' !in month && '-' !in day;
    ReformatDateOfParts(year, month, day);
    assert year + "-" + month + "-" + day == "2024-01-15";
    assert month + "/" + day + "/" + year == "01/15/2024";
  }

  // ---------------------------------------------------------------------
  // GET /api/scoreboard

  /** `if (date)`: an absent or empty `date` query parameter means today. */
  predicate DateGiven(date: Option<string>) {
    date.Some? && date.value != ""
  }

  /** `getCacheKey('scoreboard', date || 'today')`. */
  function ScoreboardKey(date: Option<string>): string {
    CacheKey("scoreboard", if DateGiven(date) then date.value else "today")
  }

  /** How long a scoreboard fetched for this request stays cached. */
  function ScoreboardTtl(date: Option<string>): int {
    if DateGiven(date) then HistoricalTtl else TodayTtl
  }

  /** What one `GET /api/scoreboard` does to the cache and answers. */
  function ResolveScoreboard(
    entries: map<string, Entry<Value>>, date: Option<string>, lookupAt: int, storeAt: int,
    cdn: Request -> Result<Value, string>, stats: Request -> Result<StatsData, string>): (x: Exchange)
    ensures x.issued.None? <==>
      Lookup(entries, ScoreboardKey(date), lookupAt).Some? && Truthy(Lookup(entries, ScoreboardKey(date), lookupAt).value)
    ensures x.entries.Keys <= entries.Keys + {ScoreboardKey(date)}
    ensures x.response.Json? && x.issued.Some? ==> ScoreboardKey(date) in x.entries
  {
    var key := ScoreboardKey(date);
    var cached := Lookup(entries, key, lookupAt);
    var purged := AfterLookup(entries, key, lookupAt);
    if cached.Some? && Truthy(cached.value) then Exchange(purged, Json(cached.value), None)
    else if DateGiven(date) then
      var request := ScoreboardQuery(ReformatDate(date.value));
      match stats(request)
      case Err(message) => Exchange(purged, ServerError(message), Some(request))
      case Ok(data) =>
        match Transform(data)
        case Err(e) => Exchange(purged, ServerError(TypeErrorMessage(e)), Some(request))
        case Ok(board) =>
          var body := BoardToValue(board);
          Exchange(Store(purged, key, body, HistoricalTtl, storeAt), Json(body), Some(request))
    else
      var request := CdnGet(TodayPath);
      match cdn(request)
      case Err(message) => Exchange(purged, ServerError(message), Some(request))
      case Ok(doc) => Exchange(Store(purged, key, doc, TodayTtl, storeAt), Json(doc), Some(request))
  }

  /** The `/api/scoreboard` handler, acting on the cache object. */
  method HandleScoreboard(
    cache: Cache<Value>, date: Option<string>, lookupAt: int, storeAt: int,
    cdn: Request -> Result<Value, string>, stats: Request -> Result<StatsData, string>)
    returns (response: Response, issued: Option<Request>)
    modifies cache
    ensures Exchange(cache.entries, response, issued)
         == ResolveScoreboard(old(cache.entries), date, lookupAt, storeAt, cdn, stats)
  {
    var key := CacheKey("scoreboard", if DateGiven(date) then date.value else "today");
    var cachedData := cache.Get(key, lookupAt);
    if cachedData.Some? && Truthy(cachedData.value) {
      return Json(cachedData.value), None;
    }
    if DateGiven(date) {
      var formattedDate := ReformatDate(date.value);
      var request := ScoreboardQuery(formattedDate);
      issued := Some(request);
      var reply := stats(request);
      if reply.Err? {
        response := ServerError(reply.error);
        return;
      }
      var transformed := TransformStatsResponse(reply.value);
      if transformed.Err? {
        response := ServerError(TypeErrorMessage(transformed.error));
        return;
      }
      var body := BoardToValue(transformed.value);
      cache.Set(key, body, HistoricalTtl, storeAt);
      response := Json(body);
    } else {
      var request := CdnGet(TodayPath);
      issued := Some(request);
      var reply := cdn(request);
      if reply.Err? {
        response := ServerError(reply.error);
        return;
      }
      cache.Set(key, reply.value, TodayTtl, storeAt);
      response := Json(reply.value);
    }
  }

  /** A valid, truthy cache entry answers the request with no upstream call
      and leaves the cache as it was. */
  lemma ScoreboardHit(
    entries: map<string, Entry<Value>>, date: Option<string>, lookupAt: int, storeAt: int,
    cdn: Request -> Result<Value, string>, stats: Request -> Result<StatsData, string>)
    requires Lookup(entries, ScoreboardKey(date), lookupAt).Some?
    requires Truthy(Lookup(entries, ScoreboardKey(date), lookupAt).value)
    ensures var x := ResolveScoreboard(entries, date, lookupAt, storeAt, cdn, stats);
      && x.issued.None?
      && x.response == Json(entries[ScoreboardKey(date)].data)
      && x.entries == entries
  {
  }

  /** On a miss without a date the proxy fetches today's CDN scoreboard and,
      if that succeeds, answers the payload unchanged and caches it for 10 s. */
  lemma ScoreboardMissToday(
    entries: map<string, Entry<Value>>, date: Option<string>, lookupAt: int, storeAt: int,
    cdn: Request -> Result<Value, string>, stats: Request -> Result<StatsData, string>)
    requires !DateGiven(date)
    requires var c := Lookup(entries, ScoreboardKey(date), lookupAt); c.None? || !Truthy(c.value)
    ensures var x := ResolveScoreboard(entries, date, lookupAt, storeAt, cdn, stats);
      && x.issued == Some(CdnGet(TodayPath))
      && (cdn(CdnGet(TodayPath)).Ok? ==>
            var doc := cdn(CdnGet(TodayPath)).value;
            && x.response == Json(doc)
            && ScoreboardKey(date) == "scoreboard_today"
            && x.entries[ScoreboardKey(date)] == Entry(doc, storeAt, 10000))
  {
  }

  /** On a miss with a date the proxy asks the stats API for that date in
      `MM/DD/YYYY` form and, if the fetch and the transformation succeed,
      answers the transformed scoreboard and caches it for 5 minutes. */
  lemma ScoreboardMissWithDate(
    entries: map<string, Entry<Value>>, date: Option<string>, lookupAt: int, storeAt: int,
    cdn: Request -> Result<Value, string>, stats: Request -> Result<StatsData, string>)
    requires DateGiven(date)
    requires var c := Lookup(entries, ScoreboardKey(date), lookupAt); c.None? || !Truthy(c.value)
    ensures var x := ResolveScoreboard(entries, date, lookupAt, storeAt, cdn, stats);
      var request := ScoreboardQuery(ReformatDate(date.value));
      && x.issued == Some(request)
      && (stats(request).Ok? && Transform(stats(request).value).Ok? ==>
            var body := BoardToValue(Transform(stats(request).value).value);
            && x.response == Json(body)
            && x.entries[ScoreboardKey(date)] == Entry(body, storeAt, 300000))
  {
  }

  /** A failed scoreboard fetch is answered with the fetch's error message,
      and a payload the transformer throws on with the TypeError's message:
      a line-score table without rows is reported as a read of `find` of
      `undefined`. */
  lemma ScoreboardErrorAnswer(
    entries: map<string, Entry<Value>>, date: Option<string>, lookupAt: int, storeAt: int,
    cdn: Request -> Result<Value, string>, stats: Request -> Result<StatsData, string>)
    requires var c := Lookup(entries, ScoreboardKey(date), lookupAt); c.None? || !Truthy(c.value)
    ensures var x := ResolveScoreboard(entries, date, lookupAt, storeAt, cdn, stats);
      x.issued.Some? && x.issued.value.CdnGet? && cdn(x.issued.value).Err? ==>
        x.response == ServerError(cdn(x.issued.value).error)
    ensures var x := ResolveScoreboard(entries, date, lookupAt, storeAt, cdn, stats);
      x.issued.Some? && x.issued.value.StatsGet? && stats(x.issued.value).Err? ==>
        x.response == ServerError(stats(x.issued.value).error)
    ensures var x := ResolveScoreboard(entries, date, lookupAt, storeAt, cdn, stats);
      x.issued.Some? && x.issued.value.StatsGet? && stats(x.issued.value).Ok?
      && Transform(stats(x.issued.value).value).Err? ==>
        x.response == ServerError("Cannot read properties of undefined (reading 'find')")
  {
    assert TypeErrorMessage(MissingLineScore) == "Cannot read properties of undefined (reading 'find')";
  }

  /** A failed request caches nothing: the only change to the cache is the
      removal of an expired entry for its own key by the initial read. */
  lemma ScoreboardFailureCachesNothing(
    entries: map<string, Entry<Value>>, date: Option<string>, lookupAt: int, storeAt: int,
    cdn: Request -> Result<Value, string>, stats: Request -> Result<StatsData, string>)
    requires ResolveScoreboard(entries, date, lookupAt, storeAt, cdn, stats).response.ServerError?
    ensures ResolveScoreboard(entries, date, lookupAt, storeAt, cdn, stats).entries
         == AfterLookup(entries, ScoreboardKey(date), lookupAt)
  {
  }

  /** A scoreboard request never touches the entry of any other key. */
  lemma ScoreboardOtherKeysUnchanged(
    entries: map<string, Entry<Value>>, date: Option<string>, lookupAt: int, storeAt: int,
    cdn: Request -> Result<Value, string>, stats: Request -> Result<StatsData, string>, k: string)
    requires k != ScoreboardKey(date)
    ensures var x := ResolveScoreboard(entries, date, lookupAt, storeAt, cdn, stats);
      (k in x.entries <==> k in entries) && (k in entries ==> x.entries[k] == entries[k])
  {
  }

  /** The same request again within the time-to-live is a cache hit: no
      second upstream call, and the same answer. */
  lemma ScoreboardRepeatIsHit(
    entries: map<string, Entry<Value>>, date: Option<string>, lookupAt: int, storeAt: int,
    cdn: Request -> Result<Value, string>, stats: Request -> Result<StatsData, string>,
    lookupAt2: int, storeAt2: int,
    cdn2: Request -> Result<Value, string>, stats2: Request -> Result<StatsData, string>)
    requires var x := ResolveScoreboard(entries, date, lookupAt, storeAt, cdn, stats);
      x.issued.Some? && x.response.Json? && Truthy(x.response.body)
    requires lookupAt2 - storeAt < ScoreboardTtl(date)
    ensures var x := ResolveScoreboard(entries, date, lookupAt, storeAt, cdn, stats);
      ResolveScoreboard(x.entries, date, lookupAt2, storeAt2, cdn2, stats2) == Exchange(x.entries, x.response, None)
  {
    var x := ResolveScoreboard(entries, date, lookupAt, storeAt, cdn, stats);
    var key := ScoreboardKey(date);
    assert x.entries[key] == Entry(x.response.body, storeAt, ScoreboardTtl(date));
  }

  /** A transformed scoreboard is an object, so it is always truthy: a
      successful historical request is always followed by hits. */
  lemma BoardIsTruthy(board: Scoreboard)
    ensures Truthy(BoardToValue(board))
  {
  }

  /** `?date=today` and no date at all share one cache key, although
      `?date=today` asks the stats API for the date "undefined/undefined/today". */
  lemma TodayDateSharesKey()
    ensures ScoreboardKey(Some("today")) == ScoreboardKey(None)
    ensures ReformatDate("today") == "undefined/undefined/today"
  {
    assert '-' !in "today";
  }

  // ---------------------------------------------------------------------
  // GET /api/boxscore/:gameId

  function BoxScoreKey(gameId: string): string {
    CacheKey("boxscore", gameId)
  }

  /** What one `GET /api/boxscore/:gameId` does to the cache and answers. */
  function ResolveBoxScore(
    entries: map<string, Entry<Value>>, gameId: string, lookupAt: int, storeAt: int,
    cdn: Request -> Result<Value, string>): (x: Exchange)
    ensures x.issued.None? <==>
      Lookup(entries, BoxScoreKey(gameId), lookupAt).Some? && Truthy(Lookup(entries, BoxScoreKey(gameId), lookupAt).value)
    ensures x.entries.Keys <= entries.Keys + {BoxScoreKey(gameId)}
    ensures x.response.Json? && x.issued.Some? ==> BoxScoreKey(gameId) in x.entries
  {
    var key := BoxScoreKey(gameId);
    var cached := Lookup(entries, key, lookupAt);
    var purged := AfterLookup(entries, key, lookupAt);
    if cached.Some? && Truthy(cached.value) then Exchange(purged, Json(cached.value), None)
    else
      var request := CdnGet(BoxScorePath(gameId));
      match cdn(request)
      case Err(message) => Exchange(purged, ServerError(message), Some(request))
      case Ok(doc) => Exchange(Store(purged, key, doc, BoxScoreTtl, storeAt), Json(doc), Some(request))
  }

  /** The `/api/boxscore/:gameId` handler, acting on the cache object. */
  method HandleBoxScore(
    cache: Cache<Value>, gameId: string, lookupAt: int, storeAt: int,
    cdn: Request -> Result<Value, string>)
    returns (response: Response, issued: Option<Request>)
    modifies cache
    ensures Exchange(cache.entries, response, issued)
         == ResolveBoxScore(old(cache.entries), gameId, lookupAt, storeAt, cdn)
  {
    var key := CacheKey("boxscore", gameId);
    var cachedData := cache.Get(key, lookupAt);
    if cachedData.Some? && Truthy(cachedData.value) {
      return Json(cachedData.value), None;
    }
    var request := CdnGet(BoxScorePath(gameId));
    issued := Some(request);
    var reply := cdn(request);
    if reply.Err? {
      response := ServerError(reply.error);
      return;
    }
    cache.Set(key, reply.value, BoxScoreTtl, storeAt);
    response := Json(reply.value);
  }

  /** A box score is answered from a valid, truthy entry without an upstream
      call; otherwise it is fetched from the CDN for that game and, on
      success, cached under `boxscore_{gameId}` for 15 s, while a failure
      caches nothing. */
  lemma BoxScoreCaching(
    entries: map<string, Entry<Value>>, gameId: string, lookupAt: int, storeAt: int,
    cdn: Request -> Result<Value, string>)
    ensures var x := ResolveBoxScore(entries, gameId, lookupAt, storeAt, cdn);
      var c := Lookup(entries, BoxScoreKey(gameId), lookupAt);
      var request := CdnGet("/boxscore/boxscore_" + gameId + ".json");
      && (c.Some? && Truthy(c.value) ==> x == Exchange(entries, Json(c.value), None))
      && (!(c.Some? && Truthy(c.value)) ==> x.issued == Some(request))
      && (!(c.Some? && Truthy(c.value)) && cdn(request).Ok? ==>
            && x.response == Json(cdn(request).value)
            && x.entries[BoxScoreKey(gameId)] == Entry(cdn(request).value, storeAt, 15000)
            && BoxScoreKey(gameId) == "boxscore_" + gameId)
      && (!(c.Some? && Truthy(c.value)) && cdn(request).Err? ==> x.response == ServerError(cdn(request).error))
      && (x.response.ServerError? ==> x.entries == AfterLookup(entries, BoxScoreKey(gameId), lookupAt))
  {
  }

  /** A box-score request never touches the entry of any other key. */
  lemma BoxScoreOtherKeysUnchanged(
    entries: map<string, Entry<Value>>, gameId: string, lookupAt: int, storeAt: int,
    cdn: Request -> Result<Value, string>, k: string)
    requires k != BoxScoreKey(gameId)
    ensures var x := ResolveBoxScore(entries, gameId, lookupAt, storeAt, cdn);
      (k in x.entries <==> k in entries) && (k in entries ==> x.entries[k] == entries[k])
  {
  }

  /** A scoreboard request and a box-score request never share a cache
      entry, so neither can answer the other. */
  lemma EndpointsNeverShareKeys(date: Option<string>, gameId: string)
    ensures ScoreboardKey(date) != BoxScoreKey(gameId)
  {
    PrefixesDisjoint(if DateGiven(date) then date.value else "today", gameId);
  }
}
