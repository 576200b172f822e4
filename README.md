# NBA scores app — a verified model of its data path

The NBA scores app shows the day's games, games on a chosen date, and a box
score per game. A small Express proxy sits between the React client and the
NBA's two data sources: the live CDN (today's scoreboard, box scores) and
the stats API (scoreboards of past dates, in a tabular "result set" shape).
The proxy caches every answer in memory with a time-to-live, and rewrites
stats-API tables into the CDN's scoreboard shape so that the client reads
one format. The client maps those documents into its own game and team
records.

This project models that path in Dafny:

- `Js` (`js_values.dfy`) — the JavaScript values the code works on (JSON
  documents plus `undefined`), truthiness, `||`, `===`, property reads
  that throw on `null`/`undefined`, optional chaining, string conversion
  of numbers, and `parseInt`.
- `TtlCache` (`ttl_cache.dfy`) — the proxy's cache as a class over a map
  field, with `getCacheKey`, `getCachedData` (lazy expiry: a read that
  misses deletes the key) and `setCachedData`; the pure functions
  `Lookup`, `AfterLookup` and `Store` specify the two methods.
- `StatsTransform` (`stats_transform.dfy`) — `transformStatsAPIResponse`:
  the guards on missing result sets, the per-header loop (an imperative
  method proved equal to a recursive specification), the first-match line
  score search, the skipping of headers whose line scores are missing,
  field defaults, and the `TypeError` thrown when headers exist but the
  line-score table has no `rowSet`.
- `Proxy` (`proxy.dfy`) — the `/api/scoreboard` and `/api/boxscore/:gameId`
  handlers: cache key, hit, miss, the date reformatting
  `YYYY-MM-DD → MM/DD/YYYY`, which upstream is asked what, which
  time-to-live is stored, and the error answer. Each handler is a method
  that takes the cache object and changes it through the cache's own
  methods; it is proved equal to a pure "what this request does" function,
  about which the caching properties are lemmas.
- `NbaApi` (`nba_api.dfy`) — the client's mappers: `transformGame`,
  `getGameStatus`, `calculateTeamTotals`, `getGameStats`, and what
  `getGamesToday`/`getGamesByDate`/`getBoxScore` make of the proxy's answer.
- `TeamLogos` (`team_logos.dfy`) — `getTeamLogoUrl`.

Clocks (`Date.now()`) are parameters: one time for the cache read and one
for the cache write of the same request. The upstream services are total
functions from a request to either a document or an error message, so
every lemma holds for every possible upstream behaviour.

Three consequences of the code worth knowing:

- A failed fetch leaves the cache as the lookup left it, and the lookup has
  already deleted a missing or expired entry for that key. So a failure
  does not leave the cache exactly unchanged: the expired entry for the
  requested key is gone (`Proxy.ScoreboardFailureCachesNothing`).
- `?date=today` uses the same cache key as a request without a date, but
  takes the stats-API branch; the two share one cache slot with different
  time-to-lives. It also asks the stats API for the date
  `undefined/undefined/today` (`Proxy.TodayDateSharesKey`).
- The game period is `parseInt(livePeriod) || 0`, so a negative period
  string gives a negative period; the model keeps it an `int`.

## Model

| member | source | states |
|---|---|---|
| Js.ParseIntOfNatDigits | server/index.js:169 | `parseInt` of the decimal digits of a natural number gives that number |
| Js.ParseIntOfNegatedDigits | server/index.js:169 | `parseInt` of `-` followed by the digits of `m` gives `-m` |
| Js.ParseIntOfIntToString | server/index.js:169 | `parseInt(String(n)) === n` for every integer `n` |
| Js.ParseInt | server/index.js:169 | a number is read only when a decimal digit follows the white space and sign; one is always read when a digit follows that is not the start of a `0x` prefix; a negative result needs a leading `-` |
| Js.ParseIntOrZero | server/index.js:169 | `parseInt(v) \|\| 0` of a number value is that number, and 0 when `parseInt` gives `NaN` |
| Js.NatToStringValue | server/index.js:169 | the decimal string of a natural number reads back as that number |
| TtlCache.CacheKey | server/index.js:22-24 | the key is the prefix, then `_`, then the identifier, each recoverable by position |
| TtlCache.Lookup | server/index.js:26-30 | a read returns data exactly when the key is present and less than `ttl` ms old, and then the stored data |
| TtlCache.AfterLookup | server/index.js:26-32 | after a read a missing or expired key is absent, a valid one keeps its entry, and every other key is untouched |
| TtlCache.Store | server/index.js:35-37 | a store puts `{data, now, ttl}` under the key, adds only that key, and keeps every other entry |
| TtlCache.Cache.constructor | server/index.js:16 | the cache starts empty |
| TtlCache.Cache.Get | server/index.js:26-33 | returns `Lookup` of the old map and leaves the map as `AfterLookup` says |
| TtlCache.Cache.Set | server/index.js:35-37 | the new map is `Store` of the old one |
| TtlCache.PrefixesDisjoint | server/index.js:83 | no `scoreboard_` key equals any `boxscore_` key |
| TtlCache.CacheKeyInjective | server/index.js:22-24 | under one prefix, equal keys have equal identifiers |
| TtlCache.LookupAfterStore | server/index.js:26-37 | a read after a store returns the stored data exactly while its ttl has not run out; other keys read as before |
| TtlCache.LookupMissIsStable | server/index.js:26-33 | after a miss the key is absent, a second read misses and changes nothing |
| StatsTransform.TeamFrom | server/index.js:171-198 | a side keeps the header's team id, and none of its name, city, tricode or score is `null` or `undefined` |
| StatsTransform.FindLine | server/index.js:153-158 | finds the first line-score row whose game id and team id are `===` to the header's, or reports that none matches |
| StatsTransform.BuildGame | server/index.js:143-199 | a header yields a game exactly when both its home and its visitor line scores exist |
| StatsTransform.GamesFrom | server/index.js:143-200 | never more games than header rows |
| StatsTransform.Transform | server/index.js:127-203 | throws exactly when headers exist and the line-score table has no `rowSet`; empty board without `gameDate` when result sets are missing, fewer than two, or the header table is empty; otherwise the games of `GamesFrom` and `gameDate` the first header's date cell or `""` |
| StatsTransform.TransformStatsResponse | server/index.js:127-203 | the loop over header rows returns what `Transform` specifies |
| StatsTransform.GamesToValue | server/index.js:164-199 | the games array has one element per game, in order, each reading back its game's id and both team documents |
| StatsTransform.BoardToValue | server/index.js:202 | the answer's `scoreboard.games` reads back the games and `scoreboard.gameDate` the board's date, absent on the early exits |
| StatsTransform.TeamValueFields | server/index.js:171-198 | a team document carries its id, name, city, tricode and score under the CDN field names |
| StatsTransform.GameValueFields | server/index.js:164-170 | a game document carries id, date as `gameTimeUTC`, status, period, an empty clock and both team documents |
| StatsTransform.GamesFromConcat | server/index.js:143-200 | the games of two header tables in a row are the games of each, concatenated |
| StatsTransform.GamesFromStep | server/index.js:143-164 | one more header appends exactly its game, if it has one |
| StatsTransform.GamesFromSingle | server/index.js:143-164 | one header gives its game or nothing |
| StatsTransform.GamesFromSplit | server/index.js:143-200 | the games are those before a header, that header's game, then those after |
| StatsTransform.UnmatchedRowDropped | server/index.js:160-162 | a header without both line scores contributes nothing and does not disturb the others |
| StatsTransform.EmittedGameHasRow | server/index.js:143-199 | every emitted game was built from some header row |
| StatsTransform.MatchedRowEmitted | server/index.js:143-199 | every header with both line scores has its game in the output |
| StatsTransform.AllRowsMatched | server/index.js:143-200 | when every header matches, the games are exactly the headers' games, one each, in order |
| StatsTransform.NoRowMatched | server/index.js:160-162 | when no header matches, there are no games |
| StatsTransform.BuiltGameFields | server/index.js:144-199 | a built game takes id, date, status and team ids from the header columns, period `parseInt(col 9 \|\| 0) \|\| 0`, and each team from its first matching line score |
| StatsTransform.TeamFieldDefaults | server/index.js:173-193 | name, city and tricode default to `""` and score to `0` exactly when the line-score cell is falsy |
| StatsTransform.PeriodOfCell | server/index.js:149-169 | a numeric or decimal-string period cell gives that period; a falsy one gives 0, and so does a truthy one `parseInt` reads as `NaN` |
| StatsTransform.HistoricalScenario | server/index.js:127-203 | a one-game stats answer becomes a one-game board with the line scores' points and period 0 |
| Proxy.Split | server/index.js:97 | `split('-')` gives at least one piece and no piece contains the separator |
| Proxy.JoinSplit | server/index.js:97 | joining the pieces of a split with the separator gives back the string |
| Proxy.SplitWithoutSeparator | server/index.js:97 | a string without the separator splits into itself alone |
| Proxy.SplitAfterPiece | server/index.js:97 | splitting `p + sep + rest` gives `p` followed by the pieces of `rest` |
| Proxy.SplitJoin | server/index.js:97 | splitting a join of separator-free pieces gives back the pieces |
| Proxy.ReformatDate | server/index.js:97-98 | a date without a dash prints its missing month and day as `undefined` |
| Proxy.ReformatDateOfParts | server/index.js:97-98 | `YYYY-MM-DD` becomes `MM/DD/YYYY` for any three separator-free parts |
| Proxy.ReformatDateExample | server/index.js:97-98 | `2024-01-15` becomes `01/15/2024` |
| Proxy.ResolveScoreboard | server/index.js:80-124 | an upstream request is issued exactly when the cache has no valid truthy entry; the cache gains at most the request's own key, and a fetched answer is cached under it |
| Proxy.HandleScoreboard | server/index.js:80-124 | the handler's answer, upstream request and new cache are those of `ResolveScoreboard` on the old cache |
| Proxy.ScoreboardHit | server/index.js:86-90 | a valid truthy cached entry is answered with no upstream request and an unchanged cache |
| Proxy.ScoreboardMissToday | server/index.js:94-118 | without a date, a miss asks the CDN for today's scoreboard and on success caches and answers it under `scoreboard_today` for 10 s |
| Proxy.ScoreboardMissWithDate | server/index.js:94-111 | with a date, a miss asks the stats API for `scoreboardv2` with `MM/DD/YYYY`, league `00`, offset `0`, and on success caches and answers the transformed board for 5 min |
| Proxy.ScoreboardErrorAnswer | server/index.js:120-123 | a failed fetch answers its error message; a payload the transformer throws on answers "Cannot read properties of undefined (reading 'find')" |
| Proxy.ScoreboardFailureCachesNothing | server/index.js:120-123 | an error answer stores nothing: the cache is as the lookup left it |
| Proxy.ScoreboardOtherKeysUnchanged | server/index.js:80-124 | a scoreboard request changes no other cache key |
| Proxy.ScoreboardRepeatIsHit | server/index.js:86-118 | after a successful fetch, the same request within the ttl is a hit answering the same document with no upstream request |
| Proxy.BoardIsTruthy | server/index.js:202 | a transformed board is a truthy document, so its cache entry can be hit |
| Proxy.TodayDateSharesKey | server/index.js:83-98 | `date=today` and no date use the same cache key, and `date=today` asks for the date `undefined/undefined/today` |
| Proxy.ResolveBoxScore | server/index.js:206-229 | an upstream request is issued exactly when the cache has no valid truthy entry; the cache gains at most `boxscore_<id>`, and a fetched answer is cached under it |
| Proxy.HandleBoxScore | server/index.js:206-229 | the handler's answer, upstream request and new cache are those of `ResolveBoxScore` on the old cache |
| Proxy.BoxScoreCaching | server/index.js:206-229 | a hit answers from cache with no request; a miss asks the CDN for `boxscore_<id>.json`, and on success caches it under `boxscore_<id>` for 15 s; a failure answers its error message and stores nothing |
| Proxy.BoxScoreOtherKeysUnchanged | server/index.js:209-223 | a box-score request changes no other cache key |
| Proxy.EndpointsNeverShareKeys | server/index.js:83-209 | scoreboard and box-score keys never collide |
| NbaApi.GameStatus | src/services/nbaApi.js:103-114 | the status is one of `scheduled`, `live`, `final`, `unknown` |
| NbaApi.GameStatusTable | src/services/nbaApi.js:103-114 | codes 1, 2, 3 map to scheduled, live, final (in both directions) and every other value to unknown |
| NbaApi.FullName | src/services/nbaApi.js:80-82 | with a truthy city the full name is the city's text, a space and the name's text, each readable back by position; otherwise the name |
| NbaApi.AppTeamOf | src/services/nbaApi.js:76-93 | id, tricode and name are copied, and the city is truthy or else equal to the name |
| NbaApi.TransformGame | src/services/nbaApi.js:69-97 | throws exactly when the game, its home team or its away team is `null`/`undefined`; otherwise id is `gameId`, date `gameTimeUTC`, status `getGameStatus(gameStatus)`, period and clock copied, both team records, and each score `\|\| 0` |
| NbaApi.AppTeamNames | src/services/nbaApi.js:76-93 | with a truthy city the full name is `city name` and the city is kept; with a missing, `null` or empty city both fall back to the team name |
| NbaApi.ClientViewOfGame | src/services/nbaApi.js:69-97 | mapping a proxy game document keeps id, date, period, tricodes, names and scores (`\|\| 0`), and maps the status through `getGameStatus` |
| NbaApi.TransformedScoreOnClient | src/services/nbaApi.js:69-97 | a game built from stats tables reaches the client with each side's score from its first matching line score |
| NbaApi.CalculateTeamTotals | src/services/nbaApi.js:155-157 | each percentage text is `percent` of its statistic `\|\| 0` |
| NbaApi.Counts | src/services/nbaApi.js:142-154 | the twelve counting fields, in order |
| NbaApi.MissingStatisticsAreZero | src/services/nbaApi.js:121-139 | missing team stats or statistics give all-zero counts and `'0.0'` percentages |
| NbaApi.CountsCopied | src/services/nbaApi.js:141-154 | each count is the matching statistic `\|\| 0` |
| NbaApi.TotalsNormalised | src/services/nbaApi.js:120-159 | every count of the result is truthy or exactly 0 |
| NbaApi.TotalsRoundTrip | src/services/nbaApi.js:141-154 | turning normalised totals back into statistics and recomputing gives the same counts (a consequence of the `\|\| 0` copying; the code never writes totals back) |
| NbaApi.TotalsIdempotent | src/services/nbaApi.js:120-159 | recomputing from the statistics of a result gives the same counts |
| NbaApi.BoxScoreOf | src/services/nbaApi.js:55-63 | `getBoxScore` gives the answer's `game` when that is truthy, and `null` when it is falsy, the answer is `null` or the request failed |
| NbaApi.BoxScoreReachesClient | src/services/nbaApi.js:55-63 | through the proxy, a fetched box score reaches the client as its `game`, and a failed fetch as `null`, which gives no teams and no players |
| NbaApi.GetGameStats | src/services/nbaApi.js:165-176 | a falsy box score gives `null` teams and empty player lists |
| NbaApi.GameStatsShape | src/services/nbaApi.js:178-183 | for each side: the team when truthy, else `null`; its players when the team is not nullish and the list truthy, else `[]` |
| NbaApi.GamesOf | src/services/nbaApi.js:25-49 | the games list is always truthy |
| NbaApi.GamesOfAnswer | src/services/nbaApi.js:25-49 | the list is `scoreboard.games` when present and truthy, `[]` on error, without a scoreboard, or when `games` is missing or falsy |
| NbaApi.BoardGamesReachClient | src/services/nbaApi.js:25-49 | a transformed board reaches the client as exactly its games, in order |
| TeamLogos.TeamLogoUrl | src/utils/teamLogos.jsx:6-17 | no logo for an empty tricode or a special team in any case; an address lies under the ESPN logo directory and names a `.png` file |
| TeamLogos.LogoUrlCases | src/utils/teamLogos.jsx:6-17 | no logo exactly for an empty tricode or a special team in any case; otherwise the ESPN address whose middle is the lower-cased tricode |
| TeamLogos.SameLowerSameUpper | src/utils/teamLogos.jsx:11-16 | characters equal after lower-casing are equal after upper-casing |
| TeamLogos.LogoUrlIgnoresCase | src/utils/teamLogos.jsx:6-17 | tricodes differing only in case get the same answer |
| TeamLogos.LogoUrlExamples | src/utils/teamLogos.jsx:6-17 | `LAL` gives `.../500/lal.png`; `east` and `""` give no logo |

## Left out

- HTTP plumbing: Express routing, `cors`, `app.listen`, the `/api/health` endpoint, response status codes beyond "error answer", request headers sent upstream, and `URLSearchParams` encoding. The upstream services are parameters that answer a request with a document or an error message.
- Network failures, non-2xx upstream statuses and invalid JSON all become the error answer; the model does not distinguish them.
- `Date.now()` is two parameters (read time and write time); the model says nothing about how they relate.
- Concurrency: two overlapping requests for the same key (both missing and both fetching) are not modelled; each request is handled as one atomic step.
- Logging (`console.log`, `console.error`) has no effect on the state and is left out.
- The React components, `App.jsx`, the `useGames` hook and the `TeamLogo` component are user interface and are not part of this model; their behaviour depends on rendering and effects.
- A line-score table whose `rowSet` is `null` and one without a `rowSet` are the same case here; the code's message differs ("of null" against "of undefined"), the model gives the latter.
- The stats payload is typed: result sets are records with an optional `rowSet` of rows; a result set or row that is not an array or object of that shape is not modelled. The unused `resultSets[5]` is ignored by the code and by the model.
- Numbers are integers: fractions, `NaN`, exponent notation and the 2^53 limit are not modelled; `String(n)` is the decimal form of an integer.
- NbaApi.CalculateTeamTotals: the three percentage fields `((x || 0) * 100).toFixed(1)` are floating point and are taken through an opaque `percent` parameter; the model states which statistic each is formatted from and the `'0.0'` defaults, not the formatting.
- JSON serialisation of answers (dropping `undefined`-valued keys, key order) is not modelled; documents are compared as values.
- Property reads see own properties only; prototype properties (`"length"`, methods) are not modelled.
- Query parameters given more than once (arrays) are not modelled; `date` is absent or one string.
- The CDN document for today's games and box scores is passed through as an arbitrary value; its shape is not checked, as in the code.
- TeamLogos.TeamLogoUrl: only string tricodes are modelled, and case mapping covers the ASCII letters only (`toUpperCase` of other scripts is left out).
- The placeholder team fields (`teamSlug`, `wins`, `losses`, `seed`, `inBonus`, `timeoutsRemaining`, `periods`) are written into the document but no property is stated about them beyond their presence.
