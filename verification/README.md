# Sports model service: a verified Dafny model of its deterministic core

The service is a small web API for college basketball, NFL and NHL games.
It reads ESPN scoreboards and The Odds API, summarises a team's recent form
and serves NFL slates, edges and player-prop projections.  Every piece of it
that decides something without doing I/O is modelled here, one Dafny module
per source file:

- **Recent form.**
  - `Last5Form` and `FormRoutes` are the two day-by-day scanners, with their
    event tests, score extraction and summaries.
  - `DayScan` holds the loop shape they share.
  - `Scoreboard` holds the parts of an ESPN event that they read.
- **ESPN clients.**
  - `EspnCommon`, `EspnGames`, `EspnCbb`, `EspnNfl` and `EspnNhl` cover the
    date normalisers, the request variants and day fallbacks, the inclusive
    day range and the "lite" game rows.
- **NFL calendar and endpoints.**
  - `NflWeeks` covers Labor Day, the week-1 Thursday, the current
    (season, week) and the Thursday..Monday week window.
  - `NflRoutes` covers the soft week fetch with its two fallbacks, the
    schedule and slate, the `when` text and the stable ranking of edges with
    the row limit.
- **Odds.**
  - `OddsApi` covers the first-half point picker and the bookmaker fold.
  - `OddsProps` covers the market table and its inverse, the commence-time
    window and the merge that keeps the largest line per player and stat.
- **Player props.**
  - `NflPropsRoutes` covers the cache key, the thirty-minute edge cache (a
    class whose `entries` map the methods update), the result normaliser and
    the three prop endpoints.
  - `NflPropsModel` covers the position guess, the adjustment factor and the
    projection's keys.
- **Database URL.** `Db` covers the rewrite of any PostgreSQL URL to the
  asyncpg scheme with an `sslmode` default.
- **Shared helpers.**
  - `Common` holds optional values and Python's string helpers.
  - `Calendar` holds proleptic Gregorian dates as `datetime.date` sees them.

Inputs that the service reads from the outside world become parameters:

- The clock is a `today` date, or a time in microseconds.
- Each network service is a finite table from request to reply. A request
  missing from the table is one that raised.
- The API keys are optional strings.

Loops that the source runs step by step are methods with loop invariants.
Each is proved equal to a function, and the properties of those functions
are proved as lemmas.

## Model

| member | source | states |
|---|---|---|
| Common.OrElse | app/routers/nfl_props_routes.py:42-46 | `o or default` on optional text: None and "" give the default, anything else itself |
| Common.Or | app/services/espn_cbb.py:118 | `a or b` on optional text: a when truthy, else b |
| Common.LowerStr | app/services/last5_form.py:134 | `str.lower` maps each character, keeping the length |
| Common.UpperStr | app/models/nfl_props_model.py:53 | `str.upper` maps each character, keeping the length |
| Common.Strip | app/services/espn_common.py:71 | `str.strip` removes only whitespace, only at the two ends, and leaves none there |
| Common.StripIdempotent | app/services/espn_common.py:71 | stripping twice is stripping once |
| Common.StripEmptyIffAllSpace | app/services/espn_common.py:70-81 | a text strips to "" exactly when it is all whitespace |
| Common.Norm | app/services/espn_nfl.py:16-17 | `_norm` keeps only lower-case letters and digits and never lengthens the text |
| Common.NormFixedPoint | app/routers/nfl_routes.py:22-23 | text already made of lower-case letters and digits is its own normal form |
| Common.NormIdempotent | app/services/odds_api.py:12-13 | normalising twice is normalising once |
| Common.ParseInt | app/routers/nfl_routes.py:203-206 | `int(text)` succeeds exactly on a stripped integer literal |
| Common.ParseIntDecimal | app/routers/nfl_routes.py:203-206 | `int(str(n)) == n`, negative numbers included |
| Common.Split | app/services/espn_common.py:77 | `str.split` always gives at least one part |
| Common.SplitPartsFree | app/services/espn_common.py:77 | no part of a split holds the separator |
| Common.JoinSplit | app/services/espn_common.py:77 | joining the parts of a split with the separator gives the text back |
| Common.Without | app/services/espn_common.py:79 | removing a character leaves none of it |
| Common.ConcatSplit | app/services/espn_common.py:77-79 | `"".join(s.split("-"))` is the text without its dashes |
| Common.LexLeAntisymmetric | app/services/odds_api_nfl_props.py:55-56 | string order is antisymmetric |
| Common.LexLeTransitive | app/services/odds_api_nfl_props.py:55-56 | string order is transitive |
| Common.LexLeTotal | app/services/odds_api_nfl_props.py:55-56 | any two strings are ordered one way or the other |
| Calendar.Weekday | app/services/nfl_weeks.py:16-18 | `date.weekday()` lies in 0..6, Monday being 0 |
| Calendar.OrdinalInjective | app/services/espn_nfl.py:83-90 | different dates have different day numbers |
| Calendar.OrdinalOrder | app/services/espn_nfl.py:83 | a later date has a larger day number |
| Calendar.FromOrdinalOfOrdinal | app/services/espn_nfl.py:86-90 | a date's day number is in range and converts back to the date |
| Calendar.AddDays | app/services/nfl_weeks.py:25 | adding k days gives a valid date k day numbers later |
| Calendar.NextDay | app/services/espn_nfl.py:90 | the next day exists for every date but 9999-12-31 |
| Calendar.PrevDay | app/services/espn_cbb.py:107 | the previous day exists for every date but 0001-01-01 |
| Calendar.NextDayOrdinal | app/services/espn_nfl.py:90 | the next day is one day number later |
| Calendar.PrevDayOrdinal | app/services/espn_cbb.py:107 | the previous day is one day number earlier |
| Calendar.Yyyymmdd | app/services/espn_nfl.py:89 | `strftime("%Y%m%d")` gives eight digits |
| Calendar.DayField | app/services/espn_cbb.py:37 | `%d` reads 1..31, two digits as their number |
| Calendar.ParseCompact | app/services/espn_cbb.py:105 | `strptime("%Y%m%d")` yields only valid dates |
| Calendar.ParseDashed | app/services/espn_cbb.py:37 | `strptime("%Y-%m-%d")` yields only valid dates |
| Calendar.ParseIso | app/services/espn_nhl.py:51 | `fromisoformat` of Python 3.10 yields only valid dates, and only from YYYY-MM-DD text |
| Calendar.ParseCompactOfFormat | app/services/espn_cbb.py:105 | formatting a date and parsing it back gives the date |
| Calendar.DayFieldOfDigits | app/services/espn_cbb.py:37 | `%d` reads back a day written with two digits |
| Calendar.FormatOfParseCompact | app/services/espn_cbb.py:105 | an eight-digit date that parses is its own formatting |
| Calendar.ParseDashedCompact | app/services/espn_cbb.py:36-38 | the dashed form names the same date as the compact form without its dashes |
| Scoreboard.FirstCompetition | app/routers/form_routes.py:44 | the first competition, or an empty one without competitors that is not completed |
| Scoreboard.IntOrZero | app/services/last5_form.py:78-85 | `int(x or 0)` with ValueError read as 0: numbers kept, text parsed as an integer literal, else 0 |
| Scoreboard.FindTeam | app/services/last5_form.py:64-69 | the first competitor whose team id matches, and none exactly when no competitor's does |
| Scoreboard.PyIndex | app/services/last5_form.py:75 | a Python index in range, counted from the end when negative |
| DayScan.Cap | app/services/last5_form.py:147 | a negative count acts like zero in `len(...) >= n` |
| DayScan.Take | app/services/last5_form.py:164-166 | at most n elements, all of them when there are fewer, exactly n otherwise |
| DayScan.TakePrefix | app/services/last5_form.py:164-166 | what is taken is a prefix of the whole |
| DayScan.WalkFromStart | app/services/last5_form.py:146-166 | the walk over days holds the first n entries of all the days, taking a day only while fewer than n are held |
| DayScan.WalkOrFailFromStart | app/routers/form_routes.py:104-124 | a walk that a failure ends stops at the first failing day the plain walk requests, holding the first n entries of the days before it |
| Last5Form.Config | app/services/last5_form.py:15-32 | exactly cbb, nfl, cfb and nhl are known; cbb counts halves and nhl periods, the football sports quarters |
| Last5Form.FirstHalf | app/services/last5_form.py:91-113 | the first-half figure is the first linescore in half and period modes and the sum of the first two in quarter mode, a missing or non-numeric entry counting 0 |
| Last5Form.OpponentIndex | app/services/last5_form.py:75 | `competitors[1 - idx]`, read with negative indexing, is always a valid competitor |
| Last5Form.ExtractScores | app/services/last5_form.py:60-72 | fewer than two competitors, or the team not among them, gives all-zero scores |
| Last5Form.ExtractScoresSwap | app/services/last5_form.py:49-115 | in a two-team game the scores seen from the other team are the same four scores swapped |
| Last5Form.Outcome | app/services/last5_form.py:220-225 | W exactly when the team scored more, L exactly when less, T exactly on a tie |
| Last5Form.BuildRow | app/services/last5_form.py:198-225 | a row carries the extracted first-half and full scores and the result of comparing the full scores |
| Last5Form.Picks | app/services/last5_form.py:164-196 | one decision per event of a scoreboard, in scoreboard order |
| Last5Form.DaysKept | app/services/last5_form.py:146-161 | one entry per day walked |
| Last5Form.DaysKeptAt | app/services/last5_form.py:150 | the i-th day walked is i + 1 days before today |
| Last5Form.DaysKeptIgnoresToday | app/services/last5_form.py:146-150 | today's scoreboard is never consulted, whatever it holds |
| Last5Form.Collected | app/services/last5_form.py:146-166 | never more than max(n, 0) games are collected |
| Last5Form.DayKeptSound | app/services/last5_form.py:163-196 | everything a day keeps comes from an event of that day with a first competition, completed or in state post, at least two competitors and the team among them |
| Last5Form.CollectedQualify | app/services/last5_form.py:146-227 | every collected game is such an event from one of the days yesterday to max_days_back days ago, with its own row |
| Last5Form.CollectedComplete | app/services/last5_form.py:146-227 | while the days hold at most n qualifying games, every one of them is collected |
| Last5Form.Avg | app/services/last5_form.py:232-235 | the average of no values is 0.0 |
| Last5Form.AvgMean | app/services/last5_form.py:232-235 | the average times the count is the sum |
| Last5Form.AvgOfSum | app/services/last5_form.py:237-243 | the average of a total column is the sum of the averages of its parts |
| Last5Form.ColumnTotals | app/services/last5_form.py:213-216 | total1H and totalFull are the sums of the team's and the opponent's scores |
| Last5Form.Summarize | app/services/last5_form.py:245-258 | nFound is the number of games, nRequested is n, and teamName falls back to the team id |
| Last5Form.SummaryAverages | app/services/last5_form.py:237-258 | each total average is the sum of the scored and allowed averages |
| Last5Form.ScanDay | app/services/last5_form.py:157-227 | one day of the scan appends that day's qualifying games until n are held |
| Last5Form.ScanDays | app/services/last5_form.py:146-166 | the outer loop's games and number of requests are those of the day walk |
| Last5Form.ScanWalkMeaning | app/services/last5_form.py:146-166 | the walk collects the first n kept games; it requests a day only while fewer than n are held and stops early only once n are held |
| Last5Form.Last5Unsupported | app/services/last5_form.py:134-136 | the lower-cased sport is rejected exactly when it is not configured, and then no day is requested |
| Last5Form.Last5Games | app/services/last5_form.py:134-258 | for a known sport the response summarises the first n qualifying games, newest day first, with the first team name seen |
| Last5Form.Last5Requests | app/services/last5_form.py:146-161 | at most max_days_back requests, one per day, each made only while fewer than n games are held |
| Last5Form.GetLast5ForTeam | app/services/last5_form.py:118-258 | the scan returns the response and the number of days requested that `Last5` defines |
| FormRoutes.PostAloneNotEnough | app/routers/form_routes.py:53-57 | an event in state post whose completed flag is false is not taken |
| FormRoutes.Picks | app/routers/form_routes.py:115-119 | one decision per event of a scoreboard, in scoreboard order |
| FormRoutes.DaysGames | app/routers/form_routes.py:104-108 | one entry per day walked |
| FormRoutes.DaysGamesAt | app/routers/form_routes.py:108 | the i-th day walked is i days before today, starting with today itself |
| FormRoutes.DayGamesSound | app/routers/form_routes.py:43-57 | everything a day keeps includes the team, is completed and is on that day's scoreboard |
| FormRoutes.GamesSound | app/routers/form_routes.py:104-124 | everything the first k days keep is a completed event of the team from one of those days |
| FormRoutes.GamesComplete | app/routers/form_routes.py:104-124 | no completed event of the team on the first k days is missed |
| FormRoutes.FailsList | app/routers/form_routes.py:109-113 | one failure flag per day walked |
| FormRoutes.FormWalkMeaning | app/routers/form_routes.py:104-124 | with no failing request the walk holds the first n completed events of the team, newest day first; otherwise it stops at the first failing day, holding what the earlier days kept |
| FormRoutes.FormWalkStep | app/routers/form_routes.py:104-124 | a day that did not fail moves the walk on by one day |
| FormRoutes.FormWalkFails | app/routers/form_routes.py:109-113 | a request that fails other than by an HTTP status error ends the walk |
| FormRoutes.CollectDay | app/routers/form_routes.py:115-124 | the inner loop appends the day's completed events of the team, stopping right after the n-th |
| FormRoutes.FormDay | app/routers/form_routes.py:108-124 | one day reports failure exactly when its request fails or its body is not JSON, keeps the held events then, and otherwise appends the day's events |
| FormRoutes.ScanForm | app/routers/form_routes.py:101-133 | the day loop's events, request count and failure are those of the day walk |
| FormRoutes.GetLastNGames | app/routers/form_routes.py:22-40 | a sport without a scoreboard raises ValueError exactly when the loop runs at all, and makes no request; otherwise the result is the walk's, raising at the first failing day: a ValueError when its body is not JSON, the transport's error otherwise |
| FormRoutes.GetLastNGamesSound | app/routers/form_routes.py:89-133 | a scan that does not raise holds at most n completed events of the team, each from a day it requested |
| FormRoutes.LastMatch | app/routers/form_routes.py:67-74 | the index of the last competitor of the team, and none when the team is absent |
| FormRoutes.LastOther | app/routers/form_routes.py:67-74 | the index of the last competitor of another team, and none when there is none |
| FormRoutes.FindTeamAndOpp | app/routers/form_routes.py:60-76 | the loop returns the last competitor of the team and the last competitor of another team |
| FormRoutes.TeamAndOppDistinct | app/routers/form_routes.py:60-76 | the opponent found is never the team itself; the team is found exactly when the event includes it |
| FormRoutes.Contribution | app/routers/form_routes.py:167-169 | an event without both the team and an opponent, or with either one the empty object `{}`, adds nothing to the totals |
| FormRoutes.NameAfterKeeps | app/routers/form_routes.py:171-177 | a team name once found is kept by the next event |
| FormRoutes.NameAfterStable | app/routers/form_routes.py:171-177 | a team name once found is kept by every later event |
| FormRoutes.Scanned | app/routers/form_routes.py:219-223 | the games handed to the summary are the walk's, at most n of them, and none for a sport without a scoreboard |
| FormRoutes.SummarizeTeamForm | app/routers/form_routes.py:136-209 | no games gives the team id as name and no averages; otherwise each full average is its total over the events where both sides were found and neither is `{}`, divided by all the events; the first-half averages are always absent |
| FormRoutes.SkippedEventAddsNothing | app/routers/form_routes.py:166-169 | an event without both sides, or with an empty one, leaves the totals unchanged while still counting in the divisor |
| FormRoutes.TotalsAppend | app/routers/form_routes.py:166-190 | the totals over two runs of events are the sums of their totals |
| FormRoutes.Last5Team | app/routers/form_routes.py:212-224 | never a 400; for a sport without a scoreboard a server error exactly when n > 0; otherwise a server error exactly when the scan raised, carrying the failing day's error; a body is the summary (`Summarizes`) of the games the scan found: sport, id, n, their count, the averages of their totals and the first name found |
| FormRoutes.MatchupForm | app/routers/form_routes.py:227-259 | a ValueError of either scan (the unsupported sport, or a day's body that is not JSON) becomes a 400 and any other failure a server error; the first team's failure wins; a body exactly when neither scan raised; each team's summary is that of the games its own scan found, averages and name included |
| EspnCommon.NormalizeMissing | app/services/espn_common.py:83-90 | no date, or "", gives today as eight digits that parse back to today |
| EspnCommon.NormalizeIgnoresClock | app/services/espn_common.py:70-81 | a given date never depends on the clock |
| EspnCommon.NormalizeCompact | app/services/espn_common.py:71-74 | eight digits, once stripped, come back unchanged |
| EspnCommon.NormalizeDashed | app/services/espn_common.py:76-79 | a stripped ten-character text of three digit groups joined by dashes comes back with the dashes removed, as eight digits |
| EspnCommon.NormalizeOther | app/services/espn_common.py:80-81 | any other given text comes back stripped and is never rejected, so whitespace gives "" |
| EspnCommon.NormalizeIdempotent | app/services/espn_common.py:70-81 | a non-empty result normalises to itself |
| EspnGames.ListOrEmpty | app/services/espn_nfl.py:72-74 | events that are missing or not a list read as [] |
| EspnGames.CoerceYyyymmdd | app/services/espn_cbb.py:25-41 | a success is eight digits; every failure is a ValueError |
| EspnGames.CoerceAgree | app/services/espn_nfl.py:23-44 | the NFL client's coercion agrees with the college-basketball client's on every input |
| EspnGames.CoerceMissing | app/services/espn_cbb.py:33-34 | no date, or "", gives today, formatted so that it parses back to today |
| EspnGames.CoerceCompact | app/services/espn_cbb.py:39-40 | eight digits come back stripped and unchecked, even when they name no calendar day |
| EspnGames.Dashed | app/services/espn_cbb.py:36 | YYYY-MM-DD of a date has dashes at positions 4 and 7 |
| EspnGames.CoerceDashed | app/services/espn_cbb.py:36-38 | a date written YYYY-MM-DD comes back as the same date written YYYYMMDD |
| EspnGames.CoerceRejects | app/services/espn_cbb.py:35-41 | a ValueError exactly for text that is neither eight digits nor a dashed text naming a calendar day |
| EspnGames.CoerceIdempotent | app/services/espn_cbb.py:25-41 | a coerced date coerces to itself |
| EspnGames.TeamName | app/services/espn_cbb.py:116-118 | the first non-empty of display name, location and name, else "Unknown" |
| EspnGames.LastOnSide | app/services/espn_cbb.py:132-136 | the index of the last competitor tagged with a side, and none when no competitor is |
| EspnGames.ExtractGameLite | app/services/espn_cbb.py:121-143 | the competitor loop builds the row `GameLiteOf` defines |
| EspnGames.GameLiteSides | app/services/espn_cbb.py:125-143 | gameId is "" exactly without an id; each side is named by the last competitor tagged with it in any case, else "Home" or "Away" |
| EspnGames.LastIsUnique | app/services/espn_cbb.py:132-136 | the competitor tagged with a side with none after it is the one that names the side |
| EspnGames.GameLitePair | app/services/espn_cbb.py:131-136 | one home and one away competitor name the two sides |
| EspnCbb.Candidates | app/services/espn_cbb.py:66-77 | four candidates per host |
| EspnCbb.CandidateOrder | app/services/espn_cbb.py:66-77 | single, single with groups=50, range, range with groups=50, on the primary host and then on the fallback host |
| EspnCbb.FirstUsableMeaning | app/services/espn_cbb.py:79-89 | the result is the first non-empty events list; every earlier candidate failed or gave none; [] only after all of them |
| EspnCbb.TryVariants | app/services/espn_cbb.py:58-89 | the loop's result is the first usable candidate's, after at most eight requests |
| EspnCbb.FirstNonEmpty | app/services/espn_cbb.py:100-113 | [] exactly when every list is empty, otherwise one of the lists |
| EspnCbb.Neighbours | app/services/espn_cbb.py:106-107 | one alternative day per delta |
| EspnCbb.GetGamesForDate | app/services/espn_cbb.py:92-113 | the method returns what `GamesForDate` defines |
| EspnCbb.TryNeighbours | app/services/espn_cbb.py:106-113 | the delta loop returns the first non-empty day of `Neighbours`, as `Fallback` defines |
| EspnCbb.FallbackInside | app/services/espn_cbb.py:106-113 | with both neighbours inside the calendar, the day before is tried and then the day after |
| EspnCbb.FallbackRaises | app/services/espn_cbb.py:106-107 | the fallback raises only an OverflowError, at a neighbour outside the calendar |
| EspnCbb.NeighboursShape | app/services/espn_cbb.py:105-107 | the neighbours are the day before and the day after, each missing only at its end of the calendar |
| EspnCbb.GamesForDateNeighbours | app/services/espn_cbb.py:97-113 | the first non-empty answer of the day, the day before and the day after, never raising |
| EspnCbb.GamesForDateErrors | app/services/espn_cbb.py:97-113 | the day's own answer wins when it has events; a ValueError only for an unreadable date, an OverflowError only at the ends of the calendar |
| EspnNfl.GamesForDateMeaning | app/services/espn_nfl.py:59-74 | an uncoercible date raises ValueError before any request; a coerced day asks once for d-d, raises only if that request fails, and otherwise returns the reply's events, [] when missing or not a list |
| EspnNfl.GamesForFormattedDay | app/services/espn_nfl.py:93-95 | a day written YYYYMMDD is asked for as itself, whatever the clock |
| EspnNfl.DaysFromStep | app/services/espn_nfl.py:88-90 | one turn of the day loop lists the current day and then the days after it |
| EspnNfl.DaysFromRaises | app/services/espn_nfl.py:88-90 | the day loop raises an OverflowError exactly when a non-empty range ends on 9999-12-31 |
| EspnNfl.DaysFromDays | app/services/espn_nfl.py:86-90 | one YYYYMMDD entry per day from start to end inclusive, ascending, end - start + 1 of them |
| EspnNfl.CollectAppend | app/services/espn_nfl.py:92-100 | collecting over consecutive stretches of days concatenates their events |
| EspnNfl.CollectAllFail | app/services/espn_nfl.py:97-99 | when every day fails, nothing is collected |
| EspnNfl.Ordered | app/services/espn_nfl.py:83-84 | the bounds are swapped when the end is before the start |
| EspnNfl.GetGamesForRange | app/services/espn_nfl.py:76-100 | the day loop returns what `GamesForRange` defines |
| EspnNfl.ListDays | app/services/espn_nfl.py:86-90 | the while loop lists the days from the first date through the last |
| EspnNfl.CollectDays | app/services/espn_nfl.py:92-100 | the for loop concatenates, in day order, the events of the days that answer |
| EspnNfl.RangeSymmetric | app/services/espn_nfl.py:83-84 | the order of the two dates does not matter |
| EspnNfl.RangeNeverRaises | app/services/espn_nfl.py:92-100 | a range that does not end on 9999-12-31 never raises |
| EspnNhl.DigitsIn | app/services/espn_nhl.py:45 | removing non-digits keeps only digits and never lengthens the text |
| EspnNhl.DigitsInDigits | app/services/espn_nhl.py:45 | text of digits only keeps all of them |
| EspnNhl.DigitsInNone | app/services/espn_nhl.py:45 | text without digits keeps none |
| EspnNhl.Head10 | app/services/espn_nhl.py:51 | the first ten characters, or all of a shorter text |
| EspnNhl.NhlYyyymmdd | app/services/espn_nhl.py:29-55 | the result is always eight digits; it never raises |
| EspnNhl.NhlMissing | app/services/espn_nhl.py:40-41 | no date is today, formatted so that it parses back |
| EspnNhl.NhlSeparated | app/services/espn_nhl.py:45-47 | eight digits split by any separators come back as the eight digits, whether or not they name a calendar day |
| EspnNhl.NhlTimestamp | app/services/espn_nhl.py:49-52 | a timestamp starting with YYYY-MM-DD and carrying more digits is that date |
| EspnNhl.NhlViaIso | app/services/espn_nhl.py:49-52 | when the digits do not number eight, a first ten characters that read as an ISO date give that date |
| EspnNhl.DigitsInDashed | app/services/espn_nhl.py:45-47 | the digits of YYYY-MM-DD are YYYYMMDD |
| EspnNhl.NhlNoDigits | app/services/espn_nhl.py:53-55 | text without a digit falls back to today |
| EspnNhl.NhlAgreesWithCoerce | app/services/espn_nhl.py:43-52 | where the CBB and NFL coercion accepts eight digits or a dashed date, the NHL normaliser answers the same |
| EspnNhl.SpacePadded | app/services/espn_cbb.py:37 | the space-padded form of an early day has the dashed shape |
| EspnNhl.NhlSpacePadded | app/services/espn_nhl.py:49-55 | a space-padded day is its date to the CBB and NFL coercion but today to the NHL normaliser |
| EspnNhl.NhlIdempotent | app/services/espn_nhl.py:29-55 | a normalised date normalises to itself |
| EspnNhl.FirstTagged | app/services/espn_nhl.py:83-84 | the index of the first competitor tagged exactly with a side, and none when no competitor is |
| EspnNhl.NhlExtract | app/services/espn_nhl.py:77-92 | no row exactly when there are fewer than two competitors; the id, start time and status are the event's |
| EspnNhl.NhlSides | app/services/espn_nhl.py:83-89 | home is the first competitor tagged exactly "home", else the first; away the first tagged exactly "away", else the last |
| EspnNhl.FirstIsUnique | app/services/espn_nhl.py:83-84 | the tagged competitor with none before it is the one found |
| EspnNhl.NhlOneTagBothSides | app/services/espn_nhl.py:83-84 | tags are compared as written, so one competitor tagged "home" last of two names both sides |
| EspnNhl.Kept | app/services/espn_nhl.py:112-115 | never more rows than events |
| EspnNhl.GetGamesForDate | app/services/espn_nhl.py:97-118 | the filter loop returns what `NhlGames` defines |
| EspnNhl.KeptAppend | app/services/espn_nhl.py:112-115 | filtering a concatenation filters each part |
| EspnNhl.KeptSound | app/services/espn_nhl.py:112-115 | every kept row is an event's row and names both teams |
| EspnNhl.KeptComplete | app/services/espn_nhl.py:112-115 | every event whose row names both teams is kept |
| EspnNhl.NhlGamesMeaning | app/services/espn_nhl.py:104-118 | a failed request raises; missing events are no games; otherwise the games are the kept rows in event order |
| NflWeeks.LaborDay | app/services/nfl_weeks.py:14-19 | the first Monday on or after September 1: a Monday within its first week, with no Monday before it |
| NflWeeks.NextMonday | app/services/nfl_weeks.py:18-19 | `(0 - weekday) % 7` days on is the first Monday on or after the day |
| NflWeeks.LaborDayDate | app/services/nfl_weeks.py:14-19 | Labor Day is a Monday on one of September 1..7 |
| NflWeeks.Week1Thursday | app/services/nfl_weeks.py:21-25 | the Thursday three days after Labor Day |
| NflWeeks.Week1ThursdayDate | app/services/nfl_weeks.py:21-25 | the week-1 Thursday is on one of September 4..10 |
| NflWeeks.ClampWeek | app/services/nfl_weeks.py:51-54 | the week forced into 1..18, unchanged when already inside |
| NflWeeks.SeasonOf | app/services/nfl_weeks.py:35-41 | the season chosen is a representable year, or None where `date(0, 9, 1)` would raise |
| NflWeeks.EarlyMonthsBeforeSeason | app/services/nfl_weeks.py:34-35 | January and February lie before their own year's week-1 Thursday |
| NflWeeks.SeasonOfMeaning | app/services/nfl_weeks.py:35-41 | the season is the latest year whose week-1 Thursday is on or before today; only early days of year 1 have none |
| NflWeeks.LastSeasonStarted | app/services/nfl_weeks.py:38-41 | the previous year's week-1 Thursday is always on or before today |
| NflWeeks.CurrentSeason | app/services/nfl_weeks.py:27-41 | `current_season_week` returns that season |
| NflWeeks.CurrentWeek | app/services/nfl_weeks.py:43-55 | the week is 1 plus the whole weeks since the week-1 Thursday, capped to 1..18; the Thursday..Monday rule for week 1 agrees |
| NflWeeks.WeekWindowDefined | app/services/nfl_weeks.py:57-67 | every season but the last has a window for every week |
| NflWeeks.WeekWindowShape | app/services/nfl_weeks.py:61-67 | a window opens on the Thursday `7 * (week - 1)` days after week 1, week clamped to 1..18, and ends on the Monday four days later |
| NflWeeks.TodayInItsWindow | app/services/nfl_weeks.py:27-67 | the day the current week is computed for lies within that week's seven days unless the week was capped at 18 |
| NflRoutes.PrevWeek | app/routers/nfl_routes.py:50-51 | `max(1, week - 1)` equals the week only for week 1 |
| NflRoutes.FetcherMeaning | app/services/espn_nfl.py:83-92 | fetching a range never fails and gives the events of the days between the two ends, in either order |
| NflRoutes.PrevWindowDefined | app/routers/nfl_routes.py:50-52 | the previous week's window exists and opens no later |
| NflRoutes.SoftRaises | app/routers/nfl_routes.py:31 | `_week_games_soft` raises exactly when `week_window` does |
| NflRoutes.SoftFirstNonEmpty | app/routers/nfl_routes.py:26-62 | the first non-empty of the window, the window widened by three days, and the previous week; only the last names the fallback |
| NflRoutes.NoFallbackOutsideSeason | app/routers/nfl_routes.py:50-51 | week 1, weeks below it and weeks above 18 never fall back |
| NflRoutes.FallbackIsPreviousWeek | app/routers/nfl_routes.py:50-59 | a fallback is always from a week of 2..18 to the week before, whose window is seven days earlier |
| NflRoutes.NoFallbackOutsideSeasonContra | app/routers/nfl_routes.py:50-59 | a fallback happens only for weeks 2..18 |
| NflRoutes.ShownWeek | app/routers/nfl_routes.py:82-84 | without meta the shown week is the week asked for |
| NflRoutes.ScheduleWeek | app/routers/nfl_routes.py:66-86 | the week asked for, or on fallback the week before with the asked week as `fallbackFrom` and non-empty rows; one row per game |
| NflRoutes.EdgeOver | app/routers/nfl_routes.py:129-130 | an edge exists exactly when both the model and the market number do |
| NflRoutes.BuildSlateRows | app/routers/nfl_routes.py:121-136 | the loop builds exactly those rows |
| NflRoutes.SlateRowMarket | app/routers/nfl_routes.py:123-135 | a row's market is its game's line under the `away|home` token, only when markets were asked for; its edge is projection minus market |
| NflRoutes.SlateMatchesSchedule | app/routers/nfl_routes.py:90-141 | the slate and the schedule show the same week and the same games |
| NflRoutes.EdgeKey | app/routers/nfl_routes.py:156-158 | `_abs_edge` is a size or -1 |
| NflRoutes.Insert | app/routers/nfl_routes.py:160 | inserting adds exactly the one row |
| NflRoutes.InsertMembers | app/routers/nfl_routes.py:160 | an insertion holds nothing but the row and the rows it went into |
| NflRoutes.InsertSorted | app/routers/nfl_routes.py:160 | inserting keeps a descending sequence descending |
| NflRoutes.InsertStable | app/routers/nfl_routes.py:160 | the inserted row comes first among the rows with its key; other keys are untouched |
| NflRoutes.RankPermutation | app/routers/nfl_routes.py:160 | `sorted` gives a permutation of the rows |
| NflRoutes.RankDescending | app/routers/nfl_routes.py:160 | `sorted(..., reverse=True)` is descending in the key |
| NflRoutes.RankStable | app/routers/nfl_routes.py:160 | the sort is stable: rows with equal keys keep their order |
| NflRoutes.EdgesFirst | app/routers/nfl_routes.py:156-160 | rows with an edge come before every row without one |
| NflRoutes.ClampLimit | app/routers/nfl_routes.py:161 | `max(1, min(limit, 100))` lies in 1..100 and keeps a limit already inside |
| NflRoutes.TopRowsBound | app/routers/nfl_routes.py:160-161 | the clamped number of rows, or all when fewer; a prefix of the ranking and no row that was not there |
| NflRoutes.TopRowsDescending | app/routers/nfl_routes.py:160-161 | the rows kept are in descending order of the chosen edge |
| NflRoutes.EdgesForShape | app/routers/nfl_routes.py:145-164 | with scope "FG" passed to `nfl_slate`, `nfl_edges` shows the slate's week and fallback, and at most the limit of its rows in descending edge order |
| NflRoutes.WhenTarget | app/routers/nfl_routes.py:197-214 | explicit season and week win, and only when both are given and non-zero |
| NflRoutes.ThisWeekIsCurrent | app/routers/nfl_routes.py:168-171 | with scope "FG" passed, `nfl_this_week` equals the slate without parameters |
| NflRoutes.WhenDefault | app/routers/nfl_routes.py:197-203 | without `when` the current week is shown |
| NflRoutes.WhenUnparsed | app/routers/nfl_routes.py:205-214 | text that is not "week:Y:W" falls back to the current week |
| NflRoutes.WhenTargetParsed | app/routers/nfl_routes.py:205-209 | "week:Y:W" selects that season and week |
| NflRoutes.WhenParsed | app/routers/nfl_routes.py:205-209 | with scope "FG" passed, "week:Y:W" with non-zero numbers and a window gives that week's slate |
| NflRoutes.SlateDefined | app/routers/nfl_routes.py:101-106 | an explicit week's slate exists exactly when its window does |
| NflRoutes.EdgesSimpleShape | app/routers/nfl_routes.py:217-237 | with scope "FG" passed, the week is carried only on fallback; the rows are the ranking cut to the limit |
| NflRoutes.DirectCallsRejected | app/routers/nfl_routes.py:94-99 | as written, `nfl_edges`, `nfl_this_week`, `nfl_week_slate`, `nfl_projections_simple` and `nfl_edges_simple` answer 400 for every input, since their calls leave the `Query` marker as the scope |
| NflRoutes.FgScopeServes | app/routers/nfl_routes.py:145-237 | with scope "FG" passed, each of those endpoints answers what `EdgesFor`, `SlateFor`, `ProjectionsSimple` and `EdgesSimple` define |
| NflRoutes.ProjectionsServed | app/routers/nfl_routes.py:183-214 | with scope "FG" passed, `nfl_projections_simple` never meets the 400 and answers `ProjectionsSimple` |
| OddsApi.PointValue | app/services/odds_api.py:69-73 | a point is kept as a number exactly when it is one |
| OddsApi.HomeQuote | app/services/odds_api.py:66-68 | the first outcome naming the home side or "home", with none before it; None when no outcome does |
| OddsApi.PickPointFromMarket | app/services/odds_api.py:51-82 | the loop returns what the market offers as `PickPoint` defines it |
| OddsApi.FirstHome | app/services/odds_api.py:66-70 | the first matching outcome is the one the search finds |
| OddsApi.PickPointCases | app/services/odds_api.py:58-82 | nothing without outcomes or for other keys; a total reads the first outcome; a spread reads the first home outcome, else the first outcome |
| OddsApi.FirstKeyed | app/services/odds_api.py:139-140 | `next(...)` finds a market with the key, and None only when no market has it |
| OddsApi.Step | app/services/odds_api.py:133-150 | one bookmaker never loses a known number, moves the state only when the guard holds, and then names itself as the book |
| OddsApi.BestLine | app/services/odds_api.py:129-153 | the bookmaker loop, break included, computes `Fold` from no line |
| OddsApi.FoldKeeps | app/services/odds_api.py:146-150 | known numbers stay known through the loop |
| OddsApi.FoldStops | app/services/odds_api.py:152-153 | once both numbers are known later bookmakers are never read |
| OddsApi.MixedBooks | app/services/odds_api.py:146-150 | a spread-only book then a total-only book give the first book's spread under the second book's name |
| OddsApi.FetchOdds | app/services/odds_api.py:15-26 | an event the network has no answer for gets `_get_json`'s error object, a dict without bookmakers, so its entry is written with no numbers and no book |
| OddsApi.EventKey | app/services/odds_api.py:122-123 | the key is the normalised away name, "|", the normalised home name |
| OddsApi.ProcessEvent | app/services/odds_api.py:115-161 | `process_event` writes the entry `EventLine` describes, or nothing |
| OddsApi.GetLines | app/services/odds_api.py:100-110 | no API key gives an empty table; otherwise the events' lines in order |
| OddsApi.LinesKeys | app/services/odds_api.py:155-159 | every key comes from an event and holds the last line written under it; every writing event's key is present |
| OddsApi.EventLineKey | app/services/odds_api.py:117-123 | an event without id or names writes nothing; one that writes uses its normalised names |
| OddsApi.EventKeyInjective | app/services/odds_api.py:123 | the key gives back both normalised names |
| OddsApi.BarAfterName | app/services/odds_api.py:123 | the first "|" of the key ends the away name |
| OddsProps.MarketMapInverse | app/services/odds_api_nfl_props.py:84 | flipping `MARKET_MAP` loses no pair: each side maps back to the other |
| OddsProps.MarketMapFlip | app/services/odds_api_nfl_props.py:18-24 | `rev`'s keys are `MARKET_MAP`'s values and its values are `MARKET_MAP`'s keys |
| OddsProps.Requested | app/services/odds_api_nfl_props.py:85 | no more markets than stats |
| OddsProps.RequestedAppend | app/services/odds_api_nfl_props.py:85 | the markets follow the order of the stats |
| OddsProps.RequestedMembers | app/services/odds_api_nfl_props.py:85 | a market is requested exactly when some wanted stat maps to it |
| OddsProps.RequestedEmpty | app/services/odds_api_nfl_props.py:85-87 | no market is requested exactly when no wanted stat is known |
| OddsProps.WithinBounds | app/services/odds_api_nfl_props.py:55-56 | both ends are inside the window; a stamp inside a window is inside any window around it |
| OddsProps.InWindow | app/services/odds_api_nfl_props.py:95-96 | the kept events are exactly those within the window |
| OddsProps.SetDefault | app/services/odds_api_nfl_props.py:132-143 | `setdefault` adds only the one key and changes no entry already there |
| OddsProps.Record | app/services/odds_api_nfl_props.py:131-147 | one sighting touches only its own key |
| OddsProps.RecordEntry | app/services/odds_api_nfl_props.py:132-147 | the entry keeps its identity; the line and book are replaced when new or strictly larger in magnitude, else left |
| OddsProps.ApplyAllAppend | app/services/odds_api_nfl_props.py:116-147 | merging two runs of sightings is merging one after the other |
| OddsProps.ApplyPair | app/services/odds_api_nfl_props.py:130-147 | two sightings are merged one after the other |
| OddsProps.ApplyAllCovers | app/services/odds_api_nfl_props.py:144-147 | stored lines never shrink and each is the largest in magnitude seen for its key and stat |
| OddsProps.StepGrows | app/services/odds_api_nfl_props.py:144-147 | one sighting shrinks no line and is dominated by the stored one |
| OddsProps.ApplyAllOrigin | app/services/odds_api_nfl_props.py:144-147 | every stored line was there before or was seen for that key and stat |
| OddsProps.StepOrigin | app/services/odds_api_nfl_props.py:144-147 | one sighting changes only its own line, to its own value |
| OddsProps.ApplyAllKeepsIdentity | app/services/odds_api_nfl_props.py:132-143 | an entry keeps the player, team, opponent and game token it was created with |
| OddsProps.TieKeepsFirst | app/services/odds_api_nfl_props.py:145 | a later line of equal magnitude keeps the first line and book |
| OddsProps.QuotesStep | app/services/odds_api_nfl_props.py:123-147 | the outcome loop extends by one outcome unless it already raised |
| OddsProps.QuotesStuck | app/services/odds_api_nfl_props.py:148-150 | after a raise no later outcome is read |
| OddsProps.MarketsStep | app/services/odds_api_nfl_props.py:118-147 | the market loop extends by one market unless it already raised |
| OddsProps.MarketsStuck | app/services/odds_api_nfl_props.py:148-150 | after a raise no later market is read |
| OddsProps.BooksStep | app/services/odds_api_nfl_props.py:116-147 | the bookmaker loop extends by one bookmaker unless it already raised |
| OddsProps.BooksStuck | app/services/odds_api_nfl_props.py:148-150 | after a raise no later bookmaker is read |
| OddsProps.MergeQuotes | app/services/odds_api_nfl_props.py:123-147 | the outcome loop applies exactly the outcomes' actions and reports a raise |
| OddsProps.MergeMarkets | app/services/odds_api_nfl_props.py:118-147 | the market loop applies exactly the markets' actions and reports a raise |
| OddsProps.MergeBooks | app/services/odds_api_nfl_props.py:116-147 | the bookmaker loop applies exactly the bookmakers' actions and reports a raise |
| OddsProps.FetchOne | app/services/odds_api_nfl_props.py:101-150 | `fetch_one` keeps what it wrote before raising |
| OddsProps.AllActsStep | app/services/odds_api_nfl_props.py:152 | the events are merged one after another |
| OddsProps.GetPropLines | app/services/odds_api_nfl_props.py:58-154 | the method computes `PropLines` |
| OddsProps.PropLinesEmpty | app/services/odds_api_nfl_props.py:79-92 | no key or no known stat gives an empty table; otherwise it fails exactly when listing events fails |
| OddsProps.DefaultRequested | app/services/odds_api_nfl_props.py:82-85 | without stats all five markets are requested, in the default order |
| OddsProps.BothPairings | app/services/odds_api_nfl_props.py:130-131 | a numeric outcome is recorded under both team pairings with the same line and book |
| OddsProps.IgnoredOutcomes | app/services/odds_api_nfl_props.py:119-127 | markets outside `MARKET_MAP` and outcomes without a point record nothing |
| NflPropsRoutes.CacheKeyCollisions | app/routers/nfl_props_routes.py:30-47 | two requests share a cache key exactly when every field is equal or blank on both sides, so None and 0 or "" collide |
| NflPropsRoutes.LookupStore | app/routers/nfl_props_routes.py:50-85 | a stored response is found until thirty minutes after the write; a write touches only its key; an expired read removes only its key |
| NflPropsRoutes.EdgeCache.constructor | app/routers/nfl_props_routes.py:26 | the cache starts empty |
| NflPropsRoutes.EdgeCache.Get | app/routers/nfl_props_routes.py:50-67 | `_get_cached_edges` answers and updates the cache as `Lookup` says |
| NflPropsRoutes.EdgeCache.Set | app/routers/nfl_props_routes.py:70-85 | `_set_cached_edges` leaves the cache as `Store` says |
| NflPropsRoutes.EdgeCache.EdgesSimple | app/routers/nfl_props_routes.py:298-364 | the endpoint replies and leaves the cache as `EdgesSimpleSpec` says |
| NflPropsRoutes.LastWriteHeld | app/routers/nfl_props_routes.py:61-85 | after any time-ordered reads and writes a key holds its last write, or that write has expired |
| NflPropsRoutes.LatestWriteWins | app/routers/nfl_props_routes.py:61-85 | a read finds the latest write to its key while it is fresh, and nothing after |
| NflPropsRoutes.NeverWrittenNeverFound | app/routers/nfl_props_routes.py:61-67 | a key never written is never found |
| NflPropsRoutes.DefaultPositionsCover | app/routers/nfl_props_routes.py:88-100 | given positions win; otherwise a default exists exactly for the five known stats |
| NflPropsRoutes.NormalizeRows | app/routers/nfl_props_routes.py:103-166 | only an empty tuple raises; rows come back truthy or `[]`; diagnostics come back truthy or `{}`, except that a tuple of four or more items keeps any fourth item that is not None as it is, falsy ones (`0`, say) included |
| NflPropsRoutes.NormalizeIdempotent | app/routers/nfl_props_routes.py:119-130 | a normalised result whose diagnostics are truthy or `{}` normalises to itself again |
| NflPropsRoutes.TupleMatchesDict | app/routers/nfl_props_routes.py:119-158 | a four-tuple whose season and week are not None and whose diagnostics are truthy reads like the dict with the same fields |
| NflPropsRoutes.FalsyDiagnosticsKept | app/routers/nfl_props_routes.py:124-146 | `([], 2024, 1, 0)` keeps diagnostics `0`; its dict form normalises to diagnostics `{}`, so neither idempotence nor the tuple/dict agreement holds for falsy diagnostics |
| NflPropsRoutes.NullSeason | app/routers/nfl_props_routes.py:119-145 | a dict keeps an explicit null season while a tuple and a missing key fall back to the default |
| NflPropsRoutes.NormalizeFallbacks | app/routers/nfl_props_routes.py:135-166 | other types give no rows, the defaults and a warning; short tuples take the default season and week |
| NflPropsRoutes.TakePrefix | app/routers/nfl_props_routes.py:282-283 | `rows[:limit]` is a prefix of at most `limit` rows, all of them when fewer |
| NflPropsRoutes.PropEdgesShape | app/routers/nfl_props_routes.py:246-291 | 400 exactly for a blank stat, 500 exactly when the fetch raises, else the stripped stat with at most `limit` leading rows |
| NflPropsRoutes.UnsupportedLabel | app/routers/nfl_props_routes.py:315-317 | 400 exactly for an unknown label, and the cache is untouched |
| NflPropsRoutes.DebugBypassesCache | app/routers/nfl_props_routes.py:322-362 | in debug mode the cache is neither read nor written |
| NflPropsRoutes.EdgesSimpleShape | app/routers/nfl_props_routes.py:319-362 | a reply carries the mapped stat and at most `limit` rows, and outside debug its key is then cached |
| NflPropsRoutes.CachedRowsKeepFirstLimit | app/routers/nfl_props_routes.py:323-330 | a repeat within thirty minutes serves the cached reply cut to the new limit, so never more rows than the first limit |
| NflPropsRoutes.WithoutMarkets | app/routers/nfl_props_routes.py:227-230 | each row with market and edge cleared, in order |
| NflPropsRoutes.GatherStep | app/routers/nfl_props_routes.py:196-232 | the stat loop extends by one stripped stat unless it already raised |
| NflPropsRoutes.AddStat | app/routers/nfl_props_routes.py:197-232 | one stat's body computes `StatStep` |
| NflPropsRoutes.GatherParts | app/routers/nfl_props_routes.py:196-232 | the loop computes `Gather` over the parts |
| NflPropsRoutes.GatherProps | app/routers/nfl_props_routes.py:173-239 | `nfl_player_props` computes `PlayerProps` |
| NflPropsRoutes.GatherStuck | app/routers/nfl_props_routes.py:219 | once a stat raised, the whole call raises |
| NflPropsRoutes.GatherKeepsGiven | app/routers/nfl_props_routes.py:221-224 | a season or week already chosen is kept |
| NflPropsRoutes.GatherStripsMarkets | app/routers/nfl_props_routes.py:227-230 | without markets no row carries a market or an edge |
| NflPropsRoutes.AnsweredMeaning | app/routers/nfl_props_routes.py:196-217 | a stat is answered exactly when it is a non-blank stripped part whose fetch did not raise |
| NflPropsRoutes.GatherDiagnostics | app/routers/nfl_props_routes.py:232 | diagnostics have a key for exactly the answered stats |
| NflPropsRoutes.AllCallsFail | app/routers/nfl_props_routes.py:215-217 | when every fetch raises the aggregate is returned unchanged |
| NflPropsRoutes.ServiceCallsFail | app/routers/nfl_props_routes.py:203-345 | with every service call raising, `/api/nfl/player_props/edges` answers 500 for each stat that is not blank, `/api/nfl/player_props/edges_simple` answers 500 for each supported label and caches nothing, and `/api/nfl/player_props` returns no rows and no diagnostics |
| NflPropsModel.PosFromName | app/models/nfl_props_model.py:17-25 | the guess is always a position with baselines |
| NflPropsModel.PosFromNameMeaning | app/models/nfl_props_model.py:17-25 | each guess means its tag is present and no earlier position's; no tag gives WR |
| NflPropsModel.PosCaseInsensitive | app/models/nfl_props_model.py:19 | the guess ignores the case of the name |
| NflPropsModel.LeadingRbIsReceiver | app/models/nfl_props_model.py:20-27 | every name that begins "rb " and carries no tag after its first two letters is a receiver, not a running back |
| NflPropsModel.BareTagAtStart | app/models/nfl_props_model.py:20-21 | every name whose lower-cased form begins "qb " is a quarterback, while "rb x" is a receiver, since only the QB tag needs no leading space |
| NflPropsModel.AdjFactor | app/models/nfl_props_model.py:27-39 | the factor lies in 0.85..1.15 |
| NflPropsModel.AdjDefaults | app/models/nfl_props_model.py:32-39 | a missing total counts as 43 and a missing spread as 0; with neither the factor is 1 |
| NflPropsModel.AdjMonotoneInTotal | app/models/nfl_props_model.py:37-39 | a higher total never lowers the factor for any spread up to 200 |
| NflPropsModel.PositionChoice | app/models/nfl_props_model.py:53-54 | a given position, upper-cased, overrides the name; unknown positions take WR baselines |
| NflPropsModel.ProjectionKeys | app/models/nfl_props_model.py:53-63 | the projection has the baseline's stats, each but passing touchdowns within 0.85..1.15 times its baseline |
| NflPropsModel.UnknownPositionIsReceiver | app/models/nfl_props_model.py:53-54 | an unknown position gets receiving yards and receptions only |
| Db.Find | app/core/db.py:28 | the first occurrence, with none before it, or None when there is none |
| Db.SchemeIsAsyncpg | app/core/db.py:23-28 | every URL comes out on postgresql+asyncpg:// |
| Db.AsyncpgKept | app/core/db.py:27 | a URL already on postgresql+asyncpg:// is unchanged |
| Db.KnownSchemesKeepRemainder | app/core/db.py:23-28 | the three PostgreSQL schemes keep everything after the scheme |
| Db.ForeignPrefixedWhole | app/core/db.py:27-28 | a foreign URL with no "postgresql://" is prefixed whole |
| Db.TextBeforePostgresqlDropped | app/core/db.py:28 | text before the first "postgresql://" is dropped |
| Db.SchemeIdempotent | app/core/db.py:23-28 | rewriting the scheme twice is rewriting it once |
| Db.SslModeDefault | app/core/db.py:31-36 | sslmode is kept when given, else "require"; other parameters are kept |
| Db.EnsureAsyncpgMeaning | app/core/db.py:11-46 | only the empty URL comes back empty; any other is asyncpg with sslmode, and a second pass changes nothing |

## Left out

- **Network, retries and timeouts.**
  - HTTP clients, retries, back-off, timeouts and logging are not modelled.
  - Each request is a table lookup whose answer is a reply or a failure.
- **Concurrency.**
  - `asyncio.gather` and the semaphores in `app/services/odds_api.py` and
    `app/services/odds_api_nfl_props.py` are not modelled.
  - Events are processed one after another, in list order. Concurrently, a
    key written by two events would keep whichever finished last.
- **Clocks and time zones.**
  - `datetime.now`, `date.today` and `utcnow` are parameters.
  - The America/New_York conversion and the fixed UTC-5 offset are assumed
    already applied to the `today` date given.
  - `datetime.combine` in `week_window` is read as its date.
  - The two clock reads of the cached edges endpoint are the parameters
    `readAt` and `writeAt`.
- **Floating point.**
  - Scores and averages are integers and exact rationals.
  - Betting lines, edges and projections are exact reals.
  - Every `round(...)` is dropped.
- **Text.**
  - Character classes, `lower`/`upper` and `strip` are Python's restricted to
    ASCII (plus the Latin-1 spaces `strip` removes); non-ASCII letters and
    digits are not modelled.
  - `int(text)` does not accept `_` digit separators here.
- **Calendar.**
  - Years are 1..9999 as in `datetime.date`.
  - `datetime.fromisoformat` is Python 3.10's, which reads only YYYY-MM-DD.
    From Python 3.11 on it also reads ISO week dates and compact dates, so
    `app/services/espn_nhl.py:50-52` would turn "2024-W03-1" into
    "20240115", where the model (`Calendar.ParseIso`,
    `EspnNhl.NhlYyyymmdd`) falls back to today. 3.10 is the oldest Python
    that runs the `str | None` annotations of the routers.
  - `strftime("%Y")` is modelled as padding to four digits; the C library
    does not pad years below 1000.
- FormRoutes.Contribution: scores are read as whole numbers (text that is
  not an integer counts 0), where `app/routers/form_routes.py:180-187`
  uses `float(score or 0)`: "70.5" and "1e2" count 70.5 and 100.0 there
  and 0 in the model, and `SummarizeTeamForm` inherits this.
- **Prop service calls.**
  - The prop service called with eight positional arguments at
    `app/routers/nfl_props_routes.py:205`, `:266` and `:334` is not called.
    Python raises TypeError there, since the function takes seven.
  - Its result is an input of each endpoint: `fetched` (None is the
    exception) or the table `fetch` (a stat missing from it raised).
  - The model thus covers every outcome, the one Python really produces
    included.
- **NFL odds import.**
  - `app/routers/nfl_routes.py:17` imports `get_nfl_fg_lines` from
    `app/services/odds_api.py`, which defines no such name (only the
    functions at its lines 12-84). The import raises ImportError, so the
    router module does not load and `app/main.py:13-20` fails at start-up.
  - `NflRoutes` models the router as if that name resolved to a loader that
    returns the odds table: the lines are a given table, or None when
    loading them failed.
- **NFL scope.** The direct calls to `nfl_slate` answer 400 as written (see
  Findings). The lemmas below state what the endpoints give once "FG" is
  passed, which is not what the code as written answers:
- EdgesForShape: states `nfl_edges` with scope "FG" passed; as written it
  answers 400 for every input (`NflRoutes.DirectCallsRejected`).
- ThisWeekIsCurrent: states `nfl_this_week` with scope "FG" passed; as
  written it answers 400 for every input.
- WhenParsed: states `nfl_projections_simple` with scope "FG" passed; as
  written every branch, the parsed week and its fallback included, answers
  400.
- EdgesSimpleShape: states `nfl_edges_simple` with scope "FG" passed; as
  written it answers 400 for every input.
- **Projections.** `project_nfl_fg` and the hash or random placeholder models
  (`app/models/cbb_model.py`, `app/models/nfl_model.py`,
  `app/services/props_nfl.py`, `project_nhl_fg`) are given as a table of
  projections rather than computed.
- **Exception kinds.** ESPN events that are a dict or a string raise
  AttributeError in `app/services/espn_nhl.py`. The model records TypeError
  for them, the kind a number or null would raise; its only caller lets
  both escape alike.
- **Odds fields.**
  - An odds point is a number, null or some other value; a point given as
    numeric text is counted among the other values.
  - A bookmaker, market or outcome is always an object here (`Bookmaker`,
    `Market`, `Quote` in `OddsApi`; `PropBook`, `PropMarket`, `PropQuote` in
    `OddsProps`). An entry given as a string or a number cannot be
    represented. In the source its `.get` raises inside the per-event `try`:
    `app/services/odds_api.py:160-161` then writes nothing for that event,
    while `app/services/odds_api_nfl_props.py:148-150` keeps what the event
    wrote before the bad entry.
  - The `position: None` field of a prop entry is omitted.
- **Non-list rows.**
  - A truthy prop-service `rows` value that is not a list (a dict, say) is
    modelled as the TypeError that slicing it raises.
  - The bulk endpoint would instead iterate such a value, for a dict over
    its keys; that case is not modelled.
  - Extra fields that a row carries through `{**r}` are not modelled: a row
    is its player, market and edge.
- **Scoreboard bodies.** A scoreboard reply that is JSON but not an
  object (a list, say) makes `data.get("events")` raise AttributeError, in
  `app/routers/form_routes.py:38` and in `app/services/last5_form.py:163`.
  The latter sits outside the `try`, so the error escapes `last5_form`
  instead of skipping the day. The model's replies are objects, a body that
  is not JSON at all, or a failure.
- **Query defaults.** `Query(...)` defaults such as region "us" and limit
  25 are the caller's business; the model takes every parameter explicitly.
  The `scope` default that direct Python calls leave in place is the
  exception (see NFL scope).
  The validation of `limit` to 1..200 is a precondition of the edges
  endpoints.
- **Database URL.**
  - The URL is given as the text before its query plus the query as a map.
  - Db.EnsureAsyncpg: the scheme rewrite sees only the text before the
    query, where `app/core/db.py:23-28` works on the whole URL. The two
    differ when the query holds "postgresql://": `mysql://h?x=postgresql://y`
    becomes `postgresql+asyncpg://y` in the source, while the model prefixes
    `mysql://h` and keeps the query.
  - `urlparse`/`urlunparse` details, the order and escaping that `urlencode`
    produces and `parse_qsl`'s blank-value handling are not modelled.
  - The engine, session and `exec_*` functions of `app/core/db.py` are I/O.
- **Wrappers.** These are routers and services that only forward calls:
  - `app/services/espn_cfb.py`, `app/services/espn.py`,
    `app/core/persist.py`, `app/main.py`;
  - the debug, NHL, CFB and CBB routers.
- `NflRoutes.TopRowsBound` states the row count against the clamped limit;
  the clamp itself, 1..100, is stated by `NflRoutes.ClampLimit`.
- `NflPropsRoutes.GatherProps` is proved equal to `PlayerProps` for any
  stats text. The split of the default stats text into its five names is
  not stated as a lemma.

## Findings

| source | as written | input that shows it | evidently intended | confidence | as-written member | corrected member |
|---|---|---|---|---|---|---|
| app/routers/nfl_routes.py:94-99 | `nfl_edges`, `nfl_this_week` and `nfl_week_slate` call `nfl_slate` without `scope`, so it keeps its `Query("FG", ...)` default, which is not the string "FG", and `nfl_slate` raises 400 "NFL supports FG scope only"; `nfl_projections_simple` and `nfl_edges_simple` reach it through them | GET `/api/nfl/this_week`, with any parameters | the direct calls serve the FG slate, as a request to `/api/nfl/slate` does | not executed | NflRoutes.DirectCallsRejected | NflRoutes.FgScopeServes |
| app/routers/nfl_props_routes.py:265-275 | the call of `get_nfl_player_prop_lines` in `nfl_player_prop_edges` (like those at :204 and :334) passes eight positional arguments to a function that takes seven (`app/services/odds_api_nfl_props.py:58-66`), so each raises TypeError, which the endpoint catches | GET `/api/nfl/player_props/edges?stat=receiving%20yards`, with any other parameters | season, week, the stats, region and bookmakers are passed by keyword and the fetched lines are used | not executed | NflPropsRoutes.ServiceCallsFail | NflPropsRoutes.PropEdgesShape |
