/** The "last N games" scan of `app/services/last5_form.py`: walk back day by
    day from yesterday over ESPN scoreboards, keep finished games of one team,
    turn each into a row of full-game and first-half-equivalent scores, and
    average the columns.  The scoreboard service is the map `net` of answers by
    day number; the scan skips a day whose request failed in any way. */
module Last5Form {
  import opened Common
  import opened Scoreboard
  import opened DayScan

  /** One entry of `SPORT_CONFIG`. */
  datatype SportConfig = SportConfig(sitePath: string, periodMode: PeriodMode)

  /** `period_mode`: what counts as the first half of a game. */
  datatype PeriodMode = Half | Quarter | Period

  /** `SPORT_CONFIG.get(sport)`. */
  function Config(sport: string): (r: Option<SportConfig>)
    ensures r.Some? <==> sport in {"cbb", "nfl", "cfb", "nhl"}
    ensures r.Some? ==> (r.value.periodMode == Half <==> sport == "cbb")
    ensures r.Some? ==> (r.value.periodMode == Period <==> sport == "nhl")
  {
    if sport == "cbb" then Some(SportConfig("basketball/mens-college-basketball", Half))
    else if sport == "nfl" then Some(SportConfig("football/nfl", Quarter))
    else if sport == "cfb" then Some(SportConfig("football/college-football", Quarter))
    else if sport == "nhl" then Some(SportConfig("hockey/nhl", Period))
    else None
  }

  /** Scores of one game from the team's side: first-half-equivalent and full game. */
  datatype Scores = Scores(team1H: int, opp1H: int, teamFull: int, oppFull: int)

  const NoScores: Scores := Scores(0, 0, 0, 0)

  /** `_val(ls, i)`: the i-th period value as an int; a missing or unreadable entry is 0. */
  function LineValue(ls: seq<Linescore>, i: nat): int
  {
    if i < |ls| then IntOrZero(ls[i].value) else 0
  }

  /** The first-half-equivalent score under a period mode: the first half, the
      first two quarters, or the first period. */
  function FirstHalf(ls: seq<Linescore>, mode: PeriodMode): (r: int)
    ensures mode != Quarter ==> r == LineValue(ls, 0)
    ensures mode == Quarter ==> r == LineValue(ls, 0) + LineValue(ls, 1)
  {
    match mode
    case Half => LineValue(ls, 0)
    case Quarter => LineValue(ls, 0) + LineValue(ls, 1)
    case Period => LineValue(ls, 0)
  }

  /** `competitors[1 - idx]`, read with Python's negative indexing. */
  function OpponentIndex(idx: nat, len: nat): (j: nat)
    requires idx < len && len >= 2
    ensures j < len
  {
    PyIndex(len, 1 - idx)
  }

  /** `_extract_scores_for_team`: the scores of the first competitor with `teamId`
      and of the competitor at `1 - idx`; all zero when there are fewer than two
      competitors or the team is not among them.  `mode` is the sport's period mode. */
  function ExtractScores(comp: Competition, teamId: string, mode: PeriodMode): (r: Scores)
    ensures |comp.competitors| < 2 || FindTeam(comp.competitors, teamId).None? ==> r == NoScores
  {
    var cs := comp.competitors;
    if |cs| < 2 then NoScores
    else match FindTeam(cs, teamId)
      case None => NoScores
      case Some(idx) =>
        var me := cs[idx];
        var opp := cs[OpponentIndex(idx, |cs|)];
        Scores(FirstHalf(me.linescores, mode), FirstHalf(opp.linescores, mode),
               IntOrZero(me.score), IntOrZero(opp.score))
  }

  /** In a two-team game the scores seen from the other side are the same scores swapped. */
  lemma ExtractScoresSwap(comp: Competition, a: string, b: string, mode: PeriodMode)
    requires |comp.competitors| == 2 && a != b
    requires Matches(comp.competitors[0], a) && Matches(comp.competitors[1], b)
    ensures var x := ExtractScores(comp, a, mode);
            var y := ExtractScores(comp, b, mode);
            y == Scores(x.opp1H, x.team1H, x.oppFull, x.teamFull)
  {
    var cs := comp.competitors;
    assert FindTeam(cs, a) == Some(0);
    assert FindTeam(cs, b) == Some(1);
  }

  // ---------------------------------------------------------------------
  // Which events the scan keeps, and the row built from each
  // ---------------------------------------------------------------------

  /** A final game of the team: it has a first competition that is completed or in
      state "post", with at least two competitors, one of them the team. */
  predicate Qualifies(ev: Event, teamId: string)
  {
    |ev.competitions| > 0
    && var comp := ev.competitions[0];
    (comp.status.completed || comp.status.state == Some("post"))
    && |comp.competitors| >= 2
    && FindTeam(comp.competitors, teamId).Some?
  }

  /** One entry of `games`; the two totals are derived from the scores. */
  datatype Row = Row(
    eventId: string,
    date: Option<string>,
    opponent: Option<string>,
    opponentId: Option<string>,
    homeAway: Option<string>,
    team1H: int, opp1H: int,
    teamFull: int, oppFull: int,
    result: GameResult)
  {
    function Total1H(): int { team1H + opp1H }
    function TotalFull(): int { teamFull + oppFull }
  }

  /** The `result` field: "W", "L" or "T". */
  datatype GameResult = W | L | T

  /** W, L or T by comparing the full-game scores. */
  function Outcome(team: int, opp: int): (r: GameResult)
    ensures r == W <==> team > opp
    ensures r == L <==> team < opp
    ensures r == T <==> team == opp
  {
    if team > opp then W else if team < opp then L else T
  }

  /** The row of a qualifying event: the scores come from `ExtractScores`, the
      opponent is the competitor at `1 - idx`, the result compares full scores. */
  function BuildRow(ev: Event, teamId: string, mode: PeriodMode): (row: Row)
    requires Qualifies(ev, teamId)
    ensures var s := ExtractScores(ev.competitions[0], teamId, mode);
            row.team1H == s.team1H && row.opp1H == s.opp1H && row.teamFull == s.teamFull && row.oppFull == s.oppFull
    ensures row.result == Outcome(row.teamFull, row.oppFull)
  {
    var comp := ev.competitions[0];
    var cs := comp.competitors;
    var idx := FindTeam(cs, teamId).value;
    var oppTeam := cs[OpponentIndex(idx, |cs|)].team;
    var s := ExtractScores(comp, teamId, mode);
    Row(IdStr(Or(ev.id, comp.id)), ev.date,
        Or(oppTeam.displayName, oppTeam.name), oppTeam.id,
        cs[idx].homeAway,
        s.team1H, s.opp1H, s.teamFull, s.oppFull,
        Outcome(s.teamFull, s.oppFull))
  }

  /** The team's name as the scan records it from a qualifying event. */
  function TeamNameIn(ev: Event, teamId: string): string
    requires Qualifies(ev, teamId)
  {
    var cs := ev.competitions[0].competitors;
    var t := cs[FindTeam(cs, teamId).value].team;
    OrElse(Or(t.displayName, t.name), teamId)
  }

  /** What the scan takes from a qualifying event: its row and the team's name there. */
  datatype Kept = Kept(row: Row, name: string)

  /** The per-event step of the scan: a qualifying event yields its row and the
      team's name, any other event nothing. */
  function KeptAt(ev: Event, teamId: string, mode: PeriodMode): Option<Kept>
  {
    if Qualifies(ev, teamId)
    then Some(Kept(BuildRow(ev, teamId, mode), TeamNameIn(ev, teamId)))
    else None
  }

  /** What the scan takes from each event of a scoreboard, in order. */
  function Picks(events: seq<Event>, teamId: string, mode: PeriodMode): (ps: seq<Option<Kept>>)
    ensures |ps| == |events|
    ensures forall i | 0 <= i < |events| :: ps[i] == KeptAt(events[i], teamId, mode)
  {
    seq(|events|, i requires 0 <= i < |events| => KeptAt(events[i], teamId, mode))
  }

  /** What one day keeps when nothing bounds it: the entries of its qualifying
      events, in upstream order; a failed request keeps nothing. */
  function DayKept(net: map<int, DayFetch>, day: int, teamId: string, mode: PeriodMode): seq<Kept>
  {
    var evs := DayEvents(net, day);
    KeepOf(evs, teamId, mode, |evs|)
  }

  /** What the first `j` events of a scoreboard keep, in upstream order. */
  function KeepOf(events: seq<Event>, teamId: string, mode: PeriodMode, j: nat): seq<Kept>
    requires j <= |events|
  {
    if j == 0 then []
    else
      var p := KeptAt(events[j - 1], teamId, mode);
      KeepOf(events, teamId, mode, j - 1) + (if p.Some? then [p.value] else [])
  }

  /** Keeping is collecting what the events yield. */
  lemma {:induction false} KeepOfSomes(events: seq<Event>, teamId: string, mode: PeriodMode, j: nat)
    requires j <= |events|
    ensures KeepOf(events, teamId, mode, j) == Somes(Picks(events, teamId, mode), j)
  {
    if j > 0 {
      KeepOfSomes(events, teamId, mode, j - 1);
    }
  }

  /** What the days yesterday, the day before, ..., `k` days ago keep, newest day first. */
  function DaysKept(net: map<int, DayFetch>, today: int, teamId: string, mode: PeriodMode, k: nat): (d: seq<seq<Kept>>)
    ensures |d| == k
  {
    if k == 0 then [] else DaysKept(net, today, teamId, mode, k - 1) + [DayKept(net, today - k, teamId, mode)]
  }

  /** Day `i` of the walk is the day `i + 1` days before today. */
  lemma {:induction false} DaysKeptAt(net: map<int, DayFetch>, today: int, teamId: string, mode: PeriodMode, k: nat, i: nat)
    requires i < k
    ensures DaysKept(net, today, teamId, mode, k)[i] == DayKept(net, today - (i + 1), teamId, mode)
  {
    if i < k - 1 {
      DaysKeptAt(net, today, teamId, mode, k - 1, i);
    }
  }

  /** Today's scoreboard is never consulted: the walk starts with yesterday. */
  lemma {:induction false} DaysKeptIgnoresToday(net: map<int, DayFetch>, today: int, teamId: string, mode: PeriodMode,
                                                k: nat, answer: DayFetch)
    ensures DaysKept(net[today := answer], today, teamId, mode, k) == DaysKept(net, today, teamId, mode, k)
  {
    if k > 0 {
      DaysKeptIgnoresToday(net, today, teamId, mode, k - 1, answer);
      assert Answer(net[today := answer], today - k) == Answer(net, today - k);
    }
  }

  /** What the scan collects: the first `n` entries kept over the days yesterday ..
      `days` days ago, newest day first. */
  function Collected(net: map<int, DayFetch>, today: int, teamId: string, mode: PeriodMode, n: int, days: int): (r: seq<Kept>)
    ensures |r| <= Cap(n)
  {
    Take(Joined(DaysKept(net, today, teamId, mode, Cap(days)), Cap(days)), Cap(n))
  }

  /** Everything one day keeps comes from a qualifying event of the team on that
      day's scoreboard, with that event's row and the team's name in it. */
  lemma DayKeptSound(net: map<int, DayFetch>, day: int, teamId: string, mode: PeriodMode)
    ensures forall x | x in DayKept(net, day, teamId, mode) ::
      exists e | e in DayEvents(net, day) ::
        Qualifies(e, teamId) && x == Kept(BuildRow(e, teamId, mode), TeamNameIn(e, teamId))
  {
    var evs := DayEvents(net, day);
    var ps := Picks(evs, teamId, mode);
    KeepOfSomes(evs, teamId, mode, |evs|);
    SomesSound(ps, |ps|);
    forall x | x in DayKept(net, day, teamId, mode)
      ensures exists e | e in DayEvents(net, day) ::
        Qualifies(e, teamId) && x == Kept(BuildRow(e, teamId, mode), TeamNameIn(e, teamId))
    {
      var j :| 0 <= j < |ps| && ps[j] == Some(x);
      assert evs[j] in evs;
    }
  }

  /** Every collected game is a qualifying event of the team, from one of the days
      yesterday .. `days` days ago, and carries that event's row and the team's name in it. */
  lemma CollectedQualify(net: map<int, DayFetch>, today: int, teamId: string, mode: PeriodMode, n: int, days: int)
    ensures forall x | x in Collected(net, today, teamId, mode, n, days) ::
      exists d, e | today - Cap(days) <= d < today && e in DayEvents(net, d) ::
        Qualifies(e, teamId) && x == Kept(BuildRow(e, teamId, mode), TeamNameIn(e, teamId))
  {
    var k := Cap(days);
    var dk := DaysKept(net, today, teamId, mode, k);
    JoinedSound(dk, k);
    TakePrefix(Joined(dk, k), Cap(n));
    forall x | x in Collected(net, today, teamId, mode, n, days)
      ensures exists d, e | today - k <= d < today && e in DayEvents(net, d) ::
        Qualifies(e, teamId) && x == Kept(BuildRow(e, teamId, mode), TeamNameIn(e, teamId))
    {
      assert x in Joined(dk, k);
      var i :| 0 <= i < k && x in dk[i];
      DaysKeptAt(net, today, teamId, mode, k, i);
      DayKeptSound(net, today - (i + 1), teamId, mode);
      var e :| e in DayEvents(net, today - (i + 1)) &&
        Qualifies(e, teamId) && x == Kept(BuildRow(e, teamId, mode), TeamNameIn(e, teamId));
    }
  }


  /** While the days hold at most `n` qualifying games between them, none is
      missed: each qualifying event of the team on those days is collected. */
  lemma CollectedComplete(net: map<int, DayFetch>, today: int, teamId: string, mode: PeriodMode, n: int, days: int,
                          i: nat, j: nat)
    requires i < Cap(days)
    requires |Joined(DaysKept(net, today, teamId, mode, Cap(days)), Cap(days))| <= n
    requires j < |DayEvents(net, today - (i + 1))| && Qualifies(DayEvents(net, today - (i + 1))[j], teamId)
    ensures var e := DayEvents(net, today - (i + 1))[j];
      Kept(BuildRow(e, teamId, mode), TeamNameIn(e, teamId)) in Collected(net, today, teamId, mode, n, days)
  {
    var k := Cap(days);
    var dk := DaysKept(net, today, teamId, mode, k);
    var evs := DayEvents(net, today - (i + 1));
    var ps := Picks(evs, teamId, mode);
    SomesComplete(ps, j, |ps|);
    KeepOfSomes(evs, teamId, mode, |evs|);
    DaysKeptAt(net, today, teamId, mode, k, i);
    JoinedComplete(dk, i, k, ps[j].value);
  }

  // ---------------------------------------------------------------------
  // Averages and the response
  // ---------------------------------------------------------------------

  function Sum(xs: seq<int>): int
  {
    if xs == [] then 0 else Sum(xs[..|xs| - 1]) + xs[|xs| - 1]
  }

  /** `_avg` without the final rounding: the exact mean, and 0.0 for no values. */
  function Avg(xs: seq<int>): (r: real)
    ensures xs == [] ==> r == 0.0
  {
    if xs == [] then 0.0 else Sum(xs) as real / |xs| as real
  }

  /** The mean times the number of values is their sum. */
  lemma AvgMean(xs: seq<int>)
    requires xs != []
    ensures Avg(xs) * |xs| as real == Sum(xs) as real
  {
  }

  /** Appending a value adds it to the sum. */
  lemma SumSnoc(xs: seq<int>, x: int)
    ensures Sum(xs + [x]) == Sum(xs) + x
  {
    assert (xs + [x])[..|xs|] == xs;
  }

  /** The mean of a sum of two columns is the sum of their means. */
  lemma AvgOfSum(xs: seq<int>, ys: seq<int>, zs: seq<int>)
    requires |xs| == |ys| == |zs|
    requires Sum(zs) == Sum(xs) + Sum(ys)
    ensures Avg(zs) == Avg(xs) + Avg(ys)
  {
    if zs != [] {
      DivAdd(Sum(xs) as real, Sum(ys) as real, |zs| as real);
    }
  }

  lemma DivAdd(a: real, b: real, n: real)
    requires n > 0.0
    ensures (a + b) / n == a / n + b / n
  {
  }

  /** The six per-game columns the averages are taken over. */
  datatype Column = Team1H | Opp1H | Total1H | TeamFull | OppFull | TotalFull

  function Cell(row: Row, c: Column): int
  {
    match c
    case Team1H => row.team1H
    case Opp1H => row.opp1H
    case Total1H => row.Total1H()
    case TeamFull => row.teamFull
    case OppFull => row.oppFull
    case TotalFull => row.TotalFull()
  }

  /** One column of the games, in order. */
  function Col(g: seq<Row>, c: Column): (xs: seq<int>)
    ensures |xs| == |g|
  {
    if g == [] then [] else Col(g[..|g| - 1], c) + [Cell(g[|g| - 1], c)]
  }

  /** Each total column sums to the sum of its two parts. */
  lemma {:induction false} ColumnTotals(g: seq<Row>)
    ensures Sum(Col(g, Total1H)) == Sum(Col(g, Team1H)) + Sum(Col(g, Opp1H))
    ensures Sum(Col(g, TotalFull)) == Sum(Col(g, TeamFull)) + Sum(Col(g, OppFull))
  {
    if g != [] {
      var front := g[..|g| - 1];
      var last := g[|g| - 1];
      ColumnTotals(front);
      SumSnoc(Col(front, Total1H), Cell(last, Total1H));
      SumSnoc(Col(front, Team1H), Cell(last, Team1H));
      SumSnoc(Col(front, Opp1H), Cell(last, Opp1H));
      SumSnoc(Col(front, TotalFull), Cell(last, TotalFull));
      SumSnoc(Col(front, TeamFull), Cell(last, TeamFull));
      SumSnoc(Col(front, OppFull), Cell(last, OppFull));
    }
  }

  datatype Summary = Summary(
    sport: string, teamId: string, teamName: string,
    nRequested: int, nFound: int, games: seq<Row>,
    avg1HScored: real, avg1HAllowed: real, avg1HTotal: real,
    avgFullScored: real, avgFullAllowed: real, avgFullTotal: real)

  /** The response of `get_last5_for_team` for the collected rows. */
  function Summarize(sport: string, teamId: string, teamName: Option<string>, n: int, games: seq<Row>): (r: Summary)
    ensures r.nFound == |r.games| && r.games == games && r.nRequested == n
    ensures teamName.None? ==> r.teamName == teamId
  {
    Summary(sport, teamId, OrElse(teamName, teamId), n, |games|, games,
            Avg(Col(games, Team1H)), Avg(Col(games, Opp1H)), Avg(Col(games, Total1H)),
            Avg(Col(games, TeamFull)), Avg(Col(games, OppFull)), Avg(Col(games, TotalFull)))
  }

  /** The averages of a response: each is the mean of its column (0.0 without
      games), and each total is the sum of the averages of its two parts. */
  lemma SummaryAverages(sport: string, teamId: string, teamName: Option<string>, n: int, games: seq<Row>)
    ensures var r := Summarize(sport, teamId, teamName, n, games);
      && r.avg1HTotal == r.avg1HScored + r.avg1HAllowed
      && r.avgFullTotal == r.avgFullScored + r.avgFullAllowed
  {
    ColumnTotals(games);
    AvgOfSum(Col(games, Team1H), Col(games, Opp1H), Col(games, Total1H));
    AvgOfSum(Col(games, TeamFull), Col(games, OppFull), Col(games, TotalFull));
  }

  /** The rows of kept games, in order. */
  function RowsOf(kept: seq<Kept>): (g: seq<Row>)
    ensures |g| == |kept|
    ensures forall i | 0 <= i < |kept| :: g[i] == kept[i].row
  {
    if kept == [] then [] else RowsOf(kept[..|kept| - 1]) + [kept[|kept| - 1].row]
  }

  /** The name recorded once, from the first kept game. */
  function FirstName(kept: seq<Kept>): Option<string>
  {
    if kept == [] then None else Some(kept[0].name)
  }

  datatype Result = Unsupported(sport: string) | Found(summary: Summary)

  /** One day of the scan: request the day (a failed request is skipped), then
      keep each qualifying event while fewer than `n` games are held. */
  method ScanDay(net: map<int, DayFetch>, day: int, teamId: string, mode: PeriodMode, n: int, kept0: seq<Kept>)
    returns (kept: seq<Kept>)
    requires |kept0| < n
    ensures kept == Take(kept0 + DayKept(net, day, teamId, mode), Cap(n))
  {
    kept := kept0;
    var data := Answer(net, day);
    if !data.Got? {
      return;
    }
    var events := data.events;
    ghost var ps := Picks(events, teamId, mode);
    var j := 0;
    while j < |events| && |kept| < n
      invariant 0 <= j <= |events|
      invariant Fill(ps, j, kept, Cap(n)) == Fill(ps, 0, kept0, Cap(n))
    {
      var p := KeptAt(events[j], teamId, mode);
      if p.Some? {
        kept := kept + [p.value];
      }
      j := j + 1;
    }
    FillFromStart(ps, kept0, Cap(n));
    KeepOfSomes(events, teamId, mode, |events|);
  }

  /** The loop over days as a function: from `walked` of `days` days done on,
      holding `kept`, scan the next day back while fewer than `n` games are held.
      Yields what is held and the number of days requested. */
  function ScanWalk(net: map<int, DayFetch>, today: int, teamId: string, mode: PeriodMode, n: nat, days: nat,
                    walked: nat, kept: seq<Kept>): (seq<Kept>, nat)
    decreases days - walked
  {
    if walked >= days || |kept| >= n then (kept, walked)
    else ScanWalk(net, today, teamId, mode, n, days, walked + 1,
                  Take(kept + DayKept(net, today - (walked + 1), teamId, mode), n))
  }

  /** The scan's walk is the walk over what the days yesterday, the day before, ... keep. */
  lemma {:induction false} ScanWalkIsWalk(net: map<int, DayFetch>, today: int, teamId: string, mode: PeriodMode,
                                          n: nat, days: nat, walked: nat, kept: seq<Kept>)
    requires walked <= days
    ensures ScanWalk(net, today, teamId, mode, n, days, walked, kept)
         == Walk(DaysKept(net, today, teamId, mode, days), n, walked, kept)
    decreases days - walked
  {
    if walked < days && |kept| < n {
      DaysKeptAt(net, today, teamId, mode, days, walked);
      ScanWalkIsWalk(net, today, teamId, mode, n, days, walked + 1,
                     Take(kept + DayKept(net, today - (walked + 1), teamId, mode), n));
    }
  }

  /** One day of the walk: a day scanned while fewer than `n` games are held
      leaves the rest of the walk where it was. */
  lemma ScanWalkStep(net: map<int, DayFetch>, today: int, teamId: string, mode: PeriodMode, n: nat, days: nat,
                     walked: nat, kept0: seq<Kept>, kept: seq<Kept>)
    requires walked < days && |kept0| < n
    requires kept == Take(kept0 + DayKept(net, today - (walked + 1), teamId, mode), n)
    ensures ScanWalk(net, today, teamId, mode, n, days, walked + 1, kept)
         == ScanWalk(net, today, teamId, mode, n, days, walked, kept0)
  {
  }

  /** The outer loop of `get_last5_for_team`: days yesterday, the day before, ...,
      at most `maxDaysBack` of them, while fewer than `n` games are held.  Returns
      what is held and the number of days requested. */
  method ScanDays(teamId: string, mode: PeriodMode, n: int, maxDaysBack: int,
                  today: int, net: map<int, DayFetch>)
    returns (kept: seq<Kept>, walked: nat)
    ensures (kept, walked) == ScanWalk(net, today, teamId, mode, Cap(n), Cap(maxDaysBack), 0, [])
  {
    kept := [];
    walked := 0;
    while walked < maxDaysBack && |kept| < n
      invariant ScanWalk(net, today, teamId, mode, Cap(n), Cap(maxDaysBack), walked, kept)
             == ScanWalk(net, today, teamId, mode, Cap(n), Cap(maxDaysBack), 0, [])
    {
      ghost var kept0 := kept;
      kept := ScanDay(net, today - (walked + 1), teamId, mode, n, kept);
      ScanWalkStep(net, today, teamId, mode, Cap(n), Cap(maxDaysBack), walked, kept0, kept);
      walked := walked + 1;
    }
  }

  /** What the scan over days yields: the first `n` games kept over the `days`
      days, after as many requests as it takes to hold `n` of them. */
  lemma ScanWalkMeaning(net: map<int, DayFetch>, today: int, teamId: string, mode: PeriodMode, n: int, days: int)
    ensures var w := ScanWalk(net, today, teamId, mode, Cap(n), Cap(days), 0, []);
      var dk := DaysKept(net, today, teamId, mode, Cap(days));
      && w.0 == Collected(net, today, teamId, mode, n, days)
      && w.1 <= Cap(days)
      && (w.1 > 0 ==> |Joined(dk, w.1 - 1)| < n)
      && (w.1 < Cap(days) ==> |Joined(dk, w.1)| >= n)
  {
    ScanWalkCollected(net, today, teamId, mode, n, days);
    ScanWalkDays(net, today, teamId, mode, n, days);
  }

  /** What the scan keeps. */
  lemma ScanWalkCollected(net: map<int, DayFetch>, today: int, teamId: string, mode: PeriodMode, n: int, days: int)
    ensures ScanWalk(net, today, teamId, mode, Cap(n), Cap(days), 0, []).0 == Collected(net, today, teamId, mode, n, days)
  {
    var dk := DaysKept(net, today, teamId, mode, Cap(days));
    ScanWalkIsWalk(net, today, teamId, mode, Cap(n), Cap(days), 0, []);
    WalkFromStart(dk, Cap(n));
  }

  /** How many days the scan requests. */
  lemma ScanWalkDays(net: map<int, DayFetch>, today: int, teamId: string, mode: PeriodMode, n: int, days: int)
    ensures var w := ScanWalk(net, today, teamId, mode, Cap(n), Cap(days), 0, []).1;
      var dk := DaysKept(net, today, teamId, mode, Cap(days));
      && w <= Cap(days)
      && (w > 0 ==> |Joined(dk, w - 1)| < n)
      && (w < Cap(days) ==> |Joined(dk, w)| >= n)
  {
    var dk := DaysKept(net, today, teamId, mode, Cap(days));
    var w := ScanWalk(net, today, teamId, mode, Cap(n), Cap(days), 0, []).1;
    ScanWalkIsWalk(net, today, teamId, mode, Cap(n), Cap(days), 0, []);
    assert w == Walk(dk, Cap(n), 0, []).1;
    WalkFromStart(dk, Cap(n));
    assert |dk| == Cap(days);
    assert n <= Cap(n) && (n < 0 || Cap(n) == n);
  }

  /** The response of `get_last5_for_team` and the number of days it requests. */
  function Last5(sport: string, teamId: string, n: int, maxDaysBack: int,
                 today: int, net: map<int, DayFetch>): (Result, nat)
  {
    var sp := LowerStr(sport);
    match Config(sp)
    case None => (Unsupported(sp), 0)
    case Some(cfg) =>
      var w := ScanWalk(net, today, teamId, cfg.periodMode, Cap(n), Cap(maxDaysBack), 0, []);
      (Found(Summarize(sp, teamId, FirstName(w.0), n, RowsOf(w.0))), w.1)
  }

  /** An unknown sport is rejected before any request. */
  lemma Last5Unsupported(sport: string, teamId: string, n: int, maxDaysBack: int,
                         today: int, net: map<int, DayFetch>)
    ensures var (r, walked) := Last5(sport, teamId, n, maxDaysBack, today, net);
      && (r.Unsupported? <==> Config(LowerStr(sport)).None?)
      && (r.Unsupported? ==> r.sport == LowerStr(sport) && walked == 0)
  {
  }

  /** For a known sport the games are the rows of the first n qualifying events
      of the days yesterday, the day before, ..., newest day first. */
  lemma Last5Games(sport: string, teamId: string, n: int, maxDaysBack: int,
                   today: int, net: map<int, DayFetch>)
    requires Config(LowerStr(sport)).Some?
    ensures var kept := Collected(net, today, teamId, Config(LowerStr(sport)).value.periodMode, n, maxDaysBack);
      Last5(sport, teamId, n, maxDaysBack, today, net).0
        == Found(Summarize(LowerStr(sport), teamId, FirstName(kept), n, RowsOf(kept)))
  {
    ScanWalkMeaning(net, today, teamId, Config(LowerStr(sport)).value.periodMode, n, maxDaysBack);
  }

  /** For a known sport one request is made per day walked, within the budget:
      a day is requested only while fewer than n games are held, and the walk
      stops early only once n are held. */
  lemma Last5Requests(sport: string, teamId: string, n: int, maxDaysBack: int,
                      today: int, net: map<int, DayFetch>)
    requires Config(LowerStr(sport)).Some?
    ensures var walked := Last5(sport, teamId, n, maxDaysBack, today, net).1;
      var dk := DaysKept(net, today, teamId, Config(LowerStr(sport)).value.periodMode, Cap(maxDaysBack));
      && walked <= Cap(maxDaysBack)
      && (walked > 0 ==> |Joined(dk, walked - 1)| < n)
      && (walked < Cap(maxDaysBack) ==> |Joined(dk, walked)| >= n)
  {
    ScanWalkMeaning(net, today, teamId, Config(LowerStr(sport)).value.periodMode, n, maxDaysBack);
  }

  /** `get_last5_for_team`.  Returns the response and the number of days requested. */
  method GetLast5ForTeam(sport: string, teamId: string, n: int, maxDaysBack: int,
                         today: int, net: map<int, DayFetch>)
    returns (r: Result, walked: nat)
    ensures (r, walked) == Last5(sport, teamId, n, maxDaysBack, today, net)
  {
    var sp := LowerStr(sport);
    var cfg := Config(sp);
    if cfg.None? {
      return Unsupported(sp), 0;
    }
    var kept;
    kept, walked := ScanDays(teamId, cfg.value.periodMode, n, maxDaysBack, today, net);
    r := Found(Summarize(sp, teamId, FirstName(kept), n, RowsOf(kept)));
  }
}
