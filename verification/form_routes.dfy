/** The second "recent form" scanner, `app/routers/form_routes.py`: walk back
    from today (inclusive) over ESPN scoreboards, collect the raw events of
    completed games of one team, and summarise full-game scoring.  The
    scoreboard service is the map `net` of answers by day number.  Unlike the
    other scanner, only an HTTP status error skips a day; any other failure of
    the request ends the scan with an error. */
module FormRoutes {
  import opened Common
  import opened Scoreboard
  import opened DayScan

  /** `SPORT_SCOREBOARD_URLS` has an entry for the sport (the URLs themselves are
      only used for the request). */
  predicate HasScoreboard(sport: string)
  {
    sport == "cbb" || sport == "nfl" || sport == "nhl" || sport == "cfb"
  }

  /** The day budget the two endpoints scan with. */
  const MaxBackDays: int := 90

  /** `_event_includes_team`: some competitor of the first competition has the team's id. */
  predicate IncludesTeam(ev: Event, teamId: string)
  {
    FindTeam(FirstCompetition(ev).competitors, teamId).Some?
  }

  /** `_event_completed`: the first competition's `completed` flag; the state is not consulted. */
  predicate Completed(ev: Event)
  {
    FirstCompetition(ev).status.completed
  }

  /** What the scan takes from one event: the event itself, when it includes the
      team and is completed. */
  function GameAt(ev: Event, teamId: string): Option<Event>
  {
    if IncludesTeam(ev, teamId) && Completed(ev) then Some(ev) else None
  }

  /** An event whose state is "post" but whose `completed` flag is false is not
      taken, where the other scanner would take it. */
  lemma PostAloneNotEnough(ev: Event, teamId: string)
    requires |ev.competitions| > 0 && !ev.competitions[0].status.completed
    ensures GameAt(ev, teamId).None?
  {
  }

  // ---------------------------------------------------------------------
  // What a day keeps
  // ---------------------------------------------------------------------

  /** What the scan takes from each event of a scoreboard, in order. */
  function Picks(events: seq<Event>, teamId: string): (ps: seq<Option<Event>>)
    ensures |ps| == |events|
    ensures forall i | 0 <= i < |events| :: ps[i] == GameAt(events[i], teamId)
  {
    seq(|events|, i requires 0 <= i < |events| => GameAt(events[i], teamId))
  }

  /** What the first `j` events of a scoreboard keep, in upstream order. */
  function KeepOf(events: seq<Event>, teamId: string, j: nat): seq<Event>
    requires j <= |events|
  {
    if j == 0 then []
    else
      var p := GameAt(events[j - 1], teamId);
      KeepOf(events, teamId, j - 1) + (if p.Some? then [p.value] else [])
  }

  /** Keeping is collecting what the events yield. */
  lemma {:induction false} KeepOfSomes(events: seq<Event>, teamId: string, j: nat)
    requires j <= |events|
    ensures KeepOf(events, teamId, j) == Somes(Picks(events, teamId), j)
  {
    if j > 0 {
      KeepOfSomes(events, teamId, j - 1);
    }
  }

  /** What one day keeps when nothing bounds it: its completed events of the
      team, in upstream order; a day whose request failed keeps nothing. */
  function DayGames(net: map<int, DayFetch>, day: int, teamId: string): seq<Event>
  {
    var evs := DayEvents(net, day);
    KeepOf(evs, teamId, |evs|)
  }

  /** What the days today, yesterday, ..., `k - 1` days ago keep, newest day first. */
  function DaysGames(net: map<int, DayFetch>, today: int, teamId: string, k: nat): (d: seq<seq<Event>>)
    ensures |d| == k
  {
    if k == 0 then [] else DaysGames(net, today, teamId, k - 1) + [DayGames(net, today - (k - 1), teamId)]
  }

  /** Day `i` of the walk is the day `i` days before today. */
  lemma {:induction false} DaysGamesAt(net: map<int, DayFetch>, today: int, teamId: string, k: nat, i: nat)
    requires i < k
    ensures DaysGames(net, today, teamId, k)[i] == DayGames(net, today - i, teamId)
  {
    if i < k - 1 {
      DaysGamesAt(net, today, teamId, k - 1, i);
    }
  }

  /** Everything one day keeps is a completed event of the team from that day's scoreboard. */
  lemma DayGamesSound(net: map<int, DayFetch>, day: int, teamId: string)
    ensures forall x | x in DayGames(net, day, teamId) ::
      IncludesTeam(x, teamId) && Completed(x) && x in DayEvents(net, day)
  {
    var evs := DayEvents(net, day);
    var ps := Picks(evs, teamId);
    KeepOfSomes(evs, teamId, |evs|);
    SomesSound(ps, |ps|);
    forall x | x in DayGames(net, day, teamId)
      ensures IncludesTeam(x, teamId) && Completed(x) && x in DayEvents(net, day)
    {
      var j :| 0 <= j < |ps| && ps[j] == Some(x);
      assert evs[j] == x;
    }
  }

  /** Everything the first `k` days keep is a completed event of the team, taken
      from the scoreboard of one of those days. */
  lemma GamesSound(net: map<int, DayFetch>, today: int, teamId: string, days: nat, k: nat)
    requires k <= days
    ensures forall x | x in Joined(DaysGames(net, today, teamId, days), k) ::
      IncludesTeam(x, teamId) && Completed(x) && exists d | today - k < d <= today :: x in DayEvents(net, d)
  {
    var dk := DaysGames(net, today, teamId, days);
    JoinedSound(dk, k);
    forall x | x in Joined(dk, k)
      ensures IncludesTeam(x, teamId) && Completed(x)
      ensures exists d | today - k < d <= today :: x in DayEvents(net, d)
    {
      var i :| 0 <= i < k && x in dk[i];
      DaysGamesAt(net, today, teamId, days, i);
      DayGamesSound(net, today - i, teamId);
    }
  }


  /** No completed event of the team on the first `k` days is missed. */
  lemma GamesComplete(net: map<int, DayFetch>, today: int, teamId: string, days: nat, k: nat, i: nat, j: nat)
    requires i < k <= days
    requires j < |DayEvents(net, today - i)|
    requires IncludesTeam(DayEvents(net, today - i)[j], teamId) && Completed(DayEvents(net, today - i)[j])
    ensures DayEvents(net, today - i)[j] in Joined(DaysGames(net, today, teamId, days), k)
  {
    var dk := DaysGames(net, today, teamId, days);
    var evs := DayEvents(net, today - i);
    var ps := Picks(evs, teamId);
    SomesComplete(ps, j, |ps|);
    KeepOfSomes(evs, teamId, |evs|);
    DaysGamesAt(net, today, teamId, days, i);
    JoinedComplete(dk, i, k, evs[j]);
  }

  // ---------------------------------------------------------------------
  // `_get_last_n_games_for_team`
  // ---------------------------------------------------------------------

  /** The request for the day failed with something other than an HTTP status
      error (a body that is not JSON, or a failure of the transport): the
      exception leaves the scan. */
  predicate Failed(net: map<int, DayFetch>, day: int)
  {
    Answer(net, day).Undecodable? || Answer(net, day).TransportError?
  }

  /** The exception a failed day raises: the ValueError of decoding a body
      that is not JSON, or the transport's own. */
  function DayError(net: map<int, DayFetch>, day: int): ScanError
  {
    if Answer(net, day).Undecodable? then BodyNotJson(day) else RequestFailed(day)
  }

  /** The request for the day `i` days before today fails. */
  predicate FailsOn(net: map<int, DayFetch>, today: int, i: int)
  {
    Failed(net, today - i)
  }

  /** The day loop as a function: from `walked` of `days` days done on, holding
      `held`, request the next day back while fewer than `n` events are held.
      Yields what is held, the number of days requested, and whether the last
      request failed (ending the scan). */
  function FormWalk(net: map<int, DayFetch>, today: int, teamId: string, n: nat, days: nat,
                    walked: nat, held: seq<Event>): (seq<Event>, nat, bool)
    decreases days - walked
  {
    if walked >= days || |held| >= n then (held, walked, false)
    else if FailsOn(net, today, walked) then (held, walked + 1, true)
    else FormWalk(net, today, teamId, n, days, walked + 1, Take(held + DayGames(net, today - walked, teamId), n))
  }

  /** Which of the days today, yesterday, ..., `k - 1` days ago fail. */
  function FailsList(net: map<int, DayFetch>, today: int, k: nat): (fs: seq<bool>)
    ensures |fs| == k
  {
    if k == 0 then [] else FailsList(net, today, k - 1) + [FailsOn(net, today, k - 1)]
  }

  lemma {:induction false} FailsListAt(net: map<int, DayFetch>, today: int, k: nat, i: nat)
    requires i < k
    ensures FailsList(net, today, k)[i] == FailsOn(net, today, i)
  {
    if i < k - 1 {
      FailsListAt(net, today, k - 1, i);
    }
  }

  /** The scan's walk is the walk that a failure ends over what the days today,
      yesterday, ... keep and which of them fail. */
  lemma {:induction false} FormWalkIsWalkOrFail(net: map<int, DayFetch>, today: int, teamId: string, n: nat, days: nat,
                                                walked: nat, held: seq<Event>)
    requires walked <= days
    ensures FormWalk(net, today, teamId, n, days, walked, held)
         == WalkOrFail(DaysGames(net, today, teamId, days), FailsList(net, today, days), n, walked, held)
    decreases days - walked
  {
    if walked < days && |held| < n {
      DaysGamesAt(net, today, teamId, days, walked);
      FailsListAt(net, today, days, walked);
      if !FailsOn(net, today, walked) {
        FormWalkIsWalkOrFail(net, today, teamId, n, days, walked + 1,
                             Take(held + DayGames(net, today - walked, teamId), n));
      }
    }
  }

  /** What the scan yields: when no request among the days the walk reaches
      fails, the first `n` completed events of the team over the days, newest day
      first; otherwise the scan stops at the first failing day, having requested
      it and every day before it, holding what the days before it kept. */
  lemma FormWalkMeaning(net: map<int, DayFetch>, today: int, teamId: string, n: nat, days: nat)
    ensures var dk := DaysGames(net, today, teamId, days);
      var w := Walk(dk, n, 0, []);
      var r := FormWalk(net, today, teamId, n, days, 0, []);
      match FirstTrue(FailsList(net, today, days), 0, w.1)
      case None => r == (Take(Joined(dk, days), n), w.1, false)
      case Some(f) => r == (Take(Joined(dk, f), n), f + 1, true)
  {
    FormWalkIsWalkOrFail(net, today, teamId, n, days, 0, []);
    WalkOrFailFromStart(DaysGames(net, today, teamId, days), FailsList(net, today, days), n);
  }

  /** One day of the walk that did not fail leaves the rest of the walk where it was. */
  lemma FormWalkStep(net: map<int, DayFetch>, today: int, teamId: string, n: nat, days: nat,
                     walked: nat, held0: seq<Event>, held: seq<Event>)
    requires walked < days && |held0| < n && !Failed(net, today - walked)
    requires held == Take(held0 + DayGames(net, today - walked, teamId), n)
    ensures FormWalk(net, today, teamId, n, days, walked + 1, held)
         == FormWalk(net, today, teamId, n, days, walked, held0)
  {
  }

  /** A day whose request fails ends the walk. */
  lemma FormWalkFails(net: map<int, DayFetch>, today: int, teamId: string, n: nat, days: nat,
                      walked: nat, held: seq<Event>)
    requires walked < days && |held| < n && Failed(net, today - walked)
    ensures FormWalk(net, today, teamId, n, days, walked, held) == (held, walked + 1, true)
  {
  }

  /** The inner loop over one day's events: skip events without the team, skip
      events not completed, append the rest, stopping right after the `n`-th. */
  method CollectDay(events: seq<Event>, teamId: string, n: int, collected0: seq<Event>)
    returns (collected: seq<Event>)
    requires |collected0| < n
    ensures collected == Take(collected0 + KeepOf(events, teamId, |events|), Cap(n))
  {
    collected := collected0;
    ghost var ps := Picks(events, teamId);
    var j := 0;
    while j < |events|
      invariant 0 <= j <= |events|
      invariant |collected| < n
      invariant Fill(ps, j, collected, Cap(n)) == Fill(ps, 0, collected0, Cap(n))
    {
      var ev := events[j];
      j := j + 1;
      if !IncludesTeam(ev, teamId) {
        continue;
      }
      if !Completed(ev) {
        continue;
      }
      collected := collected + [ev];
      if |collected| >= n {
        break;
      }
    }
    FillFromStart(ps, collected0, Cap(n));
    KeepOfSomes(events, teamId, |events|);
  }

  /** One day of the scan: request the day; an HTTP status error skips it, any
      other failure is reported, and the events of a successful request are
      collected. */
  method FormDay(net: map<int, DayFetch>, day: int, teamId: string, n: int, collected0: seq<Event>)
    returns (collected: seq<Event>, failed: bool)
    requires |collected0| < n
    ensures failed == Failed(net, day)
    ensures failed ==> collected == collected0
    ensures !failed ==> collected == Take(collected0 + DayGames(net, day, teamId), Cap(n))
  {
    collected := collected0;
    var data := Answer(net, day);
    if data.Undecodable? || data.TransportError? {
      return collected, true;
    }
    failed := false;
    if data.Got? {
      collected := CollectDay(data.events, teamId, n, collected);
    }
  }

  /** The day loop of `_get_last_n_games_for_team` for a sport with a
      scoreboard: days today, yesterday, ..., at most `maxBackDays` of them,
      while fewer than `n` events are held. */
  method ScanForm(teamId: string, n: int, maxBackDays: int, today: int, net: map<int, DayFetch>)
    returns (collected: seq<Event>, requests: nat, failed: bool)
    ensures (collected, requests, failed) == FormWalk(net, today, teamId, Cap(n), Cap(maxBackDays), 0, [])
  {
    collected := [];
    requests := 0;
    failed := false;
    while requests < maxBackDays && |collected| < n
      invariant FormWalk(net, today, teamId, Cap(n), Cap(maxBackDays), requests, collected)
             == FormWalk(net, today, teamId, Cap(n), Cap(maxBackDays), 0, [])
    {
      var next, dayFailed := FormDay(net, today - requests, teamId, n, collected);
      if dayFailed {
        FormWalkFails(net, today, teamId, Cap(n), Cap(maxBackDays), requests, collected);
        return collected, requests + 1, true;
      }
      FormWalkStep(net, today, teamId, Cap(n), Cap(maxBackDays), requests, collected, next);
      collected := next;
      requests := requests + 1;
    }
  }

  /** Why a scan raised: the ValueError for a sport without a scoreboard, the
      ValueError of a day's body that is not JSON, or a failure of the request
      for a day that is not an HTTP status error. */
  datatype ScanError = UnsupportedSport(sport: string) | BodyNotJson(day: int) | RequestFailed(day: int)

  /** The exceptions that are ValueErrors, which `matchup_form` catches. */
  predicate IsValueError(e: ScanError)
  {
    e.UnsupportedSport? || e.BodyNotJson?
  }

  datatype ScanResult = Games(events: seq<Event>) | Raised(err: ScanError)

  /** `_get_last_n_games_for_team`.  The ValueError for a sport without a
      scoreboard is raised by the first request, so only when the loop runs at
      least once; otherwise the scan above.  Returns the outcome and the number
      of days requested. */
  method GetLastNGames(sport: string, teamId: string, n: int, maxBackDays: int,
                       today: int, net: map<int, DayFetch>)
    returns (r: ScanResult, requests: nat)
    ensures !HasScoreboard(sport) ==> requests == 0
    ensures !HasScoreboard(sport) ==> (r.Raised? <==> maxBackDays > 0 && n > 0)
    ensures !HasScoreboard(sport) && r.Raised? ==> r.err == UnsupportedSport(sport)
    ensures !HasScoreboard(sport) && r.Games? ==> r.events == []
    ensures HasScoreboard(sport) ==>
      var w := FormWalk(net, today, teamId, Cap(n), Cap(maxBackDays), 0, []);
      && requests == w.1
      && (r.Raised? <==> w.2)
      && (r.Raised? ==> r.err == DayError(net, today - (w.1 - 1)))
      && (r.Games? ==> r.events == w.0)
  {
    if !HasScoreboard(sport) {
      if maxBackDays > 0 && n > 0 {
        return Raised(UnsupportedSport(sport)), 0;
      }
      return Games([]), 0;
    }
    var collected, failed;
    collected, requests, failed := ScanForm(teamId, n, maxBackDays, today, net);
    if failed {
      return Raised(DayError(net, today - (requests - 1))), requests;
    }
    r := Games(collected);
  }

  /** A scan of a supported sport that does not raise holds at most `n`
      completed events of the team, each from one of the days it requested. */
  lemma GetLastNGamesSound(net: map<int, DayFetch>, today: int, teamId: string, n: int, maxBackDays: int)
    ensures var w := FormWalk(net, today, teamId, Cap(n), Cap(maxBackDays), 0, []);
      !w.2 ==>
        && |w.0| <= Cap(n)
        && w.1 <= Cap(maxBackDays)
        && forall x | x in w.0 ::
             IncludesTeam(x, teamId) && Completed(x) && exists d | today - Cap(maxBackDays) < d <= today :: x in DayEvents(net, d)
  {
    var days := Cap(maxBackDays);
    var dk := DaysGames(net, today, teamId, days);
    FormWalkMeaning(net, today, teamId, Cap(n), days);
    WalkFromStart(dk, Cap(n));
    GamesSound(net, today, teamId, days, days);
  }

  // ---------------------------------------------------------------------
  // `_find_team_and_opp`
  // ---------------------------------------------------------------------

  /** The index of the last competitor whose team id is `teamId`. */
  function LastMatch(cs: seq<Competitor>, teamId: string): (r: Option<nat>)
    ensures r.Some? ==> r.value < |cs| && Matches(cs[r.value], teamId)
    ensures r.Some? ==> forall k | r.value < k < |cs| :: !Matches(cs[k], teamId)
    ensures r.None? ==> forall k | 0 <= k < |cs| :: !Matches(cs[k], teamId)
  {
    if cs == [] then None
    else if Matches(cs[|cs| - 1], teamId) then Some(|cs| - 1)
    else LastMatch(cs[..|cs| - 1], teamId)
  }

  /** The index of the last competitor whose team id is not `teamId`. */
  function LastOther(cs: seq<Competitor>, teamId: string): (r: Option<nat>)
    ensures r.Some? ==> r.value < |cs| && !Matches(cs[r.value], teamId)
    ensures r.Some? ==> forall k | r.value < k < |cs| :: Matches(cs[k], teamId)
    ensures r.None? ==> forall k | 0 <= k < |cs| :: Matches(cs[k], teamId)
  {
    if cs == [] then None
    else if !Matches(cs[|cs| - 1], teamId) then Some(|cs| - 1)
    else LastOther(cs[..|cs| - 1], teamId)
  }

  /** Looking at one more competitor moves the last match or the last other
      to it. */
  lemma LastStep(cs: seq<Competitor>, teamId: string, i: nat)
    requires i < |cs|
    ensures Matches(cs[i], teamId) ==> LastMatch(cs[..i + 1], teamId) == Some(i) && LastOther(cs[..i + 1], teamId) == LastOther(cs[..i], teamId)
    ensures !Matches(cs[i], teamId) ==> LastOther(cs[..i + 1], teamId) == Some(i) && LastMatch(cs[..i + 1], teamId) == LastMatch(cs[..i], teamId)
  {
    assert cs[..i + 1][..i] == cs[..i];
  }

  /** `_find_team_and_opp`: one pass over the competitors of the first competition,
      remembering the last one of the team and the last one of any other team. */
  method FindTeamAndOpp(ev: Event, teamId: string) returns (ours: Option<nat>, opp: Option<nat>)
    ensures ours == LastMatch(FirstCompetition(ev).competitors, teamId)
    ensures opp == LastOther(FirstCompetition(ev).competitors, teamId)
  {
    var cs := FirstCompetition(ev).competitors;
    ours, opp := None, None;
    var i := 0;
    while i < |cs|
      invariant 0 <= i <= |cs|
      invariant ours == LastMatch(cs[..i], teamId)
      invariant opp == LastOther(cs[..i], teamId)
    {
      LastStep(cs, teamId, i);
      if Matches(cs[i], teamId) {
        ours := Some(i);
      } else {
        opp := Some(i);
      }
      i := i + 1;
    }
    assert cs[..i] == cs;
  }

  /** The opponent found is never the team itself; the team is found exactly when
      the event includes it, and an opponent exactly when some competitor is of
      another team. */
  lemma TeamAndOppDistinct(cs: seq<Competitor>, teamId: string)
    ensures LastMatch(cs, teamId).Some? <==> FindTeam(cs, teamId).Some?
    ensures LastOther(cs, teamId).Some? <==> exists k | 0 <= k < |cs| :: !Matches(cs[k], teamId)
    ensures LastMatch(cs, teamId).Some? && LastOther(cs, teamId).Some? ==>
      LastMatch(cs, teamId).value != LastOther(cs, teamId).value
  {
  }

  // ---------------------------------------------------------------------
  // `_summarize_team_form`
  // ---------------------------------------------------------------------

  /** `if not ours or not opp: continue` does not skip: both the team and an
      opponent were found, and neither is the empty object `{}`. */
  predicate BothSides(cs: seq<Competitor>, teamId: string)
  {
    var ours, opp := LastMatch(cs, teamId), LastOther(cs, teamId);
    ours.Some? && opp.Some? && !cs[ours.value].empty && !cs[opp.value].empty
  }

  /** What one event adds to the totals: nothing unless both the team and an
      opponent are present and not empty, else the team's and the opponent's
      scores. */
  function Contribution(ev: Event, teamId: string): (c: (int, int))
    ensures LastMatch(FirstCompetition(ev).competitors, teamId).None? ==> c == (0, 0)
    ensures LastOther(FirstCompetition(ev).competitors, teamId).None? ==> c == (0, 0)
    ensures !BothSides(FirstCompetition(ev).competitors, teamId) ==> c == (0, 0)
  {
    var cs := FirstCompetition(ev).competitors;
    if !BothSides(cs, teamId) then (0, 0)
    else (IntOrZero(cs[LastMatch(cs, teamId).value].score), IntOrZero(cs[LastOther(cs, teamId).value].score))
  }

  /** The points scored over the events, in order. */
  function ScoredTotal(games: seq<Event>, teamId: string): int
  {
    if games == [] then 0 else ScoredTotal(games[..|games| - 1], teamId) + Contribution(games[|games| - 1], teamId).0
  }

  /** The points allowed over the events, in order. */
  function AllowedTotal(games: seq<Event>, teamId: string): int
  {
    if games == [] then 0 else AllowedTotal(games[..|games| - 1], teamId) + Contribution(games[|games| - 1], teamId).1
  }

  /** The team's name as one event gives it: display name, else name, else the id. */
  function NameIn(ev: Event, teamId: string): string
    requires LastMatch(FirstCompetition(ev).competitors, teamId).Some?
  {
    var cs := FirstCompetition(ev).competitors;
    var t := cs[LastMatch(cs, teamId).value].team;
    OrElse(Or(t.displayName, t.name), teamId)
  }

  /** The name the loop settles on: taken from each event with both sides present
      and not empty while the name so far is empty (absent or ""). */
  function NameAfter(games: seq<Event>, teamId: string): Option<string>
  {
    if games == [] then None
    else
      var before := NameAfter(games[..|games| - 1], teamId);
      var ev := games[|games| - 1];
      var cs := FirstCompetition(ev).competitors;
      if Truthy(before) || !BothSides(cs, teamId) then before
      else Some(NameIn(ev, teamId))
  }

  /** A name once found non-empty is kept by the next event. */
  lemma NameAfterKeeps(games: seq<Event>, ev: Event, teamId: string)
    requires Truthy(NameAfter(games, teamId))
    ensures NameAfter(games + [ev], teamId) == NameAfter(games, teamId)
  {
    assert (games + [ev])[..|games|] == games;
  }

  /** A name once found non-empty is kept by later events. */
  lemma {:induction false} NameAfterStable(games: seq<Event>, more: seq<Event>, teamId: string)
    requires Truthy(NameAfter(games, teamId))
    ensures NameAfter(games + more, teamId) == NameAfter(games, teamId)
    decreases |more|
  {
    if more == [] {
      assert games + more == games;
    } else {
      var k := |more| - 1;
      NameAfterStable(games, more[..k], teamId);
      assert games + more == (games + more[..k]) + [more[k]];
      NameAfterKeeps(games + more[..k], more[k], teamId);
    }
  }

  /** The response of `_summarize_team_form`; averages are absent (`None`) or reals. */
  datatype FormSummary = FormSummary(
    sport: string, teamId: string, teamName: string,
    nRequested: int, nFound: int,
    avg1HScored: Option<real>, avg1HAllowed: Option<real>,
    avgFullScored: Option<real>, avgFullAllowed: Option<real>)

  /** `s` summarises `games` for the team: the request's fields, no
      first-half averages, and for a non-empty list the scored and allowed
      totals divided by the number of events, with the first name found;
      no games give no averages and the id as the name. */
  predicate Summarizes(s: FormSummary, sport: string, teamId: string, games: seq<Event>, nRequested: int)
  {
    && s.sport == sport && s.teamId == teamId && s.nRequested == nRequested && s.nFound == |games|
    && s.avg1HScored.None? && s.avg1HAllowed.None?
    && (games == [] ==> s.teamName == teamId && s.avgFullScored.None? && s.avgFullAllowed.None?)
    && (games != [] ==> s.avgFullScored == Some(ScoredTotal(games, teamId) as real / |games| as real))
    && (games != [] ==> s.avgFullAllowed == Some(AllowedTotal(games, teamId) as real / |games| as real))
    && (games != [] ==> s.teamName == OrElse(NameAfter(games, teamId), teamId))
  }

  /** `_summarize_team_form`: totals over the events where both sides are found,
      divided by the number of events. */
  method SummarizeTeamForm(sport: string, teamId: string, games: seq<Event>, nRequested: int)
    returns (s: FormSummary)
    ensures Summarizes(s, sport, teamId, games, nRequested)
  {
    var nFound := |games|;
    if nFound == 0 {
      return FormSummary(sport, teamId, teamId, nRequested, 0, None, None, None, None);
    }
    var totalScored := 0;
    var totalAllowed := 0;
    var teamName: Option<string> := None;
    var i := 0;
    while i < |games|
      invariant 0 <= i <= |games|
      invariant totalScored == ScoredTotal(games[..i], teamId)
      invariant totalAllowed == AllowedTotal(games[..i], teamId)
      invariant teamName == NameAfter(games[..i], teamId)
    {
      var ev := games[i];
      assert games[..i + 1][..i] == games[..i];
      var ours, opp := FindTeamAndOpp(ev, teamId);
      i := i + 1;
      var cs := FirstCompetition(ev).competitors;
      if ours.None? || opp.None? || cs[ours.value].empty || cs[opp.value].empty {
        continue;
      }
      var team := cs[ours.value].team;
      if !Truthy(teamName) {
        teamName := Some(OrElse(Or(team.displayName, team.name), teamId));
      }
      var scored := IntOrZero(cs[ours.value].score);
      var allowed := IntOrZero(cs[opp.value].score);
      totalScored := totalScored + scored;
      totalAllowed := totalAllowed + allowed;
    }
    assert games[..i] == games;
    s := FormSummary(sport, teamId, OrElse(teamName, teamId), nRequested, nFound, None, None,
                     Some(totalScored as real / nFound as real), Some(totalAllowed as real / nFound as real));
  }

  /** Events without both sides, or with an empty one, still count in the
      divisor: adding such an event leaves the totals unchanged. */
  lemma SkippedEventAddsNothing(games: seq<Event>, ev: Event, teamId: string)
    requires !BothSides(FirstCompetition(ev).competitors, teamId)
    ensures ScoredTotal(games + [ev], teamId) == ScoredTotal(games, teamId)
    ensures AllowedTotal(games + [ev], teamId) == AllowedTotal(games, teamId)
  {
    assert (games + [ev])[..|games|] == games;
  }

  /** The totals of a scan over several days are the sums of the days' totals. */
  lemma {:induction false} TotalsAppend(a: seq<Event>, b: seq<Event>, teamId: string)
    ensures ScoredTotal(a + b, teamId) == ScoredTotal(a, teamId) + ScoredTotal(b, teamId)
    ensures AllowedTotal(a + b, teamId) == AllowedTotal(a, teamId) + AllowedTotal(b, teamId)
    decreases |b|
  {
    if b == [] {
      assert a + b == a;
    } else {
      var k := |b| - 1;
      TotalsAppend(a, b[..k], teamId);
      assert (a + b)[..|a + b| - 1] == a + b[..k];
    }
  }

  // ---------------------------------------------------------------------
  // Endpoints
  // ---------------------------------------------------------------------

  /** What an endpoint answers: a body, a 400 carrying the ValueError caught,
      or a failure that propagates out of the handler (a 500). */
  datatype Response<T> = Ok(body: T) | BadRequest(err: ScanError) | ServerError(err: ScanError)

  datatype Matchup = Matchup(sport: string, nRequested: int, team1: FormSummary, team2: FormSummary)

  /** The games a scan that did not fail hands to the summary: the walk's
      events for a supported sport, none otherwise. */
  function Scanned(sport: string, teamId: string, n: int, today: int, net: map<int, DayFetch>): (g: seq<Event>)
    ensures |g| <= Cap(n)
  {
    if HasScoreboard(sport) then
      FormWalkMeaning(net, today, teamId, Cap(n), Cap(MaxBackDays));
      FormWalk(net, today, teamId, Cap(n), Cap(MaxBackDays), 0, []).0
    else []
  }

  /** `last5_team`: scan, then summarise; nothing is caught. */
  method Last5Team(sport: string, teamId: string, n: int, today: int, net: map<int, DayFetch>)
    returns (r: Response<FormSummary>)
    ensures !r.BadRequest?
    ensures r == ServerError(UnsupportedSport(sport)) <==> !HasScoreboard(sport) && n > 0
    ensures HasScoreboard(sport) ==>
      var w := FormWalk(net, today, teamId, Cap(n), Cap(MaxBackDays), 0, []);
      && (r.ServerError? <==> w.2)
      && (r.ServerError? ==> r.err == DayError(net, today - (w.1 - 1)))
    ensures r.Ok? ==> r.body.teamId == teamId && r.body.nRequested == n
    ensures r.Ok? && HasScoreboard(sport) ==>
      r.body.nFound == |FormWalk(net, today, teamId, Cap(n), Cap(MaxBackDays), 0, []).0|
    ensures r.Ok? ==> Summarizes(r.body, sport, teamId, Scanned(sport, teamId, n, today, net), n)
  {
    var res, _ := GetLastNGames(sport, teamId, n, MaxBackDays, today, net);
    if res.Raised? {
      return ServerError(res.err);
    }
    var s := SummarizeTeamForm(sport, teamId, res.events, n);
    r := Ok(s);
  }

  /** `matchup_form`: scan both teams; a ValueError of either scan (the
      unsupported sport, or a body that is not JSON) becomes a 400, any other
      failure propagates. */
  method MatchupForm(sport: string, team1Id: string, team2Id: string, n: int, today: int, net: map<int, DayFetch>)
    returns (r: Response<Matchup>)
    ensures r.BadRequest? ==> IsValueError(r.err)
    ensures r.ServerError? ==> !IsValueError(r.err)
    ensures !HasScoreboard(sport) ==> (r.BadRequest? <==> n > 0) && (r.BadRequest? ==> r.err == UnsupportedSport(sport))
    ensures HasScoreboard(sport) ==>
      var w1, w2 := FormWalk(net, today, team1Id, Cap(n), Cap(MaxBackDays), 0, []),
                    FormWalk(net, today, team2Id, Cap(n), Cap(MaxBackDays), 0, []);
      && (r.Ok? <==> !w1.2 && !w2.2)
      && (w1.2 ==> !r.Ok? && r.err == DayError(net, today - (w1.1 - 1)))
      && (!w1.2 && w2.2 ==> !r.Ok? && r.err == DayError(net, today - (w2.1 - 1)))
    ensures r.Ok? ==> r.body.sport == sport && r.body.nRequested == n
    ensures r.Ok? ==> r.body.team1.teamId == team1Id && r.body.team2.teamId == team2Id
    ensures r.Ok? && HasScoreboard(sport) ==>
      && r.body.team1.nFound == |FormWalk(net, today, team1Id, Cap(n), Cap(MaxBackDays), 0, []).0|
      && r.body.team2.nFound == |FormWalk(net, today, team2Id, Cap(n), Cap(MaxBackDays), 0, []).0|
    ensures r.Ok? ==> Summarizes(r.body.team1, sport, team1Id, Scanned(sport, team1Id, n, today, net), n)
    ensures r.Ok? ==> Summarizes(r.body.team2, sport, team2Id, Scanned(sport, team2Id, n, today, net), n)
  {
    var res1, _ := GetLastNGames(sport, team1Id, n, MaxBackDays, today, net);
    if res1.Raised? {
      if IsValueError(res1.err) {
        return BadRequest(res1.err);
      }
      return ServerError(res1.err);
    }
    var res2, _ := GetLastNGames(sport, team2Id, n, MaxBackDays, today, net);
    if res2.Raised? {
      if IsValueError(res2.err) {
        return BadRequest(res2.err);
      }
      return ServerError(res2.err);
    }
    var s1 := SummarizeTeamForm(sport, team1Id, res1.events, n);
    var s2 := SummarizeTeamForm(sport, team2Id, res2.events, n);
    r := Ok(Matchup(sport, n, s1, s2));
  }
}
