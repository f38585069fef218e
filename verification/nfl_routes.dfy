/** The NFL endpoints of `app/routers/nfl_routes.py`: the soft week fetch
    with its two fallbacks, the week the schedule and slate endpoints use,
    the `when` text of the simple endpoints, and the ranking of rows by the
    size of their edge with the row limit.  The clock is `today`, the ESPN
    scoreboard a table from request to reply, the odds lines a table from
    game token to line, and the projections a table from (home, away). */
module NflRoutes {
  import opened Common
  import opened Calendar
  import opened Scoreboard
  import opened EspnGames
  import opened EspnNfl
  import opened NflWeeks
  import opened OddsApi

  // ---------------------------------------------------------------------
  // `_week_games_soft`
  // ---------------------------------------------------------------------

  /** The meta of a soft fetch: empty, or the week asked for and the
      previous week whose games were returned instead. */
  datatype Meta = NoMeta | FallbackFrom(season: int, week: int, prevWeek: int)

  datatype Soft = Soft(games: seq<Event>, meta: Meta)

  /** `max(1, week - 1)`. */
  function PrevWeek(week: int): (p: int)
    ensures p >= 1 && p >= week - 1
    ensures p == week <==> week == 1
  {
    if week - 1 > 1 then week - 1 else 1
  }

  /** One `get_games_for_range` inside its `try`: a day before 0001-01-01 or
      after 9999-12-31 is the OverflowError of the date arithmetic, and that
      or an error of the range fetch gives `[]`. */
  function RangeOrEmpty(lo: int, hi: int, net: map<string, Reply>): seq<Event>
  {
    if 1 <= lo <= MaxOrdinal && 1 <= hi <= MaxOrdinal then
      var g := GamesForRange(FromOrdinal(lo), FromOrdinal(hi), net);
      if g.Ok? then g.value else []
    else []
  }

  /** `_week_games_soft`, for a range fetch `fetch` (the model's is
      `Fetcher(net)`); `None` is the error of `week_window`, which is called
      outside the `try`. */
  function WeekGamesSoft(season: int, week: int, fetch: (int, int) -> seq<Event>): Option<Soft>
  {
    var w := WeekWindow(season, week);
    if w.None? then None
    else
      var first := fetch(w.value.start, w.value.end);
      if first != [] then Some(Soft(first, NoMeta))
      else
        var widened := fetch(w.value.start - 3, w.value.end + 3);
        if widened != [] then Some(Soft(widened, NoMeta))
        else
          var prev := PrevWeek(week);
          if prev == week then Some(Soft([], NoMeta))
          else
            var p := WeekWindow(season, prev);
            if p.None? then None
            else
              var back := fetch(p.value.start, p.value.end);
              if back != [] then Some(Soft(back, FallbackFrom(season, week, prev)))
              else Some(Soft([], NoMeta))
  }

  /** The range fetch over a scoreboard table. */
  function Fetcher(net: map<string, Reply>): (int, int) -> seq<Event>
  {
    (lo: int, hi: int) => RangeOrEmpty(lo, hi, net)
  }

  /** For two days before 9999-12-31 the fetch never fails: it is the events
      of the days between them, either way round. */
  lemma FetcherMeaning(a: Date, b: Date, net: map<string, Reply>)
    requires ValidDate(a) && ValidDate(b) && a != Date(MaxYear, 12, 31) && b != Date(MaxYear, 12, 31)
    ensures GamesForRange(a, b, net).Ok?
    ensures Fetcher(net)(Ordinal(a), Ordinal(b)) == GamesForRange(a, b, net).value
    ensures Fetcher(net)(Ordinal(b), Ordinal(a)) == GamesForRange(a, b, net).value
  {
    RangeNeverRaises(a, b, net);
    RangeSymmetric(a, b, net);
    RangeOrEmptyOfDates(a, b, net);
    RangeOrEmptyOfDates(b, a, net);
  }

  /** Between two days of the calendar the guarded fetch is the range fetch. */
  lemma RangeOrEmptyOfDates(a: Date, b: Date, net: map<string, Reply>)
    requires ValidDate(a) && ValidDate(b) && GamesForRange(a, b, net).Ok?
    ensures Fetcher(net)(Ordinal(a), Ordinal(b)) == GamesForRange(a, b, net).value
  {
    FromOrdinalOfOrdinal(a);
    FromOrdinalOfOrdinal(b);
    assert Fetcher(net)(Ordinal(a), Ordinal(b)) == RangeOrEmpty(Ordinal(a), Ordinal(b), net);
  }

  /** The previous week's window exists whenever the week's does: it opens
      on the same day or a week earlier. */
  lemma PrevWindowDefined(season: int, week: int)
    requires WeekWindow(season, week).Some?
    ensures WeekWindow(season, PrevWeek(week)).Some?
    ensures WeekWindow(season, PrevWeek(week)).value.start <= WeekWindow(season, week).value.start
  {
  }

  /** The soft fetch raises exactly when the week's own window does. */
  lemma SoftRaises(season: int, week: int, fetch: (int, int) -> seq<Event>)
    ensures WeekGamesSoft(season, week, fetch).None? <==> WeekWindow(season, week).None?
  {
    if WeekWindow(season, week).Some? {
      PrevWindowDefined(season, week);
    }
  }

  /** The result is the first non-empty of the week's window, the window
      widened by three days on each side and the previous week's window, or
      `[]`; only the previous week carries meta, naming the week asked for. */
  lemma SoftFirstNonEmpty(season: int, week: int, fetch: (int, int) -> seq<Event>)
    requires WeekGamesSoft(season, week, fetch).Some?
    ensures var s, w := WeekGamesSoft(season, week, fetch).value, WeekWindow(season, week).value;
      var first := fetch(w.start, w.end);
      var widened := fetch(w.start - 3, w.end + 3);
      && (first != [] ==> s == Soft(first, NoMeta))
      && (first == [] && widened != [] ==> s == Soft(widened, NoMeta))
      && (s.meta.FallbackFrom? ==>
            && first == [] && widened == [] && s.games != []
            && s.meta == FallbackFrom(season, week, PrevWeek(week))
            && s.games == fetch(WeekWindow(season, PrevWeek(week)).value.start, WeekWindow(season, PrevWeek(week)).value.end))
      && (s.games == [] ==> s.meta == NoMeta)
  {
  }

  /** Week 1, a week before it and a week after 18 never fall back: their
      previous week has the same window, which was already found empty. */
  lemma NoFallbackOutsideSeason(season: int, week: int, fetch: (int, int) -> seq<Event>)
    requires week <= 1 || week >= 19
    ensures var r := WeekGamesSoft(season, week, fetch);
      r.Some? ==> r.value.meta == NoMeta
  {
    if WeekWindow(season, week).Some? && PrevWeek(week) != week {
      assert ClampWeek(PrevWeek(week)) == ClampWeek(week);
    }
  }

  /** Within the season a fallback always goes exactly one week back. */
  lemma FallbackIsPreviousWeek(season: int, week: int, fetch: (int, int) -> seq<Event>)
    requires WeekGamesSoft(season, week, fetch).Some? && WeekGamesSoft(season, week, fetch).value.meta.FallbackFrom?
    ensures 2 <= week <= 18
    ensures WeekGamesSoft(season, week, fetch).value.meta.prevWeek == week - 1
    ensures WeekWindow(season, week - 1).value.start == WeekWindow(season, week).value.start - 7
  {
    NoFallbackOutsideSeasonContra(season, week, fetch);
  }

  /** The contrapositive used above. */
  lemma NoFallbackOutsideSeasonContra(season: int, week: int, fetch: (int, int) -> seq<Event>)
    requires WeekGamesSoft(season, week, fetch).Some? && WeekGamesSoft(season, week, fetch).value.meta.FallbackFrom?
    ensures 2 <= week <= 18
  {
    if week <= 1 || week >= 19 {
      NoFallbackOutsideSeason(season, week, fetch);
    }
  }

  // ---------------------------------------------------------------------
  // The week of the schedule and slate endpoints
  // ---------------------------------------------------------------------

  /** `season and week`: both given and neither 0. */
  predicate Given(season: Option<int>, week: Option<int>)
  {
    season.Some? && season.value != 0 && week.Some? && week.value != 0
  }

  /** The week asked for, or else `current_season_week()`; `None` is the
      ValueError the latter raises in year 1. */
  function WeekAsked(season: Option<int>, week: Option<int>, today: Date): (r: Option<SeasonWeek>)
    requires ValidDate(today)
  {
    if Given(season, week) then Some(SeasonWeek(season.value, week.value)) else CurrentSeasonWeek(today)
  }

  /** Where the games came from: the week fetched, or the previous week with
      the week asked for as `fallbackFrom`. */
  datatype Shown = Shown(season: int, week: int, fallbackFrom: Option<SeasonWeek>)

  function ShownWeek(asked: SeasonWeek, meta: Meta): (r: Shown)
    ensures meta.NoMeta? ==> r == Shown(asked.season, asked.week, None)
  {
    match meta
    case NoMeta => Shown(asked.season, asked.week, None)
    case FallbackFrom(s, w, p) => Shown(s, p, Some(SeasonWeek(s, w)))
  }

  /** `[extract_game_lite(ev) for ev in games]`. */
  function Lites(games: seq<Event>): (r: seq<GameLite>)
    ensures |r| == |games| && forall i | 0 <= i < |games| :: r[i] == GameLiteOf(games[i])
  {
    seq(|games|, i requires 0 <= i < |games| => GameLiteOf(games[i]))
  }

  datatype Schedule = Schedule(rows: seq<GameLite>, shown: Shown)

  /** `nfl_schedule`; `None` is an error that escapes. */
  function ScheduleFor(season: Option<int>, week: Option<int>, today: Date, fetch: (int, int) -> seq<Event>): Option<Schedule>
    requires ValidDate(today)
  {
    var asked := WeekAsked(season, week, today);
    if asked.None? then None
    else
      var soft := WeekGamesSoft(asked.value.season, asked.value.week, fetch);
      if soft.None? then None
      else Some(Schedule(Lites(soft.value.games), ShownWeek(asked.value, soft.value.meta)))
  }

  /** The schedule shows the week asked for unless it fell back, and then it
      shows the week before with the week asked for as `fallbackFrom`; one
      row per game, in order. */
  lemma ScheduleWeek(season: Option<int>, week: Option<int>, today: Date, fetch: (int, int) -> seq<Event>)
    requires ValidDate(today)
    ensures var r, a := ScheduleFor(season, week, today, fetch), WeekAsked(season, week, today);
      && (a.None? ==> r.None?)
      && (r.Some? ==> a.Some? && WeekGamesSoft(a.value.season, a.value.week, fetch).Some?)
      && (r.Some? && r.value.shown.fallbackFrom.None? ==> r.value.shown.season == a.value.season && r.value.shown.week == a.value.week)
      && (r.Some? && r.value.shown.fallbackFrom.Some? ==>
            r.value.shown.fallbackFrom.value == a.value && r.value.shown.season == a.value.season &&
            r.value.shown.week == PrevWeek(a.value.week) && r.value.rows != [])
      && (r.Some? ==> |r.value.rows| == |WeekGamesSoft(a.value.season, a.value.week, fetch).value.games|)
  {
    var a := WeekAsked(season, week, today);
    if a.Some? && WeekGamesSoft(a.value.season, a.value.week, fetch).Some? {
      SoftFirstNonEmpty(a.value.season, a.value.week, fetch);
    }
  }

  // ---------------------------------------------------------------------
  // `nfl_slate`
  // ---------------------------------------------------------------------

  /** The two numbers of `project_nfl_fg` the edges use. */
  datatype Projection = Projection(total: real, spreadHome: real)

  /** A slate row: the game, its market line and the edges of the projection
      over the market. */
  datatype SlateRow = SlateRow(game: GameLite, market: Line, edgeTotal: Option<real>, edgeSpread: Option<real>)

  /** `model - market` when the market number is there. */
  function EdgeOver(model: Option<real>, market: Option<real>): (r: Option<real>)
    ensures r.Some? <==> model.Some? && market.Some?
  {
    if model.Some? && market.Some? then Some(model.value - market.value) else None
  }

  /** One row of the loop in `nfl_slate`. */
  function SlateRowOf(ev: Event, includeMarkets: bool, markets: map<string, Line>, proj: map<(string, string), Projection>): SlateRow
  {
    var lite := GameLiteOf(ev);
    var token := EventKey(lite.homeTeam, lite.awayTeam);
    var mk := if includeMarkets && token in markets then markets[token] else Line(None, None, None);
    var p := if (lite.homeTeam, lite.awayTeam) in proj then Some(proj[(lite.homeTeam, lite.awayTeam)]) else None;
    var model := if p.Some? then Some(p.value.total) else None;
    var modelSpread := if p.Some? then Some(p.value.spreadHome) else None;
    SlateRow(lite, mk, EdgeOver(model, mk.total), EdgeOver(modelSpread, mk.spreadHome))
  }

  function SlateRowsOf(games: seq<Event>, includeMarkets: bool, markets: map<string, Line>, proj: map<(string, string), Projection>): (r: seq<SlateRow>)
    ensures |r| == |games| && forall i | 0 <= i < |games| :: r[i] == SlateRowOf(games[i], includeMarkets, markets, proj)
  {
    seq(|games|, i requires 0 <= i < |games| => SlateRowOf(games[i], includeMarkets, markets, proj))
  }

  /** The row loop of `nfl_slate`. */
  method BuildSlateRows(games: seq<Event>, includeMarkets: bool, markets: map<string, Line>, proj: map<(string, string), Projection>)
    returns (rows: seq<SlateRow>)
    ensures rows == SlateRowsOf(games, includeMarkets, markets, proj)
  {
    rows := [];
    for i := 0 to |games|
      invariant |rows| == i
      invariant forall j | 0 <= j < i :: rows[j] == SlateRowOf(games[j], includeMarkets, markets, proj)
    {
      rows := rows + [SlateRowOf(games[i], includeMarkets, markets, proj)];
    }
  }

  /** A row's market is its game's line, found by the token the odds service
      writes, and only when markets were asked for; an edge is there exactly
      when the projection and that market number are. */
  lemma SlateRowMarket(ev: Event, includeMarkets: bool, markets: map<string, Line>, proj: map<(string, string), Projection>)
    ensures var row, lite := SlateRowOf(ev, includeMarkets, markets, proj), GameLiteOf(ev);
      && row.game == lite
      && (includeMarkets && EventKey(lite.homeTeam, lite.awayTeam) in markets ==> row.market == markets[EventKey(lite.homeTeam, lite.awayTeam)])
      && (!includeMarkets ==> row.market == Line(None, None, None) && row.edgeTotal.None? && row.edgeSpread.None?)
      && (row.edgeTotal.Some? <==> (lite.homeTeam, lite.awayTeam) in proj && row.market.total.Some?)
      && (row.edgeTotal.Some? ==> row.edgeTotal.value == proj[(lite.homeTeam, lite.awayTeam)].total - row.market.total.value)
  {
  }

  datatype Slate = Slate(rows: seq<SlateRow>, shown: Shown)

  /** `nfl_slate`; the markets are `None` when the odds fetch failed or timed
      out, which gives `{}`. */
  function SlateFor(season: Option<int>, week: Option<int>, includeMarkets: bool, today: Date, fetch: (int, int) -> seq<Event>,
                    markets: Option<map<string, Line>>, proj: map<(string, string), Projection>): Option<Slate>
    requires ValidDate(today)
  {
    var asked := WeekAsked(season, week, today);
    if asked.None? then None
    else
      var soft := WeekGamesSoft(asked.value.season, asked.value.week, fetch);
      if soft.None? then None
      else
        var mk := if includeMarkets && markets.Some? then markets.value else map[];
        Some(Slate(SlateRowsOf(soft.value.games, includeMarkets, mk, proj), ShownWeek(asked.value, soft.value.meta)))
  }

  /** The slate and the schedule show the same week and the same games. */
  lemma SlateMatchesSchedule(season: Option<int>, week: Option<int>, includeMarkets: bool, today: Date, fetch: (int, int) -> seq<Event>,
                             markets: Option<map<string, Line>>, proj: map<(string, string), Projection>)
    requires ValidDate(today)
    ensures var sl, sc := SlateFor(season, week, includeMarkets, today, fetch, markets, proj), ScheduleFor(season, week, today, fetch);
      && (sl.Some? <==> sc.Some?)
      && (sl.Some? ==> sl.value.shown == sc.value.shown && |sl.value.rows| == |sc.value.rows|)
      && (sl.Some? ==> forall i | 0 <= i < |sl.value.rows| :: sl.value.rows[i].game == sc.value.rows[i])
  {
  }

  // ---------------------------------------------------------------------
  // Ranking and the row limit of `nfl_edges` and `nfl_edges_simple`
  // ---------------------------------------------------------------------

  datatype SortBy = BySpread | ByTotal

  /** `_abs_edge`: the size of the chosen edge, or -1 without one. */
  function EdgeKey(row: SlateRow, order: SortBy): (k: real)
    ensures k >= 0.0 || k == -1.0
  {
    var v := if order.BySpread? then row.edgeSpread else row.edgeTotal;
    if v.Some? then (if v.value < 0.0 then -v.value else v.value) else -1.0
  }

  /** Insert a row in front of the first row whose key is not larger. */
  function Insert(x: SlateRow, s: seq<SlateRow>, order: SortBy): (r: seq<SlateRow>)
    ensures multiset(r) == multiset(s) + multiset{x}
    ensures |r| == |s| + 1
  {
    if s == [] || EdgeKey(x, order) >= EdgeKey(s[0], order) then [x] + s
    else
      assert s == [s[0]] + s[1..];
      [s[0]] + Insert(x, s[1..], order)
  }

  /** `sorted(rows, key=_abs_edge, reverse=True)`: descending, and rows with
      equal keys stay in their order. */
  function Rank(rows: seq<SlateRow>, order: SortBy): seq<SlateRow>
  {
    if rows == [] then [] else Insert(rows[0], Rank(rows[1..], order), order)
  }

  predicate Descending(s: seq<SlateRow>, order: SortBy)
  {
    forall i, j | 0 <= i < j < |s| :: EdgeKey(s[i], order) >= EdgeKey(s[j], order)
  }

  /** The rows of a sequence with a given key, in order. */
  function WithKey(s: seq<SlateRow>, order: SortBy, k: real): seq<SlateRow>
  {
    if s == [] then []
    else (if EdgeKey(s[0], order) == k then [s[0]] else []) + WithKey(s[1..], order, k)
  }

  /** Every row of an insertion is the inserted row or a row it went into. */
  lemma InsertMembers(x: SlateRow, s: seq<SlateRow>, order: SortBy, y: SlateRow)
    requires y in Insert(x, s, order)
    ensures y == x || y in s
  {
    assert y in multiset(Insert(x, s, order));
  }

  /** Inserting keeps a descending sequence descending. */
  lemma {:induction false} InsertSorted(x: SlateRow, s: seq<SlateRow>, order: SortBy)
    requires Descending(s, order)
    ensures Descending(Insert(x, s, order), order)
  {
    if s != [] && EdgeKey(x, order) < EdgeKey(s[0], order) {
      var t := s[1..];
      InsertSorted(x, t, order);
      assert forall i | 0 <= i < |t| :: EdgeKey(t[i], order) <= EdgeKey(s[0], order) by {
        forall i | 0 <= i < |t| ensures EdgeKey(t[i], order) <= EdgeKey(s[0], order) {
          assert t[i] == s[i + 1];
        }
      }
      InsertBounded(x, t, order, EdgeKey(s[0], order));
      assert Insert(x, s, order) == [s[0]] + Insert(x, t, order);
      DescendingCons(s[0], Insert(x, t, order), order);
    }
  }

  /** A row no lower than every row of a descending sequence can go in front
      of it. */
  lemma DescendingCons(h: SlateRow, s: seq<SlateRow>, order: SortBy)
    requires Descending(s, order)
    requires forall i | 0 <= i < |s| :: EdgeKey(s[i], order) <= EdgeKey(h, order)
    ensures Descending([h] + s, order)
  {
    var r := [h] + s;
    forall i, j | 0 <= i < j < |r|
      ensures EdgeKey(r[i], order) >= EdgeKey(r[j], order)
    {
      assert r[j] == s[j - 1];
      if i > 0 {
        assert r[i] == s[i - 1];
      }
    }
  }

  /** Inserting a row no higher than a bound into rows no higher than it
      leaves every row no higher than it. */
  lemma InsertBounded(x: SlateRow, s: seq<SlateRow>, order: SortBy, b: real)
    requires EdgeKey(x, order) <= b
    requires forall i | 0 <= i < |s| :: EdgeKey(s[i], order) <= b
    ensures forall i | 0 <= i < |Insert(x, s, order)| :: EdgeKey(Insert(x, s, order)[i], order) <= b
  {
    var r := Insert(x, s, order);
    forall i | 0 <= i < |r| ensures EdgeKey(r[i], order) <= b {
      InsertMembers(x, s, order, r[i]);
      if r[i] != x {
        var m :| 0 <= m < |s| && s[m] == r[i];
      }
    }
  }

  /** The rows with one key after an insertion: the inserted row comes first
      among the rows with its key, and no other key's rows change. */
  lemma {:induction false} InsertStable(x: SlateRow, s: seq<SlateRow>, order: SortBy, k: real)
    ensures WithKey(Insert(x, s, order), order, k) == (if EdgeKey(x, order) == k then [x] else []) + WithKey(s, order, k)
  {
    if s == [] || EdgeKey(x, order) >= EdgeKey(s[0], order) {
      WithKeyCons(x, s, order, k);
    } else {
      InsertStable(x, s[1..], order, k);
      assert Insert(x, s, order) == [s[0]] + Insert(x, s[1..], order);
      assert s == [s[0]] + s[1..];
      StableBehind(x, s[0], Insert(x, s[1..], order), s[1..], order, k);
    }
  }

  /** A row with a lower key than `h` moves behind `h` without changing
      which rows with key `k` come out, and in which order. */
  lemma StableBehind(x: SlateRow, h: SlateRow, it: seq<SlateRow>, t: seq<SlateRow>, order: SortBy, k: real)
    requires EdgeKey(x, order) < EdgeKey(h, order)
    requires WithKey(it, order, k) == (if EdgeKey(x, order) == k then [x] else []) + WithKey(t, order, k)
    ensures WithKey([h] + it, order, k) == (if EdgeKey(x, order) == k then [x] else []) + WithKey([h] + t, order, k)
  {
    WithKeyCons(h, it, order, k);
    WithKeyCons(h, t, order, k);
    var wi, wt := WithKey(it, order, k), WithKey(t, order, k);
    if EdgeKey(h, order) == k {
      assert EdgeKey(x, order) != k;
      assert wi == wt;
    } else if EdgeKey(x, order) == k {
      assert [] + wi == [x] + wt;
      assert [] + wt == wt;
    } else {
      assert wi == wt;
    }
  }

  /** The rows with one key of a sequence with a row in front. */
  lemma WithKeyCons(h: SlateRow, s: seq<SlateRow>, order: SortBy, k: real)
    ensures WithKey([h] + s, order, k) == (if EdgeKey(h, order) == k then [h] else []) + WithKey(s, order, k)
  {
    assert ([h] + s)[1..] == s;
  }

  /** The ranking is a permutation of the rows. */
  lemma {:induction false} RankPermutation(rows: seq<SlateRow>, order: SortBy)
    ensures multiset(Rank(rows, order)) == multiset(rows)
    ensures |Rank(rows, order)| == |rows|
  {
    if rows != [] {
      RankPermutation(rows[1..], order);
      assert rows == [rows[0]] + rows[1..];
    }
  }

  /** The ranking is in descending key order. */
  lemma {:induction false} RankDescending(rows: seq<SlateRow>, order: SortBy)
    ensures Descending(Rank(rows, order), order)
  {
    if rows != [] {
      RankDescending(rows[1..], order);
      InsertSorted(rows[0], Rank(rows[1..], order), order);
    }
  }

  /** The ranking is stable: the rows with any one key keep their relative
      order. */
  lemma {:induction false} RankStable(rows: seq<SlateRow>, order: SortBy, k: real)
    ensures WithKey(Rank(rows, order), order, k) == WithKey(rows, order, k)
  {
    if rows != [] {
      RankStable(rows[1..], order, k);
      InsertStable(rows[0], Rank(rows[1..], order), order, k);
    }
  }

  /** Rows with an edge come before every row without one. */
  lemma EdgesFirst(rows: seq<SlateRow>, order: SortBy)
    ensures var r := Rank(rows, order);
      forall i, j | 0 <= i < j < |r| && EdgeKey(r[i], order) == -1.0 :: EdgeKey(r[j], order) == -1.0
  {
    RankDescending(rows, order);
  }

  /** `max(1, min(limit, 100))`. */
  function ClampLimit(limit: int): (n: int)
    ensures 1 <= n <= 100
    ensures 1 <= limit <= 100 ==> n == limit
  {
    if limit > 100 then 100 else if limit < 1 then 1 else limit
  }

  /** `ranked[:max(1, min(limit, 100))]`. */
  function TopRows(rows: seq<SlateRow>, order: SortBy, limit: int): (r: seq<SlateRow>)
  {
    var ranked := Rank(rows, order);
    var n := ClampLimit(limit);
    if n < |ranked| then ranked[..n] else ranked
  }

  /** A prefix holds no more of any row than the whole. */
  lemma PrefixMultiset(s: seq<SlateRow>, n: nat)
    requires n <= |s|
    ensures multiset(s[..n]) <= multiset(s)
  {
    assert s == s[..n] + s[n..];
  }

  /** At most the clamped limit of rows, as many as there are up to it, each
      a leading row of the ranking, and none that was not among the rows. */
  lemma TopRowsBound(rows: seq<SlateRow>, order: SortBy, limit: int)
    ensures var r := TopRows(rows, order, limit);
      && |r| == (if ClampLimit(limit) < |rows| then ClampLimit(limit) else |rows|)
      && r <= Rank(rows, order)
      && multiset(r) <= multiset(rows)
  {
    RankPermutation(rows, order);
    var ranked := Rank(rows, order);
    if ClampLimit(limit) < |ranked| {
      PrefixMultiset(ranked, ClampLimit(limit));
    }
  }

  /** What `nfl_edges` returns. */
  datatype Edges = Edges(shown: Shown, rows: seq<SlateRow>)

  function EdgesFor(season: Option<int>, week: Option<int>, order: SortBy, limit: int, today: Date, fetch: (int, int) -> seq<Event>,
                    markets: Option<map<string, Line>>, proj: map<(string, string), Projection>): Option<Edges>
    requires ValidDate(today)
  {
    var data := SlateFor(season, week, true, today, fetch, markets, proj);
    if data.None? then None else Some(Edges(data.value.shown, TopRows(data.value.rows, order, limit)))
  }

  /** `nfl_edges` shows the slate's week, fallback included, and at most the
      clamped limit of the slate's rows, none that the slate lacks, in
      descending order of the chosen edge. */
  lemma EdgesForShape(season: Option<int>, week: Option<int>, order: SortBy, limit: int, today: Date, fetch: (int, int) -> seq<Event>,
                      markets: Option<map<string, Line>>, proj: map<(string, string), Projection>)
    requires ValidDate(today)
    ensures var r, s := EdgesFor(season, week, order, limit, today, fetch, markets, proj),
                        SlateFor(season, week, true, today, fetch, markets, proj);
      && (r.Some? <==> s.Some?)
      && (r.Some? ==> r.value.shown == s.value.shown)
      && (r.Some? ==> multiset(r.value.rows) <= multiset(s.value.rows) && |r.value.rows| <= ClampLimit(limit))
      && (r.Some? ==> Descending(r.value.rows, order))
  {
    var s := SlateFor(season, week, true, today, fetch, markets, proj);
    if s.Some? {
      var top := TopRows(s.value.rows, order, limit);
      assert EdgesFor(season, week, order, limit, today, fetch, markets, proj) == Some(Edges(s.value.shown, top));
      TopRowsBound(s.value.rows, order, limit);
      TopRowsDescending(s.value.rows, order, limit);
    }
  }

  /** The rows kept are in descending order of the chosen edge. */
  lemma TopRowsDescending(rows: seq<SlateRow>, order: SortBy, limit: int)
    ensures Descending(TopRows(rows, order, limit), order)
  {
    RankDescending(rows, order);
  }

  // ---------------------------------------------------------------------
  // `nfl_projections_simple` and `nfl_edges_simple`
  // ---------------------------------------------------------------------

  /** The week the `when` text and the parameters select. */
  datatype Target = GivenWeek(season: int, week: int) | ThisWeek | ParsedWeek(season: int, week: int)

  /** `when` after `(when or "this_week").strip().lower()`. */
  function WhenText(when: Option<string>): string
  {
    LowerStr(Strip(if when.Some? && when.value != "" then when.value else "this_week"))
  }

  /** "week:Y:W": the text after "week:" splits on ':' into exactly two parts,
      both read by `int`. */
  function ParseWeekText(w: string): Option<(int, int)>
  {
    if !StartsWith(w, "week:") then None
    else
      var parts := Split(w[5..], ':');
      if |parts| != 2 then None
      else
        var y := ParseInt(parts[0]);
        var wk := ParseInt(parts[1]);
        if y.Some? && wk.Some? then Some((y.value, wk.value)) else None
  }

  /** The branches of `nfl_projections_simple` in order: explicit season and
      week, then "this_week", then "week:Y:W", then the current week. */
  function WhenTarget(when: Option<string>, season: Option<int>, week: Option<int>): (t: Target)
    ensures t.GivenWeek? <==> Given(season, week)
    ensures Given(season, week) ==> t == GivenWeek(season.value, week.value)
  {
    var w := WhenText(when);
    if Given(season, week) then GivenWeek(season.value, week.value)
    else if w == "this_week" then ThisWeek
    else
      var p := ParseWeekText(w);
      if p.Some? then ParsedWeek(p.value.0, p.value.1) else ThisWeek
  }

  /** `nfl_projections_simple`: a parsed week whose slate raises falls back
      to this week, like any other text. */
  function ProjectionsSimple(when: Option<string>, season: Option<int>, week: Option<int>, includeMarkets: bool, today: Date,
                             fetch: (int, int) -> seq<Event>, markets: Option<map<string, Line>>, proj: map<(string, string), Projection>): Option<Slate>
    requires ValidDate(today)
  {
    SlateOfTarget(WhenTarget(when, season, week), includeMarkets, today, fetch, markets, proj)
  }

  /** The slate of the week `nfl_projections_simple` selected. */
  function SlateOfTarget(t: Target, includeMarkets: bool, today: Date,
                         fetch: (int, int) -> seq<Event>, markets: Option<map<string, Line>>, proj: map<(string, string), Projection>): Option<Slate>
    requires ValidDate(today)
  {
    var thisWeek := SlateFor(None, None, includeMarkets, today, fetch, markets, proj);
    match t
    case GivenWeek(s, w) => SlateFor(Some(s), Some(w), includeMarkets, today, fetch, markets, proj)
    case ThisWeek => thisWeek
    case ParsedWeek(s, w) =>
      var r := SlateFor(Some(s), Some(w), includeMarkets, today, fetch, markets, proj);
      if r.Some? then r else thisWeek
  }

  /** `nfl_this_week` asks `nfl_slate` for the current week explicitly, which
      is what `nfl_slate` picks on its own. */
  lemma ThisWeekIsCurrent(includeMarkets: bool, today: Date, fetch: (int, int) -> seq<Event>,
                          markets: Option<map<string, Line>>, proj: map<(string, string), Projection>)
    requires ValidDate(today)
    ensures var c := CurrentSeasonWeek(today);
      c.Some? ==> SlateFor(Some(c.value.season), Some(c.value.week), includeMarkets, today, fetch, markets, proj) ==
                  SlateFor(None, None, includeMarkets, today, fetch, markets, proj)
  {
    CurrentSeason(today);
    CurrentWeek(today);
  }

  /** Without `when` the simple endpoint shows this week. */
  lemma WhenDefault(season: Option<int>, week: Option<int>)
    requires !Given(season, week)
    ensures WhenText(None) == "this_week"
    ensures WhenTarget(None, season, week) == ThisWeek
  {
    var t := "this_week";
    StripOfStripped(t);
    LowerStrFixed(t);
  }

  /** Any text that is not a well-formed "week:Y:W" shows this week. */
  lemma WhenUnparsed(when: Option<string>, season: Option<int>, week: Option<int>)
    requires !Given(season, week) && ParseWeekText(WhenText(when)).None?
    ensures WhenTarget(when, season, week) == ThisWeek
  {
  }

  /** A well-formed "week:Y:W" selects that week. */
  lemma WhenTargetParsed(when: Option<string>, season: Option<int>, week: Option<int>)
    requires !Given(season, week) && ParseWeekText(WhenText(when)).Some?
    ensures var p := ParseWeekText(WhenText(when)).value;
      WhenTarget(when, season, week) == ParsedWeek(p.0, p.1)
  {
  }

  /** A "week:Y:W" with both numbers non-zero and a window shows that week. */
  lemma WhenParsed(when: Option<string>, includeMarkets: bool, today: Date, fetch: (int, int) -> seq<Event>,
                   markets: Option<map<string, Line>>, proj: map<(string, string), Projection>)
    requires ValidDate(today)
    requires var p := ParseWeekText(WhenText(when));
      p.Some? && p.value.0 != 0 && p.value.1 != 0 && WeekWindow(p.value.0, p.value.1).Some?
    ensures var p := ParseWeekText(WhenText(when)).value;
      var r := ProjectionsSimple(when, None, None, includeMarkets, today, fetch, markets, proj);
      r.Some? && r == SlateFor(Some(p.0), Some(p.1), includeMarkets, today, fetch, markets, proj)
  {
    var p := ParseWeekText(WhenText(when)).value;
    WhenTargetParsed(when, None, None);
    SlateDefined(p.0, p.1, includeMarkets, today, fetch, markets, proj);
  }

  /** The slate of an explicit week is there whenever the week's window is. */
  lemma SlateDefined(season: int, week: int, includeMarkets: bool, today: Date, fetch: (int, int) -> seq<Event>,
                     markets: Option<map<string, Line>>, proj: map<(string, string), Projection>)
    requires ValidDate(today) && season != 0 && week != 0
    ensures SlateFor(Some(season), Some(week), includeMarkets, today, fetch, markets, proj).Some? <==> WeekWindow(season, week).Some?
  {
    SoftRaises(season, week, fetch);
  }

  /** What `nfl_edges_simple` returns: with the week when the slate fell
      back, else the bare rows. */
  datatype SimpleEdges = WithFallback(shown: Shown, rows: seq<SlateRow>) | Bare(rows: seq<SlateRow>)

  function EdgesSimple(when: Option<string>, season: Option<int>, week: Option<int>, order: SortBy, limit: int, today: Date,
                       fetch: (int, int) -> seq<Event>, markets: Option<map<string, Line>>, proj: map<(string, string), Projection>): Option<SimpleEdges>
    requires ValidDate(today)
  {
    var data := ProjectionsSimple(when, season, week, true, today, fetch, markets, proj);
    if data.None? then None
    else
      var out := TopRows(data.value.rows, order, limit);
      if data.value.shown.fallbackFrom.Some? then Some(WithFallback(data.value.shown, out)) else Some(Bare(out))
  }

  /** The simple edges carry the week only when the slate fell back, and their
      rows are the slate's ranking cut to the limit. */
  lemma EdgesSimpleShape(when: Option<string>, season: Option<int>, week: Option<int>, order: SortBy, limit: int, today: Date,
                         fetch: (int, int) -> seq<Event>, markets: Option<map<string, Line>>, proj: map<(string, string), Projection>)
    requires ValidDate(today)
    ensures var r, d := EdgesSimple(when, season, week, order, limit, today, fetch, markets, proj),
                        ProjectionsSimple(when, season, week, true, today, fetch, markets, proj);
      && (r.Some? <==> d.Some?)
      && (r.Some? ==> r.value.rows == TopRows(d.value.rows, order, limit))
      && (r.Some? ==> (r.value.WithFallback? <==> d.value.shown.fallbackFrom.Some?))
  {
  }

  // ---------------------------------------------------------------------
  // The `scope` that direct calls hand to `nfl_slate`
  // ---------------------------------------------------------------------

  /** The `scope` that reaches `nfl_slate`: the text of a request, which its
      pattern already holds to "FG", or the `Query("FG", ...)` marker that a
      plain Python call leaves as the default.  The marker is not a string,
      so it never equals "FG". */
  datatype ScopeArg = ScopeText(text: string) | QueryMarker

  /** An answer once the scope test has run: the 400 "NFL supports FG scope
      only", or what the endpoint gives past the test (`None` when it
      raised). */
  datatype Scoped<T> = BadScope | Past(answer: Option<T>)

  /** `nfl_slate` with its scope test first. */
  function SlateScoped(scope: ScopeArg, season: Option<int>, week: Option<int>, includeMarkets: bool, today: Date,
                       fetch: (int, int) -> seq<Event>, markets: Option<map<string, Line>>, proj: map<(string, string), Projection>): Scoped<Slate>
    requires ValidDate(today)
  {
    if scope != ScopeText("FG") then BadScope else Past(SlateFor(season, week, includeMarkets, today, fetch, markets, proj))
  }

  /** `nfl_edges`, whose call to `nfl_slate` passes `direct` as the scope. */
  function EdgesRoute(direct: ScopeArg, season: Option<int>, week: Option<int>, order: SortBy, limit: int, today: Date,
                      fetch: (int, int) -> seq<Event>, markets: Option<map<string, Line>>, proj: map<(string, string), Projection>): Scoped<Edges>
    requires ValidDate(today)
  {
    match SlateScoped(direct, season, week, true, today, fetch, markets, proj)
    case BadScope => BadScope
    case Past(_) => Past(EdgesFor(season, week, order, limit, today, fetch, markets, proj))
  }

  /** `nfl_this_week`, passing `direct` as the scope. */
  function ThisWeekRoute(direct: ScopeArg, includeMarkets: bool, today: Date, fetch: (int, int) -> seq<Event>,
                         markets: Option<map<string, Line>>, proj: map<(string, string), Projection>): Scoped<Slate>
    requires ValidDate(today)
  {
    SlateScoped(direct, None, None, includeMarkets, today, fetch, markets, proj)
  }

  /** `nfl_week_slate`, passing `direct` as the scope. */
  function WeekRoute(direct: ScopeArg, season: int, week: int, includeMarkets: bool, today: Date, fetch: (int, int) -> seq<Event>,
                     markets: Option<map<string, Line>>, proj: map<(string, string), Projection>): Scoped<Slate>
    requires ValidDate(today)
  {
    SlateScoped(direct, Some(season), Some(week), includeMarkets, today, fetch, markets, proj)
  }

  /** `nfl_projections_simple` over the two endpoints above: the `except
      Exception` of the "week:Y:W" branch catches the 400 too, and the
      fallback to this week runs into the same test. */
  function ProjectionsRoute(direct: ScopeArg, when: Option<string>, season: Option<int>, week: Option<int>, includeMarkets: bool, today: Date,
                            fetch: (int, int) -> seq<Event>, markets: Option<map<string, Line>>, proj: map<(string, string), Projection>): Scoped<Slate>
    requires ValidDate(today)
  {
    RouteOfTarget(direct, WhenTarget(when, season, week), includeMarkets, today, fetch, markets, proj)
  }

  /** The answer for the week `nfl_projections_simple` selected. */
  function RouteOfTarget(direct: ScopeArg, t: Target, includeMarkets: bool, today: Date,
                         fetch: (int, int) -> seq<Event>, markets: Option<map<string, Line>>, proj: map<(string, string), Projection>): Scoped<Slate>
    requires ValidDate(today)
  {
    var thisWeek := ThisWeekRoute(direct, includeMarkets, today, fetch, markets, proj);
    match t
    case GivenWeek(s, w) => WeekRoute(direct, s, w, includeMarkets, today, fetch, markets, proj)
    case ThisWeek => thisWeek
    case ParsedWeek(s, w) =>
      var r := WeekRoute(direct, s, w, includeMarkets, today, fetch, markets, proj);
      if r.Past? && r.answer.Some? then r else thisWeek
  }

  /** `nfl_edges_simple` over `nfl_projections_simple`. */
  function EdgesSimpleRoute(direct: ScopeArg, when: Option<string>, season: Option<int>, week: Option<int>, order: SortBy, limit: int, today: Date,
                            fetch: (int, int) -> seq<Event>, markets: Option<map<string, Line>>, proj: map<(string, string), Projection>): Scoped<SimpleEdges>
    requires ValidDate(today)
  {
    match ProjectionsRoute(direct, when, season, week, true, today, fetch, markets, proj)
    case BadScope => BadScope
    case Past(_) => Past(EdgesSimple(when, season, week, order, limit, today, fetch, markets, proj))
  }

  /** As written, the direct calls leave the marker as the scope, and every
      endpoint that reaches `nfl_slate` through one answers 400 whatever it
      is asked. */
  lemma DirectCallsRejected(when: Option<string>, season: Option<int>, week: Option<int>, ws: int, ww: int, order: SortBy, limit: int,
                            includeMarkets: bool, today: Date, fetch: (int, int) -> seq<Event>,
                            markets: Option<map<string, Line>>, proj: map<(string, string), Projection>)
    requires ValidDate(today)
    ensures EdgesRoute(QueryMarker, season, week, order, limit, today, fetch, markets, proj) == BadScope
    ensures ThisWeekRoute(QueryMarker, includeMarkets, today, fetch, markets, proj) == BadScope
    ensures WeekRoute(QueryMarker, ws, ww, includeMarkets, today, fetch, markets, proj) == BadScope
    ensures ProjectionsRoute(QueryMarker, when, season, week, includeMarkets, today, fetch, markets, proj) == BadScope
    ensures EdgesSimpleRoute(QueryMarker, when, season, week, order, limit, today, fetch, markets, proj) == BadScope
  {
  }

  /** With "FG" passed, the scope test lets every endpoint through to the
      definitions above, which the rest of this module states properties
      of. */
  lemma FgScopeServes(when: Option<string>, season: Option<int>, week: Option<int>, ws: int, ww: int, order: SortBy, limit: int,
                      includeMarkets: bool, today: Date, fetch: (int, int) -> seq<Event>,
                      markets: Option<map<string, Line>>, proj: map<(string, string), Projection>)
    requires ValidDate(today)
    ensures EdgesRoute(ScopeText("FG"), season, week, order, limit, today, fetch, markets, proj) ==
            Past(EdgesFor(season, week, order, limit, today, fetch, markets, proj))
    ensures ThisWeekRoute(ScopeText("FG"), includeMarkets, today, fetch, markets, proj) ==
            Past(SlateFor(None, None, includeMarkets, today, fetch, markets, proj))
    ensures WeekRoute(ScopeText("FG"), ws, ww, includeMarkets, today, fetch, markets, proj) ==
            Past(SlateFor(Some(ws), Some(ww), includeMarkets, today, fetch, markets, proj))
    ensures EdgesSimpleRoute(ScopeText("FG"), when, season, week, order, limit, today, fetch, markets, proj) ==
            Past(EdgesSimple(when, season, week, order, limit, today, fetch, markets, proj))
  {
    ProjectionsServed(when, season, week, true, today, fetch, markets, proj);
  }

  /** With "FG" passed, `nfl_projections_simple` answers what
      `ProjectionsSimple` gives: no 400 is left for its `except` to catch. */
  lemma ProjectionsServed(when: Option<string>, season: Option<int>, week: Option<int>, includeMarkets: bool, today: Date,
                          fetch: (int, int) -> seq<Event>, markets: Option<map<string, Line>>, proj: map<(string, string), Projection>)
    requires ValidDate(today)
    ensures ProjectionsRoute(ScopeText("FG"), when, season, week, includeMarkets, today, fetch, markets, proj) ==
            Past(ProjectionsSimple(when, season, week, includeMarkets, today, fetch, markets, proj))
  {
    TargetServed(WhenTarget(when, season, week), includeMarkets, today, fetch, markets, proj);
  }

  /** With "FG" passed, the answer for any selected week is its slate. */
  lemma TargetServed(t: Target, includeMarkets: bool, today: Date,
                     fetch: (int, int) -> seq<Event>, markets: Option<map<string, Line>>, proj: map<(string, string), Projection>)
    requires ValidDate(today)
    ensures RouteOfTarget(ScopeText("FG"), t, includeMarkets, today, fetch, markets, proj) ==
            Past(SlateOfTarget(t, includeMarkets, today, fetch, markets, proj))
  {
  }
}
