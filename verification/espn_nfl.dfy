/** The NFL client of `app/services/espn_nfl.py`: one day's scoreboard, asked
    for as the one-day range `dates=d-d`, and the inclusive day range that
    asks for each day in turn and skips the days that fail.  The network is
    a table from the `dates` parameter to the reply; dates compare as their
    day numbers (`Calendar.OrdinalOrder`). */
module EspnNfl {
  import opened Common
  import opened Calendar
  import opened Scoreboard
  import opened EspnGames

  const SiteApi: string := "https://site.api.espn.com/apis/site/v2/sports/football/nfl/scoreboard"

  /** The request for an already coerced day: a failed request raises, and a
      reply whose events are missing or not a list is `[]`. */
  function FetchDay(d: string, net: map<string, Reply>): (r: Outcome<seq<Event>>)
  {
    var reply := Fetch(net, Range(d));
    if reply.Failed? then Raise(RequestError) else Ok(ListOrEmpty(reply.events))
  }

  /** `get_games_for_date`, with the clock read as `today`. */
  function GamesForDate(date: Option<string>, today: Date, net: map<string, Reply>): (r: Outcome<seq<Event>>)
    requires ValidDate(today)
  {
    var c := CoerceYyyymmdd(date, today);
    if c.Raise? then Raise(c.error) else FetchDay(c.value, net)
  }

  /** A date that cannot be coerced raises ValueError before any request; a
      coerced day asks for `d-d` once, raises only if that request fails, and
      otherwise returns the reply's event list, `[]` when it has none or it is
      not a list. */
  lemma GamesForDateMeaning(date: Option<string>, today: Date, net: map<string, Reply>)
    requires ValidDate(today)
    ensures var r, c := GamesForDate(date, today, net), CoerceYyyymmdd(date, today);
      && (c.Raise? <==> r == Raise(ValueError))
      && (c.Ok? ==> (r == Raise(RequestError) <==> Range(c.value) !in net || net[Range(c.value)].Failed?))
      && (c.Ok? && r.Ok? ==> r.value == ListOrEmpty(net[Range(c.value)].events))
  {
  }

  /** A day written YYYYMMDD is coerced to itself, so asking for it through
      `get_games_for_date` is the request for that day whatever the clock. */
  lemma GamesForFormattedDay(d: Date, today: Date, net: map<string, Reply>)
    requires ValidDate(d) && ValidDate(today)
    ensures GamesForDate(Some(Yyyymmdd(d)), today, net) == FetchDay(Yyyymmdd(d), net)
  {
    CoerceIdempotent(None, d);
  }

  // ---------------------------------------------------------------------
  // `get_games_for_range`
  // ---------------------------------------------------------------------

  /** The `while cur <= end_d` loop from `cur` on: each day formatted
      YYYYMMDD, and the OverflowError of stepping past 9999-12-31 when the
      range reaches that day. */
  function DaysFrom(cur: Date, last: Date): (r: Outcome<seq<string>>)
    requires ValidDate(cur) && ValidDate(last)
    decreases Ordinal(last) - Ordinal(cur)
  {
    if Ordinal(cur) > Ordinal(last) then Ok([])
    else
      var next := NextDay(cur);
      if next.None? then Raise(OverflowError)
      else
        NextDayOrdinal(cur);
        var rest := DaysFrom(next.value, last);
        if rest.Raise? then rest else Ok([Yyyymmdd(cur)] + rest.value)
  }

  /** One turn of the loop: the day `cur`, then the days after it. */
  lemma DaysFromStep(cur: Date, last: Date)
    requires ValidDate(cur) && ValidDate(last)
    requires Ordinal(cur) <= Ordinal(last) && NextDay(cur).Some?
    ensures DaysFrom(cur, last) == Prepend([Yyyymmdd(cur)], DaysFrom(NextDay(cur).value, last))
  {
  }

  /** The list is missing, for the OverflowError, exactly when the range is
      not empty and ends on 9999-12-31. */
  lemma {:induction false} DaysFromRaises(cur: Date, last: Date)
    requires ValidDate(cur) && ValidDate(last)
    ensures var r := DaysFrom(cur, last);
      && (r.Raise? <==> Ordinal(cur) <= Ordinal(last) && last == Date(MaxYear, 12, 31))
      && (r.Raise? ==> r.error == OverflowError)
    decreases Ordinal(last) - Ordinal(cur)
  {
    if Ordinal(cur) <= Ordinal(last) {
      NextDayOrdinal(cur);
      NextDayOrdinal(last);
      OrdinalRange(last);
      if NextDay(cur).None? {
        OrdinalInjective(cur, last);
      } else {
        var next := NextDay(cur).value;
        OrdinalRange(next);
        DaysFromRaises(next, last);
      }
    }
  }

  /** The list has one entry per day from `cur` to `last`, and its `i`-th
      entry is the YYYYMMDD of the day `i` days after `cur`. */
  lemma {:induction false} DaysFromDays(cur: Date, last: Date)
    requires ValidDate(cur) && ValidDate(last) && DaysFrom(cur, last).Ok?
    ensures var days := DaysFrom(cur, last).value;
      && |days| == (if Ordinal(cur) <= Ordinal(last) then Ordinal(last) - Ordinal(cur) + 1 else 0)
      && forall i | 0 <= i < |days| ::
           |days[i]| == 8 && AllDigits(days[i]) &&
           ParseCompact(days[i]).Some? && Ordinal(ParseCompact(days[i]).value) == Ordinal(cur) + i
    decreases Ordinal(last) - Ordinal(cur)
  {
    if Ordinal(cur) <= Ordinal(last) {
      NextDayOrdinal(cur);
      var next := NextDay(cur).value;
      DaysFromDays(next, last);
      ParseCompactOfFormat(cur);
      var days, rest := DaysFrom(cur, last).value, DaysFrom(next, last).value;
      assert days == [Yyyymmdd(cur)] + rest;
      DayListCons(Yyyymmdd(cur), rest, Ordinal(cur));
    }
  }

  /** A day's YYYYMMDD in front of the YYYYMMDDs of the following days. */
  lemma DayListCons(d: string, rest: seq<string>, start: int)
    requires |d| == 8 && AllDigits(d) && ParseCompact(d).Some? && Ordinal(ParseCompact(d).value) == start
    requires forall i | 0 <= i < |rest| ::
      |rest[i]| == 8 && AllDigits(rest[i]) && ParseCompact(rest[i]).Some? && Ordinal(ParseCompact(rest[i]).value) == start + 1 + i
    ensures forall i | 0 <= i < |[d] + rest| ::
      |([d] + rest)[i]| == 8 && AllDigits(([d] + rest)[i]) && ParseCompact(([d] + rest)[i]).Some? &&
      Ordinal(ParseCompact(([d] + rest)[i]).value) == start + i
  {
    var days := [d] + rest;
    forall i | 0 <= i < |days|
      ensures |days[i]| == 8 && AllDigits(days[i]) && ParseCompact(days[i]).Some? && Ordinal(ParseCompact(days[i]).value) == start + i
    {
      if i == 0 {
        assert days[i] == d;
      } else {
        var e := rest[i - 1];
        assert days[i] == e;
        assert |e| == 8 && AllDigits(e) && ParseCompact(e).Some? && Ordinal(ParseCompact(e).value) == start + 1 + (i - 1);
      }
    }
  }

  /** `[days] + outcome`: the days found so far in front of the rest. */
  function Prepend(days: seq<string>, rest: Outcome<seq<string>>): Outcome<seq<string>>
  {
    if rest.Raise? then rest else Ok(days + rest.value)
  }

  lemma PrependEmpty(rest: Outcome<seq<string>>)
    ensures Prepend([], rest) == rest
  {
    if rest.Ok? {
      assert [] + rest.value == rest.value;
    }
  }

  lemma PrependTwice(a: seq<string>, b: seq<string>, rest: Outcome<seq<string>>)
    ensures Prepend(a, Prepend(b, rest)) == Prepend(a + b, rest)
  {
    if rest.Ok? {
      assert a + (b + rest.value) == (a + b) + rest.value;
    }
  }

  /** The events of the days in `days`, in day order; a day whose request
      fails adds nothing. */
  function Collect(days: seq<string>, net: map<string, Reply>): seq<Event>
  {
    if days == [] then []
    else
      var day := FetchDay(days[|days| - 1], net);
      Collect(days[..|days| - 1], net) + (if day.Ok? then day.value else [])
  }

  /** Collecting splits over consecutive stretches of days. */
  lemma {:induction false} CollectAppend(a: seq<string>, b: seq<string>, net: map<string, Reply>)
    ensures Collect(a + b, net) == Collect(a, net) + Collect(b, net)
    decreases |b|
  {
    if b == [] {
      assert a + b == a;
    } else {
      var b' := b[..|b| - 1];
      assert (a + b)[..|a + b| - 1] == a + b';
      CollectAppend(a, b', net);
    }
  }

  /** When every request fails, nothing is collected. */
  lemma {:induction false} CollectAllFail(days: seq<string>, net: map<string, Reply>)
    requires forall i | 0 <= i < |days| :: FetchDay(days[i], net).Raise?
    ensures Collect(days, net) == []
  {
    if days != [] {
      CollectAllFail(days[..|days| - 1], net);
    }
  }

  /** The range in day order: the earlier of the two dates first. */
  function Ordered(start: Date, end: Date): (r: (Date, Date))
    requires ValidDate(start) && ValidDate(end)
    ensures r == (start, end) || r == (end, start)
    ensures Ordinal(r.0) <= Ordinal(r.1)
  {
    if Ordinal(end) < Ordinal(start) then (end, start) else (start, end)
  }

  /** What `get_games_for_range` returns or raises. */
  function GamesForRange(start: Date, end: Date, net: map<string, Reply>): (r: Outcome<seq<Event>>)
    requires ValidDate(start) && ValidDate(end)
  {
    var (lo, hi) := Ordered(start, end);
    var days := DaysFrom(lo, hi);
    if days.Raise? then Raise(days.error) else Ok(Collect(days.value, net))
  }

  /** `get_games_for_range` on the two dates as days in New York: swap them
      if they are out of order, list the days from the first to the last,
      then ask for each day and keep the events of the days that answer. */
  method GetGamesForRange(start: Date, end: Date, net: map<string, Reply>) returns (r: Outcome<seq<Event>>)
    requires ValidDate(start) && ValidDate(end)
    ensures r == GamesForRange(start, end, net)
  {
    var lo, hi := start, end;
    if Ordinal(hi) < Ordinal(lo) {
      lo, hi := end, start;
    }
    var days := ListDays(lo, hi);
    if days.Raise? {
      return Raise(days.error);
    }
    var out := CollectDays(days.value, net);
    r := Ok(out);
  }

  /** The first loop of `get_games_for_range`: the days from `lo` through `hi`. */
  method ListDays(lo: Date, hi: Date) returns (r: Outcome<seq<string>>)
    requires ValidDate(lo) && ValidDate(hi)
    ensures r == DaysFrom(lo, hi)
  {
    var days: seq<string> := [];
    var cur := lo;
    PrependEmpty(DaysFrom(lo, hi));
    while Ordinal(cur) <= Ordinal(hi)
      invariant ValidDate(cur)
      invariant Prepend(days, DaysFrom(cur, hi)) == DaysFrom(lo, hi)
      decreases Ordinal(hi) - Ordinal(cur)
    {
      var next := NextDay(cur);
      if next.None? {
        assert DaysFrom(cur, hi) == Raise(OverflowError);
        return Raise(OverflowError);
      }
      NextDayOrdinal(cur);
      DaysFromStep(cur, hi);
      PrependTwice(days, [Yyyymmdd(cur)], DaysFrom(next.value, hi));
      days := days + [Yyyymmdd(cur)];
      cur := next.value;
    }
    assert DaysFrom(cur, hi) == Ok([]);
    assert days + [] == days;
    r := Ok(days);
  }

  /** The second loop of `get_games_for_range`: each day asked for in turn,
      a failing day skipped. */
  method CollectDays(days: seq<string>, net: map<string, Reply>) returns (out: seq<Event>)
    ensures out == Collect(days, net)
  {
    out := [];
    for i := 0 to |days|
      invariant out == Collect(days[..i], net)
    {
      assert days[..i + 1][..i] == days[..i];
      var evs := FetchDay(days[i], net);
      if evs.Ok? {
        out := out + evs.value;
      }
    }
    assert days[..|days|] == days;
  }

  /** The order of the two dates does not matter. */
  lemma RangeSymmetric(a: Date, b: Date, net: map<string, Reply>)
    requires ValidDate(a) && ValidDate(b)
    ensures GamesForRange(a, b, net) == GamesForRange(b, a, net)
  {
    if Ordinal(a) == Ordinal(b) {
      OrdinalInjective(a, b);
    }
  }

  /** A range ending before 9999-12-31 never raises: it is the events of its
      days, earliest day first, each day asked for once. */
  lemma RangeNeverRaises(a: Date, b: Date, net: map<string, Reply>)
    requires ValidDate(a) && ValidDate(b)
    requires a != Date(MaxYear, 12, 31) && b != Date(MaxYear, 12, 31)
    ensures GamesForRange(a, b, net).Ok?
  {
    var (lo, hi) := Ordered(a, b);
    DaysFromRaises(lo, hi);
  }
}
