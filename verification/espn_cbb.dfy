/** The men's college basketball client of `app/services/espn_cbb.py`: the
    eight request variants tried for one day, and the day lookup that falls
    back to the day before and the day after.  The network is the `net`
    table of `EspnGames.Fetch`. */
module EspnCbb {
  import opened Common
  import opened Calendar
  import opened Scoreboard
  import opened EspnGames

  /** The primary host and the fallback host, in the order they are tried. */
  const BaseUrls: seq<string> := [
    "https://site.api.espn.com/apis/site/v2/sports/basketball/mens-college-basketball/scoreboard",
    "https://site.web.api.espn.com/apis/site/v2/sports/basketball/mens-college-basketball/scoreboard"
  ]

  /** One request: host, the `dates` parameter, and whether `groups=50`
      (Division I) is sent; `limit=500` is sent with every one. */
  datatype Request = Request(base: string, dates: string, groups: bool)

  /** The four parameter shapes on one host: single, single with groups,
      range, range with groups. */
  function Shapes(base: string, d: string): (r: seq<Request>)
  {
    [Request(base, d, false), Request(base, d, true), Request(base, Range(d), false), Request(base, Range(d), true)]
  }

  /** The candidate list for the hosts `bases`, host by host. */
  function Candidates(bases: seq<string>, d: string): (r: seq<Request>)
    ensures |r| == 4 * |bases|
  {
    if bases == [] then [] else Candidates(bases[..|bases| - 1], d) + Shapes(bases[|bases| - 1], d)
  }

  /** The list is the four shapes on the primary host, then on the fallback. */
  lemma CandidateOrder(d: string)
    ensures Candidates(BaseUrls, d) == Shapes(BaseUrls[0], d) + Shapes(BaseUrls[1], d)
  {
    assert BaseUrls[..1][..0] == [];
    assert BaseUrls[..1] == [BaseUrls[0]];
  }

  /** A reply `_try_variants` accepts: a non-empty list of events. */
  predicate Usable(r: Reply)
  {
    r.Body? && r.events.EventList? && r.events.events != []
  }

  /** Trying the candidates from `i` on: the first accepted events and the
      number of requests sent in all, or `[]` after every one of them. */
  function FirstUsable(cands: seq<Request>, net: map<Request, Reply>, i: nat): (r: (seq<Event>, nat))
    requires i <= |cands|
    decreases |cands| - i
  {
    if i == |cands| then ([], i)
    else
      var reply := Fetch(net, cands[i]);
      if Usable(reply) then (reply.events.events, i + 1)
      else FirstUsable(cands, net, i + 1)
  }

  /** What `_try_variants` returns for the day `d`. */
  function Variants(d: string, net: map<Request, Reply>): seq<Event>
  {
    FirstUsable(Candidates(BaseUrls, d), net, 0).0
  }

  /** The result is the events of the first candidate that gave any; every
      earlier candidate failed or gave none; `[]` only after all eight. */
  lemma FirstUsableMeaning(cands: seq<Request>, net: map<Request, Reply>, i: nat)
    requires i <= |cands|
    ensures var (evs, sent) := FirstUsable(cands, net, i);
      && i <= sent <= |cands|
      && (forall k | i <= k < sent - 1 :: !Usable(Fetch(net, cands[k])))
      && (evs != [] ==> sent > i && Usable(Fetch(net, cands[sent - 1])) && evs == Fetch(net, cands[sent - 1]).events.events)
      && (evs == [] <==> sent == |cands| && forall k | i <= k < |cands| :: !Usable(Fetch(net, cands[k])))
    decreases |cands| - i
  {
    if i < |cands| && !Usable(Fetch(net, cands[i])) {
      FirstUsableMeaning(cands, net, i + 1);
    }
  }

  /** `_try_variants`: builds the eight candidates host by host, then sends
      them in order until one gives a non-empty list; a request that raises
      is passed over. */
  method TryVariants(d: string, net: map<Request, Reply>) returns (events: seq<Event>, sent: nat)
    ensures (events, sent) == FirstUsable(Candidates(BaseUrls, d), net, 0)
    ensures sent <= 8
  {
    var cands: seq<Request> := [];
    for b := 0 to |BaseUrls|
      invariant cands == Candidates(BaseUrls[..b], d)
    {
      assert BaseUrls[..b + 1][..b] == BaseUrls[..b];
      cands := cands + Shapes(BaseUrls[b], d);
    }
    assert BaseUrls[..|BaseUrls|] == BaseUrls;
    var i := 0;
    while i < |cands|
      invariant i <= |cands|
      invariant FirstUsable(cands, net, i) == FirstUsable(cands, net, 0)
    {
      var reply := Fetch(net, cands[i]);
      if Usable(reply) {
        return reply.events.events, i + 1;
      }
      i := i + 1;
    }
    events, sent := [], i;
    FirstUsableMeaning(cands, net, 0);
  }

  /** The first of `lists` that is not empty, else `[]`. */
  function FirstNonEmpty(lists: seq<seq<Event>>): (r: seq<Event>)
    ensures r == [] <==> forall k | 0 <= k < |lists| :: lists[k] == []
    ensures r != [] ==> r in lists
  {
    if lists == [] then []
    else if lists[0] != [] then lists[0]
    else FirstNonEmpty(lists[1..])
  }

  /** The soft fallback around midnight: the day offsets tried, in order. */
  const Deltas: seq<int> := [-1, 1]

  /** `(dt + timedelta(days=delta)).strftime("%Y%m%d")` for the two offsets
      used; `None` is the OverflowError before 0001-01-01 or after 9999-12-31. */
  function Shifted(dt: Date, delta: int): (r: Option<string>)
    requires ValidDate(dt) && (delta == -1 || delta == 1)
  {
    var n := if delta < 0 then PrevDay(dt) else NextDay(dt);
    if n.Some? then Some(Yyyymmdd(n.value)) else None
  }

  /** Trying the days `alts[k..]` in order: the first that gives events, an
      OverflowError at the first day out of range, or `[]`. */
  function Fallback(alts: seq<Option<string>>, k: nat, net: map<Request, Reply>): (r: Outcome<seq<Event>>)
    requires k <= |alts|
    decreases |alts| - k
  {
    if k == |alts| then Ok([])
    else if alts[k].None? then Raise(OverflowError)
    else
      var evs := Variants(alts[k].value, net);
      if evs != [] then Ok(evs) else Fallback(alts, k + 1, net)
  }

  /** The days tried after the requested one: the day before, then the day after. */
  function Neighbours(dt: Date): (alts: seq<Option<string>>)
    requires ValidDate(dt)
    ensures |alts| == |Deltas|
  {
    [Shifted(dt, Deltas[0]), Shifted(dt, Deltas[1])]
  }

  /** What `get_games_for_date` returns or raises. */
  function GamesForDate(date: Option<string>, today: Date, net: map<Request, Reply>): (r: Outcome<seq<Event>>)
    requires ValidDate(today)
  {
    var c := CoerceYyyymmdd(date, today);
    if c.Raise? then Raise(c.error)
    else
      var d := c.value;
      var evs := Variants(d, net);
      if evs != [] then Ok(evs)
      else
        var dt := ParseCompact(d);
        if dt.None? then Raise(ValueError)
        else Fallback(Neighbours(dt.value), 0, net)
  }

  /** `get_games_for_date`: coerce the date, try it, and when it gives nothing
      parse it (an impossible eight-digit date raises here) and try the day
      before and then the day after. */
  method GetGamesForDate(date: Option<string>, today: Date, net: map<Request, Reply>) returns (r: Outcome<seq<Event>>)
    requires ValidDate(today)
    ensures r == GamesForDate(date, today, net)
  {
    var c := CoerceYyyymmdd(date, today);
    if c.Raise? {
      return Raise(c.error);
    }
    var d := c.value;
    var events, _ := TryVariants(d, net);
    if events != [] {
      return Ok(events);
    }
    var dt := ParseCompact(d);
    if dt.None? {
      return Raise(ValueError);
    }
    r := TryNeighbours(dt.value, net);
  }

  /** The `for delta in (-1, 1)` loop of `get_games_for_date`. */
  method TryNeighbours(dt: Date, net: map<Request, Reply>) returns (r: Outcome<seq<Event>>)
    requires ValidDate(dt)
    ensures r == Fallback(Neighbours(dt), 0, net)
  {
    ghost var alts := Neighbours(dt);
    for k := 0 to |Deltas|
      invariant Fallback(alts, k, net) == Fallback(alts, 0, net)
    {
      var alt := Shifted(dt, Deltas[k]);
      assert alts[k] == alt;
      if alt.None? {
        return Raise(OverflowError);
      }
      var evs, _ := TryVariants(alt.value, net);
      if evs != [] {
        return Ok(evs);
      }
    }
    r := Ok([]);
  }

  /** With both neighbours inside the calendar, both are tried, in order. */
  lemma FallbackInside(alts: seq<Option<string>>, net: map<Request, Reply>)
    requires |alts| == 2 && alts[0].Some? && alts[1].Some?
    ensures Fallback(alts, 0, net) == Ok(FirstNonEmpty([Variants(alts[0].value, net), Variants(alts[1].value, net)]))
  {
    var lists := [Variants(alts[0].value, net), Variants(alts[1].value, net)];
    assert lists[1..] == [lists[1]];
    assert Fallback(alts, 1, net) == Ok(FirstNonEmpty(lists[1..]));
  }

  /** The fallback raises only at a neighbour outside the calendar. */
  lemma FallbackRaises(alts: seq<Option<string>>, net: map<Request, Reply>)
    requires |alts| == 2
    ensures var r := Fallback(alts, 0, net);
      r.Raise? ==> r.error == OverflowError && (alts[0].None? || alts[1].None?)
  {
    assert Fallback(alts, 2, net) == Ok([]);
    assert Fallback(alts, 1, net).Raise? ==> alts[1].None?;
  }

  /** The neighbours are the day before and the day after, each missing only
      at its end of the calendar. */
  lemma NeighboursShape(dt: Date)
    requires ValidDate(dt)
    ensures var alts := Neighbours(dt);
      && (alts[0].None? <==> dt == Date(MinYear, 1, 1))
      && (alts[0].Some? ==> alts[0].value == Yyyymmdd(PrevDay(dt).value))
      && (alts[1].None? <==> dt == Date(MaxYear, 12, 31))
      && (alts[1].Some? ==> alts[1].value == Yyyymmdd(NextDay(dt).value))
  {
  }

  /** For a day with a day before and a day after it, the lookup returns the
      first non-empty answer of that day, the day before and the day after,
      and never raises. */
  lemma GamesForDateNeighbours(date: Option<string>, today: Date, net: map<Request, Reply>)
    requires ValidDate(today)
    requires CoerceYyyymmdd(date, today).Ok?
    requires ParseCompact(CoerceYyyymmdd(date, today).value).Some?
    requires var dt := ParseCompact(CoerceYyyymmdd(date, today).value).value;
      dt != Date(MinYear, 1, 1) && dt != Date(MaxYear, 12, 31)
    ensures var d := CoerceYyyymmdd(date, today).value;
      var dt := ParseCompact(d).value;
      GamesForDate(date, today, net) ==
        Ok(FirstNonEmpty([Variants(d, net),
                          Variants(Yyyymmdd(PrevDay(dt).value), net),
                          Variants(Yyyymmdd(NextDay(dt).value), net)]))
  {
    var d := CoerceYyyymmdd(date, today).value;
    var dt := ParseCompact(d).value;
    NeighboursShape(dt);
    FallbackInside(Neighbours(dt), net);
    var lists := [Variants(d, net), Variants(Yyyymmdd(PrevDay(dt).value), net), Variants(Yyyymmdd(NextDay(dt).value), net)];
    assert lists[1..] == [lists[1], lists[2]];
  }

  /** The answer for the requested day wins whenever it has events; the
      lookup raises only a ValueError for a date it cannot read, or an
      OverflowError when it must step past 0001-01-01 or 9999-12-31. */
  lemma GamesForDateErrors(date: Option<string>, today: Date, net: map<Request, Reply>)
    requires ValidDate(today)
    ensures var r := GamesForDate(date, today, net);
      var c := CoerceYyyymmdd(date, today);
      && (c.Raise? ==> r == Raise(ValueError))
      && (c.Ok? && Variants(c.value, net) != [] ==> r == Ok(Variants(c.value, net)))
      && (r == Raise(ValueError) ==> c.Raise? || ParseCompact(c.value).None?)
      && (r == Raise(OverflowError) ==>
            c.Ok? && ParseCompact(c.value).Some? &&
            (ParseCompact(c.value).value == Date(MinYear, 1, 1) || ParseCompact(c.value).value == Date(MaxYear, 12, 31)))
  {
    var c := CoerceYyyymmdd(date, today);
    if c.Ok? && Variants(c.value, net) == [] && ParseCompact(c.value).Some? {
      var dt := ParseCompact(c.value).value;
      NeighboursShape(dt);
      FallbackRaises(Neighbours(dt), net);
    }
  }
}
