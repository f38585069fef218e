/** What the ESPN scoreboard clients of `app/services/espn_cbb.py` and
    `app/services/espn_nfl.py` share: the reply of one scoreboard request, the
    exceptions the clients let escape, the `YYYYMMDD` coercion of a date
    parameter, and the "lite" row a router shows for an event.  The two files
    carry the same `_team_name` and `extract_game_lite` text; their
    `_coerce_yyyymmdd` differ in how they reach the ValueError for an
    impossible dashed date, and `CoerceAgree` shows that they agree. */
module EspnGames {
  import opened Common
  import opened Calendar
  import opened Scoreboard

  /** The exceptions that can leave a client call. */
  datatype Raised = ValueError | OverflowError | RequestError | TypeError

  /** A value, or the exception that was raised instead. */
  datatype Outcome<T> = Ok(value: T) | Raise(error: Raised)

  /** `data.get("events") or []` of a decoded reply: missing, null and every
      falsy value read as `[]`; a truthy value that is not a list stays that. */
  datatype EventsField = NoEvents | NotAList | EventList(events: seq<Event>)

  /** One scoreboard request after `_get_json`'s retries: it failed (the
      exception re-raised), or it gave a JSON object. */
  datatype Reply = Failed | Body(events: EventsField)

  /** The network as a table from request to reply; a request it does not list fails. */
  function Fetch<K>(net: map<K, Reply>, k: K): (r: Reply)
    ensures k !in net ==> r == Failed
    ensures k in net ==> r == net[k]
  {
    if k in net then net[k] else Failed
  }

  /** The events of a reply as a list, `[]` when they are missing or not a list. */
  function ListOrEmpty(f: EventsField): (r: seq<Event>)
    ensures f.EventList? ==> r == f.events
    ensures !f.EventList? ==> r == []
  {
    if f.EventList? then f.events else []
  }

  /** `dates=d-d`, the one-day range both clients can send. */
  function Range(d: string): string
  {
    d + "-" + d
  }

  // ---------------------------------------------------------------------
  // `_coerce_yyyymmdd`
  // ---------------------------------------------------------------------

  /** The stripped text has the dashes of YYYY-MM-DD at 4 and 7. */
  predicate DashShape(ds: string)
  {
    |ds| == 10 && ds[4] == '-' && ds[7] == '-'
  }

  /** `_coerce_yyyymmdd` of `espn_cbb.py`, with the clock read as `today`:
      no date is today; YYYY-MM-DD is parsed and re-formatted (an impossible
      date raises from `strptime`); eight digits pass unchecked; anything
      else is a ValueError. */
  function CoerceYyyymmdd(date: Option<string>, today: Date): (r: Outcome<string>)
    requires ValidDate(today)
    ensures r.Ok? ==> |r.value| == 8 && AllDigits(r.value)
    ensures r.Raise? ==> r.error == ValueError
  {
    if date.None? || date.value == "" then Ok(Yyyymmdd(today))
    else
      var ds := Strip(date.value);
      if DashShape(ds) then
        var dt := ParseDashed(ds);
        if dt.Some? then Ok(Yyyymmdd(dt.value)) else Raise(ValueError)
      else if |ds| == 8 && AllDigits(ds) then Ok(ds)
      else Raise(ValueError)
  }

  /** `_coerce_yyyymmdd` of `espn_nfl.py` as written: a dashed date that does
      not parse falls through to the eight-digit test before the ValueError. */
  function CoerceFallThrough(date: Option<string>, today: Date): (r: Outcome<string>)
    requires ValidDate(today)
  {
    if date.None? || date.value == "" then Ok(Yyyymmdd(today))
    else
      var ds := Strip(date.value);
      var dt := if DashShape(ds) then ParseDashed(ds) else None;
      if dt.Some? then Ok(Yyyymmdd(dt.value))
      else if |ds| == 8 && AllDigits(ds) then Ok(ds)
      else Raise(ValueError)
  }

  /** The two clients coerce every date alike. */
  lemma CoerceAgree(date: Option<string>, today: Date)
    requires ValidDate(today)
    ensures CoerceFallThrough(date, today) == CoerceYyyymmdd(date, today)
  {
  }

  /** No date is today's date, formatted so that it parses back. */
  lemma CoerceMissing(date: Option<string>, today: Date)
    requires ValidDate(today) && (date.None? || date.value == "")
    ensures var r := CoerceYyyymmdd(date, today);
      r.Ok? && ParseCompact(r.value) == Some(today)
  {
    ParseCompactOfFormat(today);
  }

  /** Eight digits come back stripped and otherwise untouched, even when they
      name no calendar day. */
  lemma CoerceCompact(date: string, today: Date)
    requires ValidDate(today)
    requires |Strip(date)| == 8 && AllDigits(Strip(date))
    ensures CoerceYyyymmdd(Some(date), today) == Ok(Strip(date))
  {
  }

  /** `YYYY-MM-DD` of a date: its compact form with dashes after the year and the month. */
  function Dashed(d: Date): (s: string)
    requires ValidDate(d)
    ensures DashShape(s)
  {
    var c := Yyyymmdd(d);
    c[..4] + "-" + c[4..6] + "-" + c[6..]
  }

  /** A date written YYYY-MM-DD is coerced to the same date written YYYYMMDD. */
  lemma CoerceDashed(d: Date, today: Date)
    requires ValidDate(d) && ValidDate(today)
    ensures CoerceYyyymmdd(Some(Dashed(d)), today) == Ok(Yyyymmdd(d))
  {
    var s, c := Dashed(d), Yyyymmdd(d);
    assert s[0] == c[0] && s[9] == c[7];
    StripOfStripped(s);
    assert s[..4] + s[5..7] + s[8..] == c;
    ParseDashedCompact(s);
    ParseCompactOfFormat(d);
  }

  /** A ValueError is raised exactly for given text that is neither eight
      digits nor a dashed date that names a calendar day. */
  lemma CoerceRejects(date: string, today: Date)
    requires ValidDate(today) && date != ""
    ensures var ds := Strip(date);
      CoerceYyyymmdd(Some(date), today).Raise? <==>
        if DashShape(ds) then ParseDashed(ds).None?
        else !(|ds| == 8 && AllDigits(ds))
  {
  }

  /** A coerced date coerces to itself. */
  lemma CoerceIdempotent(date: Option<string>, today: Date)
    requires ValidDate(today) && CoerceYyyymmdd(date, today).Ok?
    ensures var r := CoerceYyyymmdd(date, today).value;
      CoerceYyyymmdd(Some(r), today) == Ok(r)
  {
    var r := CoerceYyyymmdd(date, today).value;
    assert !IsSpace(r[0]) && !IsSpace(r[7]);
    StripOfStripped(r);
  }

  // ---------------------------------------------------------------------
  // `_team_name` and `extract_game_lite`
  // ---------------------------------------------------------------------

  /** `_team_name`: the first of display name, location and name that is not
      empty, else "Unknown". */
  function TeamName(c: Competitor): (r: string)
    ensures r != ""
    ensures Truthy(c.team.displayName) ==> r == c.team.displayName.value
    ensures !Truthy(c.team.displayName) && Truthy(c.team.location) ==> r == c.team.location.value
    ensures !Truthy(c.team.displayName) && !Truthy(c.team.location) && Truthy(c.team.name) ==> r == c.team.name.value
    ensures !Truthy(c.team.displayName) && !Truthy(c.team.location) && !Truthy(c.team.name) ==> r == "Unknown"
  {
    OrElse(Or(Or(c.team.displayName, c.team.location), c.team.name), "Unknown")
  }

  /** The side a competitor claims: `(c.get("homeAway") or "").lower()`. */
  function Side(c: Competitor): string
  {
    LowerStr(OrElse(c.homeAway, ""))
  }

  /** The last of the first `n` competitors whose side is `side`. */
  function LastOnSide(cs: seq<Competitor>, side: string, n: nat): (r: Option<nat>)
    requires n <= |cs|
    ensures r.Some? ==> r.value < n && Side(cs[r.value]) == side
    ensures r.Some? ==> forall k | r.value < k < n :: Side(cs[k]) != side
    ensures r.None? ==> forall k | 0 <= k < n :: Side(cs[k]) != side
  {
    if n == 0 then None
    else if Side(cs[n - 1]) == side then Some(n - 1)
    else LastOnSide(cs, side, n - 1)
  }

  /** The name the loop holds for `side` after the first `n` competitors. */
  function SideName(cs: seq<Competitor>, side: string, default: string, n: nat): string
    requires n <= |cs|
  {
    var k := LastOnSide(cs, side, n);
    if k.Some? then TeamName(cs[k.value]) else default
  }

  /** The row `extract_game_lite` returns. */
  datatype GameLite = GameLite(gameId: string, startTime: Option<string>, homeTeam: string, awayTeam: string)

  function Competitors(ev: Event): seq<Competitor>
  {
    FirstCompetition(ev).competitors
  }

  /** The lite row of an event: the last competitor on each side names it. */
  function GameLiteOf(ev: Event): (g: GameLite)
  {
    var cs := Competitors(ev);
    GameLite(OrElse(ev.id, ""), ev.date, SideName(cs, "home", "Home", |cs|), SideName(cs, "away", "Away", |cs|))
  }

  /** `extract_game_lite`: one pass over the competitors of the first
      competition, each "home" or "away" (any case) overwriting that side. */
  method ExtractGameLite(ev: Event) returns (g: GameLite)
    ensures g == GameLiteOf(ev)
  {
    var cs := Competitors(ev);
    var home, away := "Home", "Away";
    for i := 0 to |cs|
      invariant home == SideName(cs, "home", "Home", i)
      invariant away == SideName(cs, "away", "Away", i)
    {
      var side := Side(cs[i]);
      if side == "home" {
        home := TeamName(cs[i]);
      } else if side == "away" {
        away := TeamName(cs[i]);
      }
    }
    g := GameLite(OrElse(ev.id, ""), ev.date, home, away);
  }

  /** Each side is named by the last competitor that claims it, and keeps its
      placeholder when none does; the id is "" when missing. */
  lemma GameLiteSides(ev: Event)
    ensures var g, cs := GameLiteOf(ev), Competitors(ev);
      && (g.gameId == "" <==> !Truthy(ev.id))
      && g.startTime == ev.date
      && ((forall k | 0 <= k < |cs| :: Side(cs[k]) != "home") ==> g.homeTeam == "Home")
      && ((forall k | 0 <= k < |cs| :: Side(cs[k]) != "away") ==> g.awayTeam == "Away")
      && (forall i | 0 <= i < |cs| && Side(cs[i]) == "home" && (forall k | i < k < |cs| :: Side(cs[k]) != "home") ::
            g.homeTeam == TeamName(cs[i]))
      && (forall i | 0 <= i < |cs| && Side(cs[i]) == "away" && (forall k | i < k < |cs| :: Side(cs[k]) != "away") ::
            g.awayTeam == TeamName(cs[i]))
  {
    var cs := Competitors(ev);
    forall i | 0 <= i < |cs| && Side(cs[i]) == "home" && (forall k | i < k < |cs| :: Side(cs[k]) != "home")
      ensures LastOnSide(cs, "home", |cs|) == Some(i)
    {
      LastIsUnique(cs, "home", i);
    }
    forall i | 0 <= i < |cs| && Side(cs[i]) == "away" && (forall k | i < k < |cs| :: Side(cs[k]) != "away")
      ensures LastOnSide(cs, "away", |cs|) == Some(i)
    {
      LastIsUnique(cs, "away", i);
    }
  }

  /** The competitor on `side` with none after it is the one `LastOnSide` finds. */
  lemma LastIsUnique(cs: seq<Competitor>, side: string, i: nat)
    requires i < |cs| && Side(cs[i]) == side
    requires forall k | i < k < |cs| :: Side(cs[k]) != side
    ensures LastOnSide(cs, side, |cs|) == Some(i)
  {
    var r := LastOnSide(cs, side, |cs|);
    assert r.Some?;
  }

  /** The usual two competitors, one home and one away, name the two sides in
      either order and whatever the case of the tag. */
  lemma GameLitePair(ev: Event, a: Competitor, b: Competitor)
    requires Competitors(ev) == [a, b]
    requires Side(a) == "home" && Side(b) == "away"
    ensures GameLiteOf(ev).homeTeam == TeamName(a) && GameLiteOf(ev).awayTeam == TeamName(b)
  {
    var cs := Competitors(ev);
    assert LastOnSide(cs, "home", 2) == Some(0) by {
      assert Side(cs[1]) == "away";
    }
  }
}
