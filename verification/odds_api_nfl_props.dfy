/** The NFL player-prop reader of `app/services/odds_api_nfl_props.py`: the
    table from The Odds API's market keys to the model's stat names and its
    inverse, the markets asked for, the commence-time window, and the merge
    that keeps, per player token and stat, the line of largest magnitude.
    The Odds API is a table from request to reply; the API key is a
    parameter; the events are merged one after another. */
module OddsProps {
  import opened Common
  import opened OddsApi

  // ---------------------------------------------------------------------
  // `MARKET_MAP` and its inverse
  // ---------------------------------------------------------------------

  /** `MARKET_MAP`: The Odds API's player-prop market keys and the stat names
      they are reported under. */
  const MarketMap: map<string, string> := map[
    "player_pass_yds" := "passYds",
    "player_pass_tds" := "passTDs",
    "player_rush_yds" := "rushYds",
    "player_reception_yds" := "recYds",
    "player_receptions" := "receptions"
  ]

  /** `rev`, the dict comprehension that flips `MARKET_MAP`. */
  const StatToMarket: map<string, string> := map[
    "passYds" := "player_pass_yds",
    "passTDs" := "player_pass_tds",
    "rushYds" := "player_rush_yds",
    "recYds" := "player_reception_yds",
    "receptions" := "player_receptions"
  ]

  /** `MARKET_MAP` is injective, so flipping it loses no pair: each stat
      sends back to the one market key it came from, and each market key's
      stat sends back to it. */
  lemma MarketMapInverse()
    ensures forall k | k in MarketMap :: MarketMap[k] in StatToMarket && StatToMarket[MarketMap[k]] == k
    ensures forall s | s in StatToMarket :: StatToMarket[s] in MarketMap && MarketMap[StatToMarket[s]] == s
  {
  }

  /** The stats `rev` knows are exactly the values of `MARKET_MAP`, and the
      market keys it gives are exactly the keys of `MARKET_MAP`. */
  lemma MarketMapFlip()
    ensures StatToMarket.Keys == MarketMap.Values
    ensures StatToMarket.Values == MarketMap.Keys
  {
    MarketMapInverse();
    forall v | v in MarketMap.Values
      ensures v in StatToMarket
    {
      var k :| k in MarketMap && MarketMap[k] == v;
    }
    forall k | k in StatToMarket.Values
      ensures k in MarketMap
    {
      var s :| s in StatToMarket && StatToMarket[s] == k;
    }
    forall s | s in StatToMarket
      ensures s in MarketMap.Values
    {
      assert MarketMap[StatToMarket[s]] == s;
    }
    forall k | k in MarketMap
      ensures k in StatToMarket.Values
    {
      assert StatToMarket[MarketMap[k]] == k;
    }
  }

  // ---------------------------------------------------------------------
  // Requested markets and the window
  // ---------------------------------------------------------------------

  const DefaultStats: seq<string> := ["recYds", "receptions", "rushYds", "passYds", "passTDs"]

  /** `want_stats or [...]`. */
  function StatsOrDefault(want: Option<seq<string>>): seq<string>
  {
    if want.None? || want.value == [] then DefaultStats else want.value
  }

  /** `[rev[s] for s in want_stats if s in rev]`. */
  function Requested(want: seq<string>): (r: seq<string>)
    ensures |r| <= |want|
  {
    if want == [] then []
    else
      var s := want[|want| - 1];
      Requested(want[..|want| - 1]) + (if s in StatToMarket then [StatToMarket[s]] else [])
  }

  /** The requested markets follow the order of the stats, one per known stat,
      and unknown stats are dropped. */
  lemma {:induction false} RequestedAppend(a: seq<string>, b: seq<string>)
    ensures Requested(a + b) == Requested(a) + Requested(b)
    decreases |b|
  {
    if b == [] {
      assert a + b == a;
    } else {
      assert (a + b)[..|a + b| - 1] == a + b[..|b| - 1];
      RequestedAppend(a, b[..|b| - 1]);
    }
  }

  /** A market is requested exactly when some wanted stat maps to it. */
  lemma {:induction false} RequestedMembers(want: seq<string>)
    ensures forall m | m in Requested(want) :: exists s | s in want :: s in StatToMarket && StatToMarket[s] == m
    ensures forall s | s in want && s in StatToMarket :: StatToMarket[s] in Requested(want)
  {
    if want != [] {
      var init := want[..|want| - 1];
      RequestedMembers(init);
      assert forall s | s in init :: s in want;
      assert forall s | s in want :: s in init || s == want[|want| - 1];
    }
  }

  /** No known stat, no request: stats the table does not know give no markets. */
  lemma {:induction false} RequestedEmpty(want: seq<string>)
    ensures Requested(want) == [] <==> forall s | s in want :: s !in StatToMarket
  {
    RequestedMembers(want);
    if Requested(want) != [] {
      var m := Requested(want)[0];
      assert m in Requested(want);
    }
  }

  /** `_within_iso_window`: inclusive at both ends, by string order. */
  predicate Within(ts: string, startIso: string, endIso: string)
  {
    LexLe(startIso, ts) && LexLe(ts, endIso)
  }

  /** Both ends of the window are inside it, and a stamp inside a window is
      inside any window around it. */
  lemma WithinBounds(ts: string, s1: string, e1: string, s2: string, e2: string)
    ensures LexLe(s1, e1) ==> Within(s1, s1, e1) && Within(e1, s1, e1)
    ensures Within(ts, s1, e1) && LexLe(s2, s1) && LexLe(e1, e2) ==> Within(ts, s2, e2)
  {
    LexLeReflexive(s1);
    LexLeReflexive(e1);
    if Within(ts, s1, e1) && LexLe(s2, s1) && LexLe(e1, e2) {
      LexLeTransitive(s2, s1, ts);
      LexLeTransitive(ts, e1, e2);
    }
  }

  /** An event as `_list_events` lists it (`commence_time` missing is ""). */
  datatype PropEvent = PropEvent(id: Option<string>, homeTeam: Option<string>, awayTeam: Option<string>, commenceTime: string)

  /** The events kept when both ends of the window are given, in order. */
  function InWindow(evs: seq<PropEvent>, startIso: string, endIso: string): (r: seq<PropEvent>)
    ensures forall e | e in r :: e in evs && Within(e.commenceTime, startIso, endIso)
    ensures forall e | e in evs && Within(e.commenceTime, startIso, endIso) :: e in r
  {
    if evs == [] then []
    else
      var e := evs[|evs| - 1];
      var r0 := InWindow(evs[..|evs| - 1], startIso, endIso);
      assert forall x | x in evs :: x in evs[..|evs| - 1] || x == e;
      r0 + (if Within(e.commenceTime, startIso, endIso) then [e] else [])
  }

  // ---------------------------------------------------------------------
  // The merge of `fetch_one`
  // ---------------------------------------------------------------------

  /** An entry of the result (its `position` is always `None` and is left out). */
  datatype Entry = Entry(player: string, team: string, opponent: string, book: Option<string>,
                         markets: map<string, real>, gameToken: string)

  /** One line seen for one player under one (team, opponent) pairing. */
  datatype Sighting = Sighting(player: string, team: string, opponent: string, stat: string,
                               line: real, book: Option<string>, gameToken: string)

  /** `f"{_norm(player)}|{_norm(team_name)}|{_norm(opp_name)}"`. */
  function PlayerKey(player: string, team: string, opponent: string): string
  {
    Norm(player) + "|" + Norm(team) + "|" + Norm(opponent)
  }

  function KeyOf(s: Sighting): string
  {
    PlayerKey(s.player, s.team, s.opponent)
  }

  function Abs(x: real): real
  {
    if x < 0.0 then -x else x
  }

  /** The entry `setdefault` creates. */
  function Fresh(player: string, team: string, opponent: string, book: Option<string>, gameToken: string): Entry
  {
    Entry(player, team, opponent, book, map[], gameToken)
  }

  /** `out.setdefault(pkey, {...})` alone. */
  function SetDefault(out: map<string, Entry>, player: string, team: string, opponent: string, book: Option<string>, gameToken: string): (r: map<string, Entry>)
    ensures r.Keys == out.Keys + {PlayerKey(player, team, opponent)}
    ensures forall k | k in out :: r[k] == out[k]
  {
    var k := PlayerKey(player, team, opponent);
    if k in out then out else out[k := Fresh(player, team, opponent, book, gameToken)]
  }

  /** The body of the innermost loop: `setdefault`, then the line and the
      book replaced when the stat has no line yet or the new magnitude is
      strictly larger. */
  function Record(out: map<string, Entry>, s: Sighting): (r: map<string, Entry>)
    ensures r.Keys == out.Keys + {KeyOf(s)}
    // every other entry is untouched
    ensures forall k | k in out && k != KeyOf(s) :: r[k] == out[k]
  {
    var k := KeyOf(s);
    var o := SetDefault(out, s.player, s.team, s.opponent, s.book, s.gameToken);
    var e := o[k];
    if s.stat !in e.markets || Abs(s.line) > Abs(e.markets[s.stat]) then
      o[k := e.(markets := e.markets[s.stat := s.line], book := s.book)]
    else o
  }

  /** The entry `Record` leaves under the sighting's key: its identity is the
      one it was created with; the stat's line is the new one when it is the
      first or strictly larger in magnitude, and then the book is the new one
      too; otherwise the entry is as `setdefault` left it; other stats keep
      their lines. */
  lemma RecordEntry(out: map<string, Entry>, s: Sighting)
    ensures var e := Record(out, s)[KeyOf(s)];
      if KeyOf(s) in out then
        var o := out[KeyOf(s)];
        e.player == o.player && e.team == o.team && e.opponent == o.opponent && e.gameToken == o.gameToken
      else e.player == s.player && e.team == s.team && e.opponent == s.opponent && e.gameToken == s.gameToken
    ensures var e, o := Record(out, s)[KeyOf(s)], SetDefault(out, s.player, s.team, s.opponent, s.book, s.gameToken)[KeyOf(s)];
      && s.stat in e.markets
      && (s.stat !in o.markets || Abs(s.line) > Abs(o.markets[s.stat]) ==> e.markets[s.stat] == s.line && e.book == s.book)
      && (s.stat in o.markets && Abs(s.line) <= Abs(o.markets[s.stat]) ==> e == o)
      && (forall st | st in o.markets && st != s.stat :: st in e.markets && e.markets[st] == o.markets[st])
      && e.markets.Keys == o.markets.Keys + {s.stat}
  {
  }

  /** What the loops do to `out`, flattened: record a line, or only create
      the entry (the `setdefault` that runs before `float(line)` raises). */
  datatype Action = Put(s: Sighting) | Touch(player: string, team: string, opponent: string, book: Option<string>, gameToken: string)

  function Apply(out: map<string, Entry>, a: Action): map<string, Entry>
  {
    match a
    case Put(s) => Record(out, s)
    case Touch(p, t, o, b, g) => SetDefault(out, p, t, o, b, g)
  }

  function ApplyAll(out: map<string, Entry>, acts: seq<Action>): map<string, Entry>
  {
    if acts == [] then out else Apply(ApplyAll(out, acts[..|acts| - 1]), acts[|acts| - 1])
  }

  lemma {:induction false} ApplyAllAppend(out: map<string, Entry>, a: seq<Action>, b: seq<Action>)
    ensures ApplyAll(out, a + b) == ApplyAll(ApplyAll(out, a), b)
    decreases |b|
  {
    if b == [] {
      assert a + b == a;
    } else {
      assert (a + b)[..|a + b| - 1] == a + b[..|b| - 1];
      ApplyAllAppend(out, a, b[..|b| - 1]);
    }
  }

  lemma ApplyPair(out: map<string, Entry>, a: Action, b: Action)
    ensures ApplyAll(out, [a, b]) == Apply(Apply(out, a), b)
  {
    assert [a][..0] == [];
    assert ApplyAll(out, [a]) == Apply(out, a);
    assert [a, b][..1] == [a];
  }

  /** The line stored for a key and stat, if any. */
  function Stored(out: map<string, Entry>, k: string, stat: string): Option<real>
  {
    if k in out && stat in out[k].markets then Some(out[k].markets[stat]) else None
  }

  /** Every line stored in `m` is still stored in `r`, no smaller in magnitude. */
  ghost predicate Grows(m: map<string, Entry>, r: map<string, Entry>)
  {
    forall k, st | Stored(m, k, st).Some? :: Stored(r, k, st).Some? && Abs(Stored(r, k, st).value) >= Abs(Stored(m, k, st).value)
  }

  /** `r` stores a line for the sighting's key and stat at least as large in magnitude as its own. */
  predicate Covers(r: map<string, Entry>, s: Sighting)
  {
    Stored(r, KeyOf(s), s.stat).Some? && Abs(Stored(r, KeyOf(s), s.stat).value) >= Abs(s.line)
  }

  lemma GrowsTrans(a: map<string, Entry>, b: map<string, Entry>, c: map<string, Entry>)
    requires Grows(a, b) && Grows(b, c)
    ensures Grows(a, c)
  {
  }

  lemma CoversKept(m: map<string, Entry>, r: map<string, Entry>, s: Sighting)
    requires Covers(m, s) && Grows(m, r)
    ensures Covers(r, s)
  {
  }

  /** Stored lines never shrink in magnitude, and after the actions every
      line recorded is dominated by the stored line for its key and stat:
      the stored line is the largest seen. */
  lemma {:induction false} ApplyAllCovers(out: map<string, Entry>, acts: seq<Action>)
    ensures var r := ApplyAll(out, acts);
      && (forall i | 0 <= i < |acts| && acts[i].Put? :: Covers(r, acts[i].s))
      && Grows(out, r)
    decreases |acts|
  {
    if acts != [] {
      var init, last := acts[..|acts| - 1], acts[|acts| - 1];
      ApplyAllCovers(out, init);
      var m := ApplyAll(out, init);
      var r := Apply(m, last);
      assert ApplyAll(out, acts) == r;
      assert acts == init + [last];
      StepGrows(m, last);
      GrowsTrans(out, m, r);
      CoversExtend(init, last, m, r);
    }
  }

  /** What covers the earlier actions' lines in `m` still covers them in a
      map that grew from `m` and covers the last action's line. */
  lemma CoversExtend(init: seq<Action>, last: Action, m: map<string, Entry>, r: map<string, Entry>)
    requires forall i | 0 <= i < |init| && init[i].Put? :: Covers(m, init[i].s)
    requires last.Put? ==> Covers(r, last.s)
    requires Grows(m, r)
    ensures forall i | 0 <= i < |init + [last]| && (init + [last])[i].Put? :: Covers(r, (init + [last])[i].s)
  {
    var acts := init + [last];
    forall i | 0 <= i < |acts| && acts[i].Put?
      ensures Covers(r, acts[i].s)
    {
      if i < |init| {
        assert acts[i] == init[i];
        CoversKept(m, r, acts[i].s);
      }
    }
  }

  /** One action: stored lines never shrink, and the line it records is
      dominated by the stored one. */
  lemma StepGrows(m: map<string, Entry>, a: Action)
    ensures var r := Apply(m, a);
      && (a.Put? ==> Covers(r, a.s))
      && Grows(m, r)
  {
    match a
    case Put(s) =>
      RecordEntry(m, s);
      RecordGrows(m, s);
    case Touch(p, t, o, b, g) =>
      var r := SetDefault(m, p, t, o, b, g);
      forall k, st | Stored(m, k, st).Some?
        ensures Stored(r, k, st) == Stored(m, k, st)
      {
        assert r[k] == m[k];
      }
  }

  /** Recording a sighting shrinks no stored line. */
  lemma RecordGrows(m: map<string, Entry>, s: Sighting)
    ensures Grows(m, Record(m, s))
  {
    var r := Record(m, s);
    forall k, st | Stored(m, k, st).Some?
      ensures Stored(r, k, st).Some? && Abs(Stored(r, k, st).value) >= Abs(Stored(m, k, st).value)
    {
      if k == KeyOf(s) {
        RecordEntry(m, s);
        assert SetDefault(m, s.player, s.team, s.opponent, s.book, s.gameToken)[k] == m[k];
      } else {
        assert r[k] == m[k];
      }
    }
  }

  /** Every stored line was there before the actions or is the line of one of
      the actions recorded under that key and stat. */
  lemma {:induction false} ApplyAllOrigin(out: map<string, Entry>, acts: seq<Action>)
    ensures var r := ApplyAll(out, acts);
      forall k, st | Stored(r, k, st).Some? ::
        Stored(r, k, st) == Stored(out, k, st) ||
        exists i | 0 <= i < |acts| && acts[i].Put? :: KeyOf(acts[i].s) == k && acts[i].s.stat == st && acts[i].s.line == Stored(r, k, st).value
    decreases |acts|
  {
    if acts != [] {
      var init := acts[..|acts| - 1];
      var a := acts[|acts| - 1];
      ApplyAllOrigin(out, init);
      var m := ApplyAll(out, init);
      var r := ApplyAll(out, acts);
      StepOrigin(m, a);
      forall k, st | Stored(r, k, st).Some?
        ensures Stored(r, k, st) == Stored(out, k, st) ||
          exists i | 0 <= i < |acts| && acts[i].Put? :: KeyOf(acts[i].s) == k && acts[i].s.stat == st && acts[i].s.line == Stored(r, k, st).value
      {
        if Stored(r, k, st) != Stored(m, k, st) {
          assert acts[|acts| - 1] == a;
        } else if Stored(m, k, st) != Stored(out, k, st) {
          var i :| 0 <= i < |init| && init[i].Put? && KeyOf(init[i].s) == k && init[i].s.stat == st && init[i].s.line == Stored(m, k, st).value;
          assert acts[i] == init[i];
        }
      }
    }
  }

  /** One action changes a stored line only to the line it records. */
  lemma StepOrigin(m: map<string, Entry>, a: Action)
    ensures var r := Apply(m, a);
      forall k, st | Stored(r, k, st).Some? && Stored(r, k, st) != Stored(m, k, st) ::
        a.Put? && KeyOf(a.s) == k && a.s.stat == st && a.s.line == Stored(r, k, st).value
  {
    if a.Put? {
      RecordEntry(m, a.s);
    }
  }

  /** An entry, once created, keeps its player, team, opponent and game token. */
  lemma {:induction false} ApplyAllKeepsIdentity(out: map<string, Entry>, acts: seq<Action>)
    ensures var r := ApplyAll(out, acts);
      forall k | k in out :: k in r && r[k].player == out[k].player && r[k].team == out[k].team &&
        r[k].opponent == out[k].opponent && r[k].gameToken == out[k].gameToken
    decreases |acts|
  {
    if acts != [] {
      ApplyAllKeepsIdentity(out, acts[..|acts| - 1]);
      var a := acts[|acts| - 1];
      if a.Put? {
        RecordEntry(ApplyAll(out, acts[..|acts| - 1]), a.s);
      }
    }
  }

  /** A later line of equal magnitude keeps the first line and its book. */
  lemma TieKeepsFirst(out: map<string, Entry>, s1: Sighting, s2: Sighting)
    requires KeyOf(s1) == KeyOf(s2) && s1.stat == s2.stat && Abs(s1.line) == Abs(s2.line)
    requires Stored(out, KeyOf(s1), s1.stat).None?
    ensures var r := Record(Record(out, s1), s2);
      r[KeyOf(s1)].markets[s1.stat] == s1.line && r[KeyOf(s1)].book == s1.book
  {
    RecordEntry(out, s1);
    RecordEntry(Record(out, s1), s2);
  }

  // ---------------------------------------------------------------------
  // The replies and the nested loops of `fetch_one`
  // ---------------------------------------------------------------------

  /** An outcome's `point`: missing or null, a number (or text `float` reads),
      or a value `float` rejects. */
  datatype PropPoint = NullPoint | Num(x: real) | BadPoint

  datatype PropQuote = PropQuote(description: Option<string>, name: Option<string>, point: PropPoint)

  datatype PropMarket = PropMarket(key: Option<string>, outcomes: Listing<PropQuote>)

  datatype PropBook = PropBook(title: Option<string>, key: Option<string>, markets: Listing<PropMarket>)

  /** The reply to an event's odds request: the request failed, the body is
      not an object, or an object with its bookmakers. */
  datatype PropsReply = RequestFailed | NotAnObject | PropsObject(bookmakers: Listing<PropBook>)

  /** The odds request of an event: its id and the requested markets. */
  datatype PropsRequest = PropsRequest(eventId: string, markets: seq<string>)

  function FetchProps(net: map<PropsRequest, PropsReply>, req: PropsRequest): PropsReply
  {
    if req in net then net[req] else RequestFailed
  }

  /** The actions of a list and whether the loop got through it without raising. */
  datatype Acts = Acts(acts: seq<Action>, ok: bool)

  /** `oc.get("description") or oc.get("name") or ""`. */
  function PlayerOf(oc: PropQuote): string
  {
    OrElse(Or(oc.description, oc.name), "")
  }

  /** One outcome: a null point is skipped; a number is recorded for the
      (home, away) and then the (away, home) pairing; a point `float`
      rejects raises after the first `setdefault`. */
  function QuoteActs(oc: PropQuote, stat: string, book: Option<string>, home: string, away: string, token: string): Acts
  {
    var player := PlayerOf(oc);
    match oc.point
    case NullPoint => Acts([], true)
    case Num(x) => Acts([Put(Sighting(player, home, away, stat, x, book, token)), Put(Sighting(player, away, home, stat, x, book, token))], true)
    case BadPoint => Acts([Touch(player, home, away, book, token)], false)
  }

  function QuotesActs(ocs: seq<PropQuote>, stat: string, book: Option<string>, home: string, away: string, token: string): Acts
  {
    if ocs == [] then Acts([], true)
    else
      var a := QuotesActs(ocs[..|ocs| - 1], stat, book, home, away, token);
      if !a.ok then a
      else
        var b := QuoteActs(ocs[|ocs| - 1], stat, book, home, away, token);
        Acts(a.acts + b.acts, b.ok)
  }

  /** One market: a key outside `MARKET_MAP` is skipped; outcomes that are
      not a list raise before any write. */
  function MarketActs(m: PropMarket, book: Option<string>, home: string, away: string, token: string): Acts
  {
    if m.key.None? || m.key.value !in MarketMap then Acts([], true)
    else if m.outcomes.NotAList? then Acts([], false)
    else
      var ocs := if m.outcomes.Items? then m.outcomes.items else [];
      QuotesActs(ocs, MarketMap[m.key.value], book, home, away, token)
  }

  function MarketsActs(ms: seq<PropMarket>, book: Option<string>, home: string, away: string, token: string): Acts
  {
    if ms == [] then Acts([], true)
    else
      var a := MarketsActs(ms[..|ms| - 1], book, home, away, token);
      if !a.ok then a
      else
        var b := MarketActs(ms[|ms| - 1], book, home, away, token);
        Acts(a.acts + b.acts, b.ok)
  }

  /** One bookmaker, named by its title or else its key; markets that are not
      a list raise. */
  function BookActs(bk: PropBook, home: string, away: string, token: string): Acts
  {
    if bk.markets.NotAList? then Acts([], false)
    else
      var ms := if bk.markets.Items? then bk.markets.items else [];
      MarketsActs(ms, Or(bk.title, bk.key), home, away, token)
  }

  function BooksActs(bks: seq<PropBook>, home: string, away: string, token: string): Acts
  {
    if bks == [] then Acts([], true)
    else
      var a := BooksActs(bks[..|bks| - 1], home, away, token);
      if !a.ok then a
      else
        var b := BookActs(bks[|bks| - 1], home, away, token);
        Acts(a.acts + b.acts, b.ok)
  }

  /** Everything `fetch_one` does for an event before it returns or raises:
      a missing id, a failed request, a reply that is not an object or
      bookmakers that are not a list end it before any write. */
  function EventActs(ev: PropEvent, requested: seq<string>, net: map<PropsRequest, PropsReply>): Acts
  {
    var home := OrElse(ev.homeTeam, "");
    var away := OrElse(ev.awayTeam, "");
    if ev.id.None? then Acts([], false)
    else
      var reply := FetchProps(net, PropsRequest(ev.id.value, requested));
      if !reply.PropsObject? || reply.bookmakers.NotAList? then Acts([], false)
      else
        var bks := if reply.bookmakers.Items? then reply.bookmakers.items else [];
        BooksActs(bks, home, away, EventKey(home, away))
  }

  /** One more element of the quote loop. */
  lemma QuotesStep(ocs: seq<PropQuote>, j: nat, stat: string, book: Option<string>, home: string, away: string, token: string)
    requires j < |ocs|
    ensures var a := QuotesActs(ocs[..j], stat, book, home, away, token);
      var b := QuoteActs(ocs[j], stat, book, home, away, token);
      QuotesActs(ocs[..j + 1], stat, book, home, away, token) == if !a.ok then a else Acts(a.acts + b.acts, b.ok)
  {
    assert ocs[..j + 1][..j] == ocs[..j];
  }

  /** Once the quote loop has raised, the rest of the list is not looked at. */
  lemma {:induction false} QuotesStuck(ocs: seq<PropQuote>, k: nat, stat: string, book: Option<string>, home: string, away: string, token: string)
    requires k <= |ocs| && !QuotesActs(ocs[..k], stat, book, home, away, token).ok
    ensures QuotesActs(ocs, stat, book, home, away, token) == QuotesActs(ocs[..k], stat, book, home, away, token)
    decreases |ocs|
  {
    if k == |ocs| {
      assert ocs[..k] == ocs;
    } else {
      var init := ocs[..|ocs| - 1];
      assert init[..k] == ocs[..k];
      QuotesStuck(init, k, stat, book, home, away, token);
    }
  }

  /** One more element of the market loop. */
  lemma MarketsStep(ms: seq<PropMarket>, j: nat, book: Option<string>, home: string, away: string, token: string)
    requires j < |ms|
    ensures var a := MarketsActs(ms[..j], book, home, away, token);
      var b := MarketActs(ms[j], book, home, away, token);
      MarketsActs(ms[..j + 1], book, home, away, token) == if !a.ok then a else Acts(a.acts + b.acts, b.ok)
  {
    assert ms[..j + 1][..j] == ms[..j];
  }

  /** Once the market loop has raised, the rest of the list is not looked at. */
  lemma {:induction false} MarketsStuck(ms: seq<PropMarket>, k: nat, book: Option<string>, home: string, away: string, token: string)
    requires k <= |ms| && !MarketsActs(ms[..k], book, home, away, token).ok
    ensures MarketsActs(ms, book, home, away, token) == MarketsActs(ms[..k], book, home, away, token)
    decreases |ms|
  {
    if k == |ms| {
      assert ms[..k] == ms;
    } else {
      var init := ms[..|ms| - 1];
      assert init[..k] == ms[..k];
      MarketsStuck(init, k, book, home, away, token);
    }
  }

  /** One more element of the book loop. */
  lemma BooksStep(bks: seq<PropBook>, j: nat, home: string, away: string, token: string)
    requires j < |bks|
    ensures var a := BooksActs(bks[..j], home, away, token);
      var b := BookActs(bks[j], home, away, token);
      BooksActs(bks[..j + 1], home, away, token) == if !a.ok then a else Acts(a.acts + b.acts, b.ok)
  {
    assert bks[..j + 1][..j] == bks[..j];
  }

  /** Once the book loop has raised, the rest of the list is not looked at. */
  lemma {:induction false} BooksStuck(bks: seq<PropBook>, k: nat, home: string, away: string, token: string)
    requires k <= |bks| && !BooksActs(bks[..k], home, away, token).ok
    ensures BooksActs(bks, home, away, token) == BooksActs(bks[..k], home, away, token)
    decreases |bks|
  {
    if k == |bks| {
      assert bks[..k] == bks;
    } else {
      var init := bks[..|bks| - 1];
      assert init[..k] == bks[..k];
      BooksStuck(init, k, home, away, token);
    }
  }

  /** The outcome loop. */
  method MergeQuotes(out0: map<string, Entry>, ocs: seq<PropQuote>, stat: string, book: Option<string>, home: string, away: string, token: string)
    returns (out: map<string, Entry>, ok: bool)
    ensures var a := QuotesActs(ocs, stat, book, home, away, token);
      out == ApplyAll(out0, a.acts) && ok == a.ok
  {
    out := out0;
    for i := 0 to |ocs|
      invariant QuotesActs(ocs[..i], stat, book, home, away, token).ok
      invariant out == ApplyAll(out0, QuotesActs(ocs[..i], stat, book, home, away, token).acts)
    {
      var prefix := QuotesActs(ocs[..i], stat, book, home, away, token);
      var step := QuoteActs(ocs[i], stat, book, home, away, token);
      QuotesStep(ocs, i, stat, book, home, away, token);
      ApplyAllAppend(out0, prefix.acts, step.acts);
      var oc := ocs[i];
      var player := PlayerOf(oc);
      if oc.point.NullPoint? {
        assert prefix.acts + [] == prefix.acts;
        continue;
      }
      if oc.point.BadPoint? {
        out := SetDefault(out, player, home, away, book, token);
        QuotesStuck(ocs, i + 1, stat, book, home, away, token);
        return out, false;
      }
      var first := Sighting(player, home, away, stat, oc.point.x, book, token);
      var second := Sighting(player, away, home, stat, oc.point.x, book, token);
      ApplyPair(out, Put(first), Put(second));
      out := Record(out, first);
      out := Record(out, second);
    }
    assert ocs[..|ocs|] == ocs;
    ok := true;
  }

  /** The market loop. */
  method MergeMarkets(out0: map<string, Entry>, ms: seq<PropMarket>, book: Option<string>, home: string, away: string, token: string)
    returns (out: map<string, Entry>, ok: bool)
    ensures var a := MarketsActs(ms, book, home, away, token);
      out == ApplyAll(out0, a.acts) && ok == a.ok
  {
    out := out0;
    for j := 0 to |ms|
      invariant MarketsActs(ms[..j], book, home, away, token).ok
      invariant out == ApplyAll(out0, MarketsActs(ms[..j], book, home, away, token).acts)
    {
      var prefix := MarketsActs(ms[..j], book, home, away, token);
      var step := MarketActs(ms[j], book, home, away, token);
      MarketsStep(ms, j, book, home, away, token);
      ApplyAllAppend(out0, prefix.acts, step.acts);
      var m := ms[j];
      if m.key.None? || m.key.value !in MarketMap {
        assert prefix.acts + [] == prefix.acts;
        continue;
      }
      if m.outcomes.NotAList? {
        assert prefix.acts + [] == prefix.acts;
        MarketsStuck(ms, j + 1, book, home, away, token);
        return out, false;
      }
      var ocs := if m.outcomes.Items? then m.outcomes.items else [];
      var inner;
      out, inner := MergeQuotes(out, ocs, MarketMap[m.key.value], book, home, away, token);
      if !inner {
        MarketsStuck(ms, j + 1, book, home, away, token);
        return out, false;
      }
    }
    assert ms[..|ms|] == ms;
    ok := true;
  }

  /** The bookmaker loop. */
  method MergeBooks(out0: map<string, Entry>, bks: seq<PropBook>, home: string, away: string, token: string)
    returns (out: map<string, Entry>, ok: bool)
    ensures var a := BooksActs(bks, home, away, token);
      out == ApplyAll(out0, a.acts) && ok == a.ok
  {
    out := out0;
    for j := 0 to |bks|
      invariant BooksActs(bks[..j], home, away, token).ok
      invariant out == ApplyAll(out0, BooksActs(bks[..j], home, away, token).acts)
    {
      var prefix := BooksActs(bks[..j], home, away, token);
      var step := BookActs(bks[j], home, away, token);
      BooksStep(bks, j, home, away, token);
      ApplyAllAppend(out0, prefix.acts, step.acts);
      var bk := bks[j];
      if bk.markets.NotAList? {
        assert prefix.acts + [] == prefix.acts;
        BooksStuck(bks, j + 1, home, away, token);
        return out, false;
      }
      var ms := if bk.markets.Items? then bk.markets.items else [];
      var inner;
      out, inner := MergeMarkets(out, ms, Or(bk.title, bk.key), home, away, token);
      if !inner {
        BooksStuck(bks, j + 1, home, away, token);
        return out, false;
      }
    }
    assert bks[..|bks|] == bks;
    ok := true;
  }

  /** `fetch_one`: what it wrote stays written when it raises part-way. */
  method FetchOne(out0: map<string, Entry>, ev: PropEvent, requested: seq<string>, net: map<PropsRequest, PropsReply>)
    returns (out: map<string, Entry>)
    ensures out == ApplyAll(out0, EventActs(ev, requested, net).acts)
  {
    out := out0;
    var home := OrElse(ev.homeTeam, "");
    var away := OrElse(ev.awayTeam, "");
    var token := EventKey(home, away);
    if ev.id.None? {
      return;
    }
    var reply := FetchProps(net, PropsRequest(ev.id.value, requested));
    if !reply.PropsObject? || reply.bookmakers.NotAList? {
      return;
    }
    var bks := if reply.bookmakers.Items? then reply.bookmakers.items else [];
    var ok;
    out, ok := MergeBooks(out, bks, home, away, token);
  }

  /** The actions of all events, one event after another. */
  function AllActs(evs: seq<PropEvent>, requested: seq<string>, net: map<PropsRequest, PropsReply>): seq<Action>
  {
    if evs == [] then []
    else AllActs(evs[..|evs| - 1], requested, net) + EventActs(evs[|evs| - 1], requested, net).acts
  }

  lemma AllActsStep(evs: seq<PropEvent>, i: nat, requested: seq<string>, net: map<PropsRequest, PropsReply>)
    requires i < |evs|
    ensures AllActs(evs[..i + 1], requested, net) == AllActs(evs[..i], requested, net) + EventActs(evs[i], requested, net).acts
  {
    assert evs[..i + 1][..i] == evs[..i];
  }

  /** `get_nfl_player_prop_lines`: `None` when listing the events raises. */
  function PropLines(apiKey: Option<string>, want: Option<seq<string>>, startIso: Option<string>, endIso: Option<string>,
                     events: Option<seq<PropEvent>>, net: map<PropsRequest, PropsReply>): Option<map<string, Entry>>
  {
    var requested := Requested(StatsOrDefault(want));
    if !Truthy(apiKey) || requested == [] then Some(map[])
    else if events.None? then None
    else
      var evs := if Truthy(startIso) && Truthy(endIso) then InWindow(events.value, startIso.value, endIso.value) else events.value;
      Some(ApplyAll(map[], AllActs(evs, requested, net)))
  }

  /** `get_nfl_player_prop_lines` with the events merged in order. */
  method GetPropLines(apiKey: Option<string>, want: Option<seq<string>>, startIso: Option<string>, endIso: Option<string>,
                      events: Option<seq<PropEvent>>, net: map<PropsRequest, PropsReply>) returns (r: Option<map<string, Entry>>)
    ensures r == PropLines(apiKey, want, startIso, endIso, events, net)
  {
    if !Truthy(apiKey) {
      return Some(map[]);
    }
    var stats := StatsOrDefault(want);
    var requested := Requested(stats);
    if requested == [] {
      return Some(map[]);
    }
    if events.None? {
      return None;
    }
    var evs := events.value;
    if Truthy(startIso) && Truthy(endIso) {
      evs := InWindow(evs, startIso.value, endIso.value);
    }
    var out: map<string, Entry> := map[];
    for i := 0 to |evs|
      invariant out == ApplyAll(map[], AllActs(evs[..i], requested, net))
    {
      AllActsStep(evs, i, requested, net);
      ApplyAllAppend(map[], AllActs(evs[..i], requested, net), EventActs(evs[i], requested, net).acts);
      out := FetchOne(out, evs[i], requested, net);
    }
    assert evs[..|evs|] == evs;
    r := Some(out);
  }

  /** Without an API key, or when no wanted stat is known, the result is
      empty and nothing is fetched; otherwise it fails exactly when listing
      the events fails. */
  lemma PropLinesEmpty(apiKey: Option<string>, want: Option<seq<string>>, startIso: Option<string>, endIso: Option<string>,
                       events: Option<seq<PropEvent>>, net: map<PropsRequest, PropsReply>)
    ensures !Truthy(apiKey) ==> PropLines(apiKey, want, startIso, endIso, events, net) == Some(map[])
    ensures want.Some? && want.value != [] && (forall s | s in want.value :: s !in StatToMarket) ==>
      PropLines(apiKey, want, startIso, endIso, events, net) == Some(map[])
    ensures Truthy(apiKey) && Requested(StatsOrDefault(want)) != [] ==>
      (PropLines(apiKey, want, startIso, endIso, events, net).None? <==> events.None?)
  {
    RequestedEmpty(StatsOrDefault(want));
  }

  /** With no stats asked for, all five markets are requested, in the order
      of the default stats. */
  lemma DefaultRequested()
    ensures Requested(StatsOrDefault(None)) == ["player_reception_yds", "player_receptions", "player_rush_yds", "player_pass_yds", "player_pass_tds"]
  {
    var d := DefaultStats;
    forall x | x in d
      ensures Requested([x]) == [StatToMarket[x]]
    {
      assert [x][..0] == [];
    }
    assert d == [d[0]] + [d[1]] + [d[2]] + [d[3]] + [d[4]];
    RequestedAppend([d[0]], [d[1]]);
    RequestedAppend([d[0]] + [d[1]], [d[2]]);
    RequestedAppend([d[0]] + [d[1]] + [d[2]], [d[3]]);
    RequestedAppend([d[0]] + [d[1]] + [d[2]] + [d[3]], [d[4]]);
  }

  /** Every numeric outcome is recorded under both pairings of the event's
      teams, with the same line and book. */
  lemma BothPairings(oc: PropQuote, stat: string, book: Option<string>, home: string, away: string, token: string)
    requires oc.point.Num?
    ensures var a := QuoteActs(oc, stat, book, home, away, token).acts;
      && |a| == 2 && a[0].Put? && a[1].Put?
      && KeyOf(a[0].s) == PlayerKey(PlayerOf(oc), home, away)
      && KeyOf(a[1].s) == PlayerKey(PlayerOf(oc), away, home)
      && a[0].s.line == oc.point.x == a[1].s.line && a[0].s.book == book == a[1].s.book
  {
  }

  /** Outcomes of a market outside `MARKET_MAP` and outcomes without a point
      record nothing. */
  lemma IgnoredOutcomes(m: PropMarket, oc: PropQuote, stat: string, book: Option<string>, home: string, away: string, token: string)
    ensures m.key.None? || m.key.value !in MarketMap ==> MarketActs(m, book, home, away, token) == Acts([], true)
    ensures oc.point.NullPoint? ==> QuoteActs(oc, stat, book, home, away, token) == Acts([], true)
  {
  }
}
