/** The first-half market reader of `app/services/odds_api.py`: the point a
    `spreads_h1` or `totals_h1` market offers, the fold over an event's
    bookmakers that settles on one spread, one total and the book that gave
    them, and the table of lines keyed by the normalised "away|home" pair.
    The Odds API is a table from event id to reply; the API key is a
    parameter. */
module OddsApi {
  import opened Common

  /** A JSON `point`: a number (`true` and `false` read as 1 and 0, as
      `isinstance(x, (int, float))` accepts them), or anything else. */
  datatype Point = Number(x: real) | NotNumber

  /** `x.get(k) or []`: missing, null and empty read as `Absent`; a value that
      is truthy but not a list is `NotAList`. */
  datatype Listing<T> = Absent | NotAList | Items(items: seq<T>)

  datatype Quote = Quote(name: Option<string>, point: Point)

  datatype Market = Market(key: Option<string>, outcomes: Listing<Quote>)

  datatype Bookmaker = Bookmaker(title: Option<string>, key: Option<string>, markets: Listing<Market>)

  const SpreadsKey: string := "spreads_h1"
  const TotalsKey: string := "totals_h1"

  /** `float(pt) if isinstance(pt, (int, float)) else None`. */
  function PointValue(p: Point): (r: Option<real>)
    ensures r.Some? <==> p.Number?
    ensures r.Some? ==> r.value == p.x
  {
    if p.Number? then Some(p.x) else None
  }

  /** The outcome names the home side: its normalised name is the home
      team's or "home". */
  predicate NamesHome(q: Quote, homeNorm: string)
  {
    var nm := Norm(OrElse(q.name, ""));
    nm == homeNorm || nm == "home"
  }

  /** The first outcome that names the home side. */
  function HomeQuote(qs: seq<Quote>, homeNorm: string): (r: Option<nat>)
    ensures r.Some? ==> r.value < |qs| && NamesHome(qs[r.value], homeNorm)
    ensures r.Some? ==> forall k | 0 <= k < r.value :: !NamesHome(qs[k], homeNorm)
    ensures r.None? ==> forall k | 0 <= k < |qs| :: !NamesHome(qs[k], homeNorm)
  {
    if qs == [] then None
    else if NamesHome(qs[0], homeNorm) then Some(0)
    else
      var r := HomeQuote(qs[1..], homeNorm);
      if r.Some? then Some(r.value + 1) else None
  }

  /** `_pick_point_from_market`: no outcomes is `None`; a spread reads the
      first outcome naming the home side, else the first outcome; a total
      reads the first outcome; any other market is `None`. */
  function PickPoint(m: Market, homeNorm: string): (r: Option<real>)
  {
    if !m.outcomes.Items? || m.outcomes.items == [] then None
    else
      var qs := m.outcomes.items;
      if m.key == Some(SpreadsKey) then
        var h := HomeQuote(qs, homeNorm);
        if h.Some? then PointValue(qs[h.value].point) else PointValue(qs[0].point)
      else if m.key == Some(TotalsKey) then PointValue(qs[0].point)
      else None
  }

  /** `_pick_point_from_market` as the code runs it: a search over the
      outcomes that returns at the first match. */
  method PickPointFromMarket(m: Market, homeNorm: string) returns (r: Option<real>)
    ensures r == PickPoint(m, homeNorm)
  {
    if !m.outcomes.Items? || m.outcomes.items == [] {
      return None;
    }
    var qs := m.outcomes.items;
    if m.key == Some(SpreadsKey) {
      for i := 0 to |qs|
        invariant forall k | 0 <= k < i :: !NamesHome(qs[k], homeNorm)
      {
        if NamesHome(qs[i], homeNorm) {
          FirstHome(qs, homeNorm, i);
          return PointValue(qs[i].point);
        }
      }
      return PointValue(qs[0].point);
    } else if m.key == Some(TotalsKey) {
      return PointValue(qs[0].point);
    }
    return None;
  }

  /** The outcome naming the home side with none before it is the one `HomeQuote` finds. */
  lemma FirstHome(qs: seq<Quote>, homeNorm: string, i: nat)
    requires i < |qs| && NamesHome(qs[i], homeNorm)
    requires forall k | 0 <= k < i :: !NamesHome(qs[k], homeNorm)
    ensures HomeQuote(qs, homeNorm) == Some(i)
  {
    var r := HomeQuote(qs, homeNorm);
    assert r.Some?;
  }

  /** What a market offers: nothing without outcomes or for a key other than
      the two first-half keys; for a total, the first outcome's number; for a
      spread, the number of the first outcome naming the home side (a match
      without a number is `None`, the search does not go on), else the first
      outcome's number. */
  lemma PickPointCases(m: Market, homeNorm: string)
    ensures !m.outcomes.Items? || m.outcomes.items == [] ==> PickPoint(m, homeNorm) == None
    ensures m.key != Some(SpreadsKey) && m.key != Some(TotalsKey) ==> PickPoint(m, homeNorm) == None
    ensures m.outcomes.Items? && m.outcomes.items != [] && m.key == Some(TotalsKey) ==>
      PickPoint(m, homeNorm) == PointValue(m.outcomes.items[0].point)
    ensures m.outcomes.Items? && m.key == Some(SpreadsKey) ==>
      var qs := m.outcomes.items;
      && (forall i | 0 <= i < |qs| && NamesHome(qs[i], homeNorm) && (forall k | 0 <= k < i :: !NamesHome(qs[k], homeNorm)) ::
            PickPoint(m, homeNorm) == PointValue(qs[i].point))
      && (qs != [] && (forall k | 0 <= k < |qs| :: !NamesHome(qs[k], homeNorm)) ==>
            PickPoint(m, homeNorm) == PointValue(qs[0].point))
  {
    if m.outcomes.Items? && m.key == Some(SpreadsKey) {
      var qs := m.outcomes.items;
      forall i | 0 <= i < |qs| && NamesHome(qs[i], homeNorm) && (forall k | 0 <= k < i :: !NamesHome(qs[k], homeNorm))
        ensures HomeQuote(qs, homeNorm) == Some(i)
      {
        FirstHome(qs, homeNorm, i);
      }
    }
  }

  // ---------------------------------------------------------------------
  // The bookmaker fold of `process_event`
  // ---------------------------------------------------------------------

  /** `best_spread`, `best_total` and `best_book`. */
  datatype Best = Best(spread: Option<real>, total: Option<real>, book: Option<string>)

  const NoBest: Best := Best(None, None, None)

  /** `next((m for m in mkts if m.get("key") == key), None)`. */
  function FirstKeyed(ms: seq<Market>, key: string): (r: Option<Market>)
    ensures r.Some? ==> r.value in ms && r.value.key == Some(key)
    ensures r.None? ==> forall k | 0 <= k < |ms| :: ms[k].key != Some(key)
  {
    if ms == [] then None
    else if ms[0].key == Some(key) then Some(ms[0])
    else FirstKeyed(ms[1..], key)
  }

  /** The markets of a bookmaker as a list (`[]` when missing). */
  function MarketsOf(bm: Bookmaker): seq<Market>
  {
    if bm.markets.Items? then bm.markets.items else []
  }

  /** `s_point`: the spread this bookmaker offers. */
  function SpreadOf(bm: Bookmaker, homeNorm: string): Option<real>
  {
    var m := FirstKeyed(MarketsOf(bm), SpreadsKey);
    if m.Some? then PickPoint(m.value, homeNorm) else None
  }

  /** `t_point`: the total this bookmaker offers. */
  function TotalOf(bm: Bookmaker, homeNorm: string): Option<real>
  {
    var m := FirstKeyed(MarketsOf(bm), TotalsKey);
    if m.Some? then PickPoint(m.value, homeNorm) else None
  }

  /** The guard of the update: the bookmaker offers something, and either no
      book is chosen yet or it fills a value still missing. */
  predicate Improves(best: Best, s: Option<real>, t: Option<real>)
  {
    (s.Some? || t.Some?) && (best.book.None? || (best.spread.None? && s.Some?) || (best.total.None? && t.Some?))
  }

  /** One bookmaker of the loop.  A bookmaker whose markets are not a list is skipped. */
  function Step(best: Best, bm: Bookmaker, homeNorm: string): (r: Best)
    // a value once known is never lost, and a `None` pick never replaces one
    ensures best.spread.Some? ==> r.spread.Some?
    ensures best.total.Some? ==> r.total.Some?
    ensures SpreadOf(bm, homeNorm).None? ==> r.spread == best.spread
    ensures TotalOf(bm, homeNorm).None? ==> r.total == best.total
    // the state moves only when the guard holds, and then the book is this bookmaker's
    ensures r != best ==> !bm.markets.NotAList? && Improves(best, SpreadOf(bm, homeNorm), TotalOf(bm, homeNorm))
    ensures !bm.markets.NotAList? && Improves(best, SpreadOf(bm, homeNorm), TotalOf(bm, homeNorm)) ==>
      r.book == Or(bm.title, bm.key)
  {
    if bm.markets.NotAList? then best
    else
      var s := SpreadOf(bm, homeNorm);
      var t := TotalOf(bm, homeNorm);
      if Improves(best, s, t) then
        Best(if s.Some? then s else best.spread, if t.Some? then t else best.total, Or(bm.title, bm.key))
      else best
  }

  predicate Both(b: Best)
  {
    b.spread.Some? && b.total.Some?
  }

  /** The loop from bookmaker 0 on, with the `break` once both values are known
      (a skipped bookmaker reaches neither the update nor the `break`). */
  function Fold(bms: seq<Bookmaker>, homeNorm: string, best: Best): Best
  {
    if bms == [] then best
    else if bms[0].markets.NotAList? then Fold(bms[1..], homeNorm, best)
    else
      var b := Step(best, bms[0], homeNorm);
      if Both(b) then b else Fold(bms[1..], homeNorm, b)
  }

  /** The bookmaker loop of `process_event`. */
  method BestLine(bms: seq<Bookmaker>, homeNorm: string) returns (best: Best)
    ensures best == Fold(bms, homeNorm, NoBest)
  {
    best := NoBest;
    var i := 0;
    while i < |bms|
      invariant i <= |bms|
      invariant Fold(bms[i..], homeNorm, best) == Fold(bms, homeNorm, NoBest)
    {
      var bm := bms[i];
      assert bms[i..][1..] == bms[i + 1..];
      if bm.markets.NotAList? {
        i := i + 1;
        continue;
      }
      var s, t := None, None;
      var ms := MarketsOf(bm);
      var mSpread := FirstKeyed(ms, SpreadsKey);
      var mTotal := FirstKeyed(ms, TotalsKey);
      if mSpread.Some? {
        s := PickPointFromMarket(mSpread.value, homeNorm);
      }
      if mTotal.Some? {
        t := PickPointFromMarket(mTotal.value, homeNorm);
      }
      if s.Some? || t.Some? {
        if best.book.None? || (best.spread.None? && s.Some?) || (best.total.None? && t.Some?) {
          best := Best(if s.Some? then s else best.spread, if t.Some? then t else best.total, Or(bm.title, bm.key));
        }
      }
      if best.spread.Some? && best.total.Some? {
        return;
      }
      i := i + 1;
    }
  }

  /** Known values stay known through the whole loop. */
  lemma {:induction false} FoldKeeps(bms: seq<Bookmaker>, homeNorm: string, best: Best)
    ensures best.spread.Some? ==> Fold(bms, homeNorm, best).spread.Some?
    ensures best.total.Some? ==> Fold(bms, homeNorm, best).total.Some?
  {
    if bms != [] {
      FoldKeeps(bms[1..], homeNorm, best);
      if !bms[0].markets.NotAList? {
        FoldKeeps(bms[1..], homeNorm, Step(best, bms[0], homeNorm));
      }
    }
  }

  /** The scan stops at the bookmaker that completes the pair: whatever
      bookmakers follow are never read. */
  lemma {:induction false} FoldStops(bms: seq<Bookmaker>, rest: seq<Bookmaker>, homeNorm: string, best: Best)
    requires !Both(best) && Both(Fold(bms, homeNorm, best))
    ensures Fold(bms + rest, homeNorm, best) == Fold(bms, homeNorm, best)
  {
    assert bms != [];
    assert (bms + rest)[0] == bms[0];
    assert (bms + rest)[1..] == bms[1..] + rest;
    if bms[0].markets.NotAList? {
      FoldStops(bms[1..], rest, homeNorm, best);
    } else {
      var b := Step(best, bms[0], homeNorm);
      if !Both(b) {
        FoldStops(bms[1..], rest, homeNorm, b);
      }
    }
  }

  /** The book named is the last one that moved the state, so the spread can
      come from an earlier book: a spread-only book followed by a total-only
      book gives the first one's spread under the second one's name. */
  lemma MixedBooks(b1: Bookmaker, b2: Bookmaker, homeNorm: string)
    requires !b1.markets.NotAList? && !b2.markets.NotAList?
    requires SpreadOf(b1, homeNorm).Some? && TotalOf(b1, homeNorm).None?
    requires SpreadOf(b2, homeNorm).None? && TotalOf(b2, homeNorm).Some?
    ensures Fold([b1, b2], homeNorm, NoBest) ==
      Best(SpreadOf(b1, homeNorm), TotalOf(b2, homeNorm), Or(b2.title, b2.key))
  {
    var s1 := Step(NoBest, b1, homeNorm);
    assert [b1, b2][1..] == [b2];
    assert Fold([b2], homeNorm, s1) == Step(s1, b2, homeNorm) by {
      assert [b2][1..] == [];
    }
  }

  // ---------------------------------------------------------------------
  // `process_event` and the table of lines
  // ---------------------------------------------------------------------

  datatype OddsEvent = OddsEvent(id: Option<string>, homeTeam: Option<string>, awayTeam: Option<string>)

  /** The reply to an event's odds request.  `_get_json` answers a request
      that failed three times with an error object, which has no bookmakers. */
  datatype EventOdds = NotADict | OddsObject(bookmakers: Listing<Bookmaker>)

  function FetchOdds(net: map<string, EventOdds>, id: string): (r: EventOdds)
    ensures id !in net ==> r == OddsObject(Absent)
  {
    if id in net then net[id] else OddsObject(Absent)
  }

  /** The entry written for an event. */
  datatype Line = Line(spreadHome: Option<real>, total: Option<real>, book: Option<string>)

  /** `f"{_norm(away)}|{_norm(home)}"`. */
  function EventKey(home: string, away: string): (k: string)
    ensures k == Norm(away) + "|" + Norm(home)
  {
    Norm(away) + "|" + Norm(home)
  }

  /** The key and line `process_event` writes, or `None` when it returns
      without writing: an id or a team missing, a reply that is not an
      object, or bookmakers that cannot be iterated. */
  function EventLine(ev: OddsEvent, net: map<string, EventOdds>): Option<(string, Line)>
  {
    if !Truthy(ev.id) || !Truthy(ev.homeTeam) || !Truthy(ev.awayTeam) then None
    else
      var homeNorm := Norm(ev.homeTeam.value);
      var data := FetchOdds(net, ev.id.value);
      if data.NotADict? || data.bookmakers.NotAList? then None
      else
        var bms := if data.bookmakers.Items? then data.bookmakers.items else [];
        var b := Fold(bms, homeNorm, NoBest);
        Some((EventKey(ev.homeTeam.value, ev.awayTeam.value), Line(b.spread, b.total, b.book)))
  }

  /** `process_event` for one event. */
  method ProcessEvent(ev: OddsEvent, net: map<string, EventOdds>) returns (entry: Option<(string, Line)>)
    ensures entry == EventLine(ev, net)
  {
    if !Truthy(ev.id) || !Truthy(ev.homeTeam) || !Truthy(ev.awayTeam) {
      return None;
    }
    var homeNorm := Norm(ev.homeTeam.value);
    var token := EventKey(ev.homeTeam.value, ev.awayTeam.value);
    var data := FetchOdds(net, ev.id.value);
    if data.NotADict? || data.bookmakers.NotAList? {
      return None;
    }
    var bms := if data.bookmakers.Items? then data.bookmakers.items else [];
    var b := BestLine(bms, homeNorm);
    entry := Some((token, Line(b.spread, b.total, b.book)));
  }

  /** The table after the events in order, a later event with the same key
      overwriting an earlier one. */
  function Lines(events: seq<OddsEvent>, net: map<string, EventOdds>): map<string, Line>
  {
    if events == [] then map[]
    else
      var out := Lines(events[..|events| - 1], net);
      var e := EventLine(events[|events| - 1], net);
      if e.Some? then out[e.value.0 := e.value.1] else out
  }

  /** `get_cbb_1h_lines` with the events processed one after another: no API
      key or no events is an empty table. */
  method GetLines(apiKey: Option<string>, events: seq<OddsEvent>, net: map<string, EventOdds>) returns (out: map<string, Line>)
    ensures !Truthy(apiKey) ==> out == map[]
    ensures Truthy(apiKey) ==> out == Lines(events, net)
  {
    out := map[];
    if !Truthy(apiKey) || events == [] {
      return;
    }
    for i := 0 to |events|
      invariant out == Lines(events[..i], net)
    {
      assert events[..i + 1][..i] == events[..i];
      var e := ProcessEvent(events[i], net);
      if e.Some? {
        out := out[e.value.0 := e.value.1];
      }
    }
    assert events[..|events|] == events;
  }

  /** Every key in the table is the key of an event with an id and both team
      names, and holds the line of the last such event with that key; every
      event that writes has its key in the table. */
  lemma {:induction false} LinesKeys(events: seq<OddsEvent>, net: map<string, EventOdds>)
    ensures forall k | k in Lines(events, net) ::
      exists i | 0 <= i < |events| :: EventLine(events[i], net).Some? && EventLine(events[i], net).value == (k, Lines(events, net)[k])
    ensures forall i | 0 <= i < |events| && EventLine(events[i], net).Some? :: EventLine(events[i], net).value.0 in Lines(events, net)
  {
    if events != [] {
      var init := events[..|events| - 1];
      LinesKeys(init, net);
      var out := Lines(events, net);
      forall k | k in out
        ensures exists i | 0 <= i < |events| :: EventLine(events[i], net).Some? && EventLine(events[i], net).value == (k, out[k])
      {
        var e := EventLine(events[|events| - 1], net);
        if e.Some? && e.value.0 == k {
          assert EventLine(events[|events| - 1], net).value == (k, out[k]);
        } else {
          assert k in Lines(init, net) && out[k] == Lines(init, net)[k];
          var i :| 0 <= i < |init| && EventLine(init[i], net).Some? && EventLine(init[i], net).value == (k, Lines(init, net)[k]);
          assert events[i] == init[i];
        }
      }
      forall i | 0 <= i < |events| && EventLine(events[i], net).Some?
        ensures EventLine(events[i], net).value.0 in out
      {
        if i < |init| {
          assert events[i] == init[i];
        }
      }
    }
  }

  /** An event with an id and both names writes under the key of its
      normalised names, and one lacking any of them writes nothing. */
  lemma EventLineKey(ev: OddsEvent, net: map<string, EventOdds>)
    ensures !Truthy(ev.id) || !Truthy(ev.homeTeam) || !Truthy(ev.awayTeam) ==> EventLine(ev, net).None?
    ensures EventLine(ev, net).Some? ==> EventLine(ev, net).value.0 == Norm(ev.awayTeam.value) + "|" + Norm(ev.homeTeam.value)
    ensures Truthy(ev.id) && Truthy(ev.homeTeam) && Truthy(ev.awayTeam) && ev.id.value !in net ==>
      EventLine(ev, net) == Some((EventKey(ev.homeTeam.value, ev.awayTeam.value), Line(None, None, None)))
  {
  }

  /** The key gives back both normalised names: normalised names hold no "|". */
  lemma EventKeyInjective(h1: string, a1: string, h2: string, a2: string)
    requires EventKey(h1, a1) == EventKey(h2, a2)
    ensures Norm(h1) == Norm(h2) && Norm(a1) == Norm(a2)
  {
    var x1, x2 := Norm(a1), Norm(a2);
    var k1, k2 := EventKey(h1, a1), EventKey(h2, a2);
    BarAfterName(x1, Norm(h1));
    BarAfterName(x2, Norm(h2));
    assert x1 == k1[..|x1|] && x2 == k2[..|x2|];
    assert Norm(h1) == k1[|x1| + 1..] && Norm(h2) == k2[|x2| + 1..];
  }

  /** In "away|home" of two normalised names the first "|" follows the away name. */
  lemma BarAfterName(x: string, y: string)
    requires forall i | 0 <= i < |x| :: IsAlnum(x[i])
    ensures '|' in x + "|" + y && IndexOf(x + "|" + y, '|') == |x|
  {
    var s := x + "|" + y;
    assert s[|x|] == '|';
    var k := IndexOf(s, '|');
    assert forall i | 0 <= i < |x| :: s[i] == x[i];
  }
}
