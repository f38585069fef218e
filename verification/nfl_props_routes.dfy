/** The NFL player-prop endpoints of `app/routers/nfl_props_routes.py`: the
    stat-label table, the default positions per stat, the normalisation of
    whatever the prop service returns, the bulk endpoint that gathers
    several stats, the raw edges endpoint, and the cached edges endpoint
    with its thirty-minute in-memory cache.

    The prop service is not called here: its result is a parameter (`None`,
    or a stat missing from the table, is the exception it raised).  The
    clock is a parameter in microseconds. */
module NflPropsRoutes {
  import opened Common

  /** `STAT_LABEL_MAP`. */
  const StatLabelMap: map<string, string> := map[
    "receiving yards" := "recYds",
    "receptions" := "receptions",
    "rushing yards" := "rushYds",
    "passing yards" := "passYds",
    "passing tds" := "passTDs"
  ]

  /** `_EDGE_CACHE_TTL`, thirty minutes in microseconds. */
  const EdgeCacheTtl: int := 30 * 60 * 1000000

  /** The stats the bulk endpoint asks for when none are given. */
  const DefaultStatsCsv: string := "recYds,rushYds,passYds,receptions,passTDs"

  // ---------------------------------------------------------------------
  // `_make_cache_key`
  // ---------------------------------------------------------------------

  datatype CacheKey = CacheKey(season: int, week: int, stat: string, positions: string, bookmakers: string, region: string, fast: bool)

  /** `n or 0`. */
  function OrZero(n: Option<int>): int
  {
    if n.Some? then n.value else 0
  }

  /** `_make_cache_key`: a missing number is 0 and a missing text "". */
  function MakeCacheKey(season: Option<int>, week: Option<int>, stat: string, positions: Option<string>,
                        bookmakers: Option<string>, region: Option<string>, fast: bool): (k: CacheKey)
  {
    CacheKey(OrZero(season), OrZero(week), stat, OrElse(positions, ""), OrElse(bookmakers, ""), OrElse(region, ""), fast)
  }

  /** A number that the key cannot tell from a missing one. */
  predicate BlankInt(n: Option<int>) { n.None? || n == Some(0) }

  /** A text that the key cannot tell from a missing one. */
  predicate BlankStr(s: Option<string>) { s.None? || s == Some("") }

  predicate SameInt(a: Option<int>, b: Option<int>) { a == b || (BlankInt(a) && BlankInt(b)) }

  predicate SameStr(a: Option<string>, b: Option<string>) { a == b || (BlankStr(a) && BlankStr(b)) }

  /** Two requests share a cache entry exactly when they agree on every
      part, where a missing number and 0, and a missing text and "", count
      as the same. */
  lemma CacheKeyCollisions(s1: Option<int>, w1: Option<int>, st1: string, p1: Option<string>, b1: Option<string>, r1: Option<string>, f1: bool,
                           s2: Option<int>, w2: Option<int>, st2: string, p2: Option<string>, b2: Option<string>, r2: Option<string>, f2: bool)
    ensures MakeCacheKey(s1, w1, st1, p1, b1, r1, f1) == MakeCacheKey(s2, w2, st2, p2, b2, r2, f2) <==>
            SameInt(s1, s2) && SameInt(w1, w2) && st1 == st2 && SameStr(p1, p2) && SameStr(b1, b2) && SameStr(r1, r2) && f1 == f2
  {
    SameIntKey(s1, s2);
    SameIntKey(w1, w2);
    SameStrKey(p1, p2);
    SameStrKey(b1, b2);
    SameStrKey(r1, r2);
  }

  /** Two numbers give the same key part exactly when they are the same or both blank. */
  lemma SameIntKey(a: Option<int>, b: Option<int>)
    ensures OrZero(a) == OrZero(b) <==> SameInt(a, b)
  {
  }

  /** Two texts give the same key part exactly when they are the same or both blank. */
  lemma SameStrKey(a: Option<string>, b: Option<string>)
    ensures OrElse(a, "") == OrElse(b, "") <==> SameStr(a, b)
  {
  }

  // ---------------------------------------------------------------------
  // The cache: `_get_cached_edges` and `_set_cached_edges`
  // ---------------------------------------------------------------------

  /** A row of the prop service as the router passes it on; only its market
      and edge are ever touched. */
  datatype Row = Row(player: string, market: Option<real>, edge: Option<real>)

  /** A value of the service's result the router looks at: `None`, a list of
      rows, a number, or a dictionary of diagnostics. */
  datatype Item = Null | Rows(rows: seq<Row>) | Num(n: int) | Diag(entries: map<string, string>)

  /** A response of the edges endpoints, and what the cache holds. */
  datatype Response = Response(season: Item, week: Item, stat: string, rows: seq<Row>, diagnostics: Item)

  datatype CacheEntry = CacheEntry(value: Response, expiresAt: int)

  /** A read of the cache at `now`: a missing entry is a miss; an entry whose
      expiry is before `now` is removed and is a miss; any other is a hit. */
  function Lookup(entries: map<CacheKey, CacheEntry>, key: CacheKey, now: int): (r: (Option<Response>, map<CacheKey, CacheEntry>))
  {
    if key !in entries then (None, entries)
    else if entries[key].expiresAt < now then (None, entries - {key})
    else (Some(entries[key].value), entries)
  }

  /** A write of the cache at `now`: the entry expires thirty minutes later. */
  function Store(entries: map<CacheKey, CacheEntry>, key: CacheKey, value: Response, now: int): (r: map<CacheKey, CacheEntry>)
  {
    entries[key := CacheEntry(value, now + EdgeCacheTtl)]
  }

  /** A read returns the stored value up to and including its expiry, and
      nothing after it; it removes its own key when expired and touches no
      other key.  A write replaces its own key and touches no other. */
  lemma LookupStore(entries: map<CacheKey, CacheEntry>, key: CacheKey, value: Response, at: int, now: int, other: CacheKey)
    requires other != key
    ensures Lookup(Store(entries, key, value, at), key, now).0 == (if now <= at + EdgeCacheTtl then Some(value) else None)
    ensures Store(entries, key, value, at)[key] == CacheEntry(value, at + EdgeCacheTtl)
    ensures other in Store(entries, key, value, at) <==> other in entries
    ensures other in entries ==> Store(entries, key, value, at)[other] == entries[other]
    ensures var m := Lookup(entries, key, now).1;
      && (other in m <==> other in entries)
      && (other in entries ==> m[other] == entries[other])
      && (key in m <==> key in entries && now <= entries[key].expiresAt)
  {
  }

  /** `_EDGE_CACHE`. */
  class EdgeCache {
    var entries: map<CacheKey, CacheEntry>

    constructor()
      ensures entries == map[]
    {
      entries := map[];
    }

    /** `_get_cached_edges` at time `now`. */
    method Get(season: Option<int>, week: Option<int>, stat: string, positions: Option<string>,
               bookmakers: Option<string>, region: Option<string>, fast: bool, now: int) returns (r: Option<Response>)
      modifies this
      ensures var key := MakeCacheKey(season, week, stat, positions, bookmakers, region, fast);
        (r, entries) == Lookup(old(entries), key, now)
    {
      var key := MakeCacheKey(season, week, stat, positions, bookmakers, region, fast);
      if key !in entries {
        return None;
      }
      var entry := entries[key];
      if entry.expiresAt < now {
        entries := entries - {key};
        return None;
      }
      r := Some(entry.value);
    }

    /** `_set_cached_edges` at time `now`. */
    method Set(season: Option<int>, week: Option<int>, stat: string, positions: Option<string>,
               bookmakers: Option<string>, region: Option<string>, fast: bool, value: Response, now: int)
      modifies this
      ensures entries == Store(old(entries), MakeCacheKey(season, week, stat, positions, bookmakers, region, fast), value, now)
    {
      var key := MakeCacheKey(season, week, stat, positions, bookmakers, region, fast);
      entries := entries[key := CacheEntry(value, now + EdgeCacheTtl)];
    }

    /** `nfl_player_prop_edges_simple` on this cache; the clock reads `readAt`
        for the cache read and `writeAt` for the write. */
    method EdgesSimple(season: Option<int>, week: Option<int>, statLabel: string, limit: int, bookmakers: Option<string>,
                       region: Option<string>, positions: Option<string>, fast: bool, debug: bool,
                       readAt: int, writeAt: int, fetched: Option<Raw>) returns (r: Reply)
      requires 1 <= limit <= 200
      modifies this
      ensures (r, entries) == EdgesSimpleSpec(old(entries), season, week, statLabel, limit, bookmakers, region, positions, fast, debug,
                                              readAt, writeAt, fetched)
    {
      var labelNorm := LowerStr(Strip(statLabel));
      if labelNorm !in StatLabelMap {
        return HttpError(400, "Unsupported statLabel.");
      }
      var stat := StatLabelMap[labelNorm];
      var statPositions := DefaultPositions(stat, positions);
      if !debug {
        var cached := Get(season, week, stat, Some(statPositions), bookmakers, region, fast, readAt);
        if cached.Some? {
          var rows := Take(cached.value.rows, limit);
          return Served(cached.value.(rows := rows, stat := stat));
        }
      }
      if fetched.None? {
        return HttpError(500, "fetch_failed");
      }
      var norm := NormalizeResult(fetched.value, season, week);
      if norm.None? {
        return Crashed;
      }
      var rows := RowList(norm.value.rows);
      if rows.None? {
        return Crashed;
      }
      var response := Response(norm.value.season, norm.value.week, stat, Take(rows.value, limit), norm.value.diagnostics);
      if !debug {
        Set(season, week, stat, Some(statPositions), bookmakers, region, fast, response, writeAt);
      }
      r := Served(response);
    }
  }

  /** A run of cache reads and writes, each at its time. */
  datatype CacheOp = SetOp(key: CacheKey, value: Response, at: int) | GetOp(key: CacheKey, at: int)

  function ApplyOp(entries: map<CacheKey, CacheEntry>, op: CacheOp): map<CacheKey, CacheEntry>
  {
    match op
    case SetOp(k, v, at) => Store(entries, k, v, at)
    case GetOp(k, at) => Lookup(entries, k, at).1
  }

  function Run(entries: map<CacheKey, CacheEntry>, ops: seq<CacheOp>): map<CacheKey, CacheEntry>
  {
    if ops == [] then entries else ApplyOp(Run(entries, ops[..|ops| - 1]), ops[|ops| - 1])
  }

  /** The time and value of the last write of `key`, if any. */
  function LastSet(ops: seq<CacheOp>, key: CacheKey): Option<(int, Response)>
  {
    if ops == [] then None
    else
      var op := ops[|ops| - 1];
      if op.SetOp? && op.key == key then Some((op.at, op.value)) else LastSet(ops[..|ops| - 1], key)
  }

  /** The clock never goes back. */
  predicate InTimeOrder(ops: seq<CacheOp>)
  {
    forall i, j | 0 <= i < j < |ops| :: ops[i].at <= ops[j].at
  }

  /** After the last write of a key the cache holds that write, or it has
      removed it on a read that came after its expiry. */
  lemma {:induction false} LastWriteHeld(entries: map<CacheKey, CacheEntry>, ops: seq<CacheOp>, key: CacheKey)
    requires InTimeOrder(ops) && LastSet(ops, key).Some?
    ensures var m, (s, v) := Run(entries, ops), LastSet(ops, key).value;
      || (key in m && m[key] == CacheEntry(v, s + EdgeCacheTtl))
      || (key !in m && s + EdgeCacheTtl < ops[|ops| - 1].at)
  {
    var init, op := ops[..|ops| - 1], ops[|ops| - 1];
    if !(op.SetOp? && op.key == key) {
      LastWriteHeld(entries, init, key);
      assert init[|init| - 1].at <= op.at;
    }
  }

  /** A read at time `t`, no earlier than every operation before it, after a
      run of operations in time order returns the last value written for its
      key exactly when `t` is at most thirty minutes after that write. */
  lemma LatestWriteWins(entries: map<CacheKey, CacheEntry>, ops: seq<CacheOp>, key: CacheKey, t: int)
    requires InTimeOrder(ops) && LastSet(ops, key).Some? && ops[|ops| - 1].at <= t
    ensures var (s, v) := LastSet(ops, key).value;
      Lookup(Run(entries, ops), key, t).0 == (if t <= s + EdgeCacheTtl then Some(v) else None)
  {
    LastWriteHeld(entries, ops, key);
  }

  /** A key that was never written and was not there at the start is never
      found. */
  lemma {:induction false} NeverWrittenNeverFound(entries: map<CacheKey, CacheEntry>, ops: seq<CacheOp>, key: CacheKey, t: int)
    requires key !in entries && LastSet(ops, key).None?
    ensures key !in Run(entries, ops)
    ensures Lookup(Run(entries, ops), key, t).0.None?
  {
    if ops != [] {
      NeverWrittenNeverFound(entries, ops[..|ops| - 1], key, t);
    }
  }

  // ---------------------------------------------------------------------
  // `_default_positions_for_stat`
  // ---------------------------------------------------------------------

  /** `_default_positions_for_stat`: positions given are kept; otherwise the
      receiving stats go to wide receivers and tight ends, rushing yards to
      running backs and the passing stats to quarterbacks. */
  function DefaultPositions(stat: string, positions: Option<string>): (r: string)
  {
    if Truthy(positions) then positions.value
    else if stat == "recYds" || stat == "receptions" then "WR,TE"
    else if stat == "rushYds" then "RB"
    else if stat == "passYds" || stat == "passTDs" then "QB"
    else ""
  }

  /** Every stat a label names gets non-empty positions, and any stat the
      table does not name gets none unless they were given. */
  lemma DefaultPositionsCover(stat: string, positions: Option<string>)
    ensures Truthy(positions) ==> DefaultPositions(stat, positions) == positions.value
    ensures DefaultPositions(stat, positions) != "" <==> Truthy(positions) || stat in StatLabelMap.Values
  {
    assert StatLabelMap["receiving yards"] == "recYds";
    assert StatLabelMap["receptions"] == "receptions";
    assert StatLabelMap["rushing yards"] == "rushYds";
    assert StatLabelMap["passing yards"] == "passYds";
    assert StatLabelMap["passing tds"] == "passTDs";
  }

  // ---------------------------------------------------------------------
  // `_normalize_result`
  // ---------------------------------------------------------------------

  /** What the prop service may return: a dictionary, a tuple or list, or
      anything else. */
  datatype Raw = Dict(fields: map<string, Item>) | Tuple(items: seq<Item>) | Other

  datatype Normalized = Normalized(rows: Item, season: Item, week: Item, diagnostics: Item)

  /** Python truthiness of an item. */
  predicate ItemTruthy(x: Item)
  {
    match x
    case Null => false
    case Rows(rs) => rs != []
    case Num(n) => n != 0
    case Diag(d) => d != map[]
  }

  /** `a or b`. */
  function OrItem(a: Item, b: Item): (r: Item)
  {
    if ItemTruthy(a) then a else b
  }

  /** An optional number as an item. */
  function FromOpt(n: Option<int>): Item
  {
    if n.Some? then Num(n.value) else Null
  }

  /** `d.get(k)`. */
  function Get(fields: map<string, Item>, k: string): Item
  {
    if k in fields then fields[k] else Null
  }

  /** `_normalize_result`; `None` is the IndexError of `raw[0]` on an empty
      tuple or list. */
  function NormalizeResult(raw: Raw, seasonDefault: Option<int>, weekDefault: Option<int>): (r: Option<Normalized>)
  {
    match raw
    case Dict(f) =>
      Some(Normalized(OrItem(Get(f, "rows"), Rows([])),
                      if "season" in f then f["season"] else FromOpt(seasonDefault),
                      if "week" in f then f["week"] else FromOpt(weekDefault),
                      OrItem(Get(f, "diagnostics"), Diag(map[]))))
    case Tuple(xs) =>
      if |xs| == 0 then None
      else if |xs| == 2 then
        Some(Normalized(OrItem(xs[0], Rows([])), FromOpt(seasonDefault), FromOpt(weekDefault), OrItem(xs[1], Diag(map[]))))
      else if |xs| >= 3 then
        Some(Normalized(OrItem(xs[0], Rows([])),
                        if xs[1] != Null then xs[1] else FromOpt(seasonDefault),
                        if xs[2] != Null then xs[2] else FromOpt(weekDefault),
                        if |xs| > 3 && xs[3] != Null then xs[3] else Diag(map[])))
      else
        Some(Normalized(OrItem(xs[0], Rows([])), FromOpt(seasonDefault), FromOpt(weekDefault), Diag(map[])))
    case Other =>
      Some(Normalized(Rows([]), FromOpt(seasonDefault), FromOpt(weekDefault), Diag(map["warning" := "unexpected_result_type"])))
  }

  /** The normalised result as the dictionary the function returns. */
  function AsDict(n: Normalized): (r: Raw)
  {
    Dict(map["rows" := n.rows, "season" := n.season, "week" := n.week, "diagnostics" := n.diagnostics])
  }

  /** Only an empty tuple fails; the rows are the result's own when they are
      truthy and `[]` otherwise, never a falsy value of another kind. */
  lemma NormalizeRows(raw: Raw, seasonDefault: Option<int>, weekDefault: Option<int>)
    ensures NormalizeResult(raw, seasonDefault, weekDefault).None? <==> raw == Tuple([])
    ensures var r := NormalizeResult(raw, seasonDefault, weekDefault);
      r.Some? ==> ItemTruthy(r.value.rows) || r.value.rows == Rows([])
    ensures var r := NormalizeResult(raw, seasonDefault, weekDefault);
      r.Some? ==> ItemTruthy(r.value.diagnostics) || r.value.diagnostics == Diag(map[]) || (raw.Tuple? && |raw.items| > 3)
    ensures var r := NormalizeResult(raw, seasonDefault, weekDefault);
      raw.Tuple? && |raw.items| > 3 && raw.items[3] != Null ==> r.Some? && r.value.diagnostics == raw.items[3]
  {
  }

  /** Normalising the dictionary a normalisation returns gives it back. */
  lemma NormalizeIdempotent(raw: Raw, seasonDefault: Option<int>, weekDefault: Option<int>, sd: Option<int>, wd: Option<int>)
    requires NormalizeResult(raw, seasonDefault, weekDefault).Some?
    requires var n := NormalizeResult(raw, seasonDefault, weekDefault).value;
      ItemTruthy(n.diagnostics) || n.diagnostics == Diag(map[])
    ensures var n := NormalizeResult(raw, seasonDefault, weekDefault).value;
      NormalizeResult(AsDict(n), sd, wd) == Some(n)
  {
    NormalizeRows(raw, seasonDefault, weekDefault);
  }

  /** A four-tuple with a season, a week and truthy diagnostics means what
      the dictionary with those fields means. */
  lemma TupleMatchesDict(rows: Item, season: Item, week: Item, diagnostics: Item, sd: Option<int>, wd: Option<int>)
    requires season != Null && week != Null && ItemTruthy(diagnostics)
    ensures NormalizeResult(Tuple([rows, season, week, diagnostics]), sd, wd) ==
            NormalizeResult(Dict(map["rows" := rows, "season" := season, "week" := week, "diagnostics" := diagnostics]), sd, wd)
  {
  }

  /** A four-tuple keeps a falsy fourth item that is not `None` as its
      diagnostics, where a dictionary reads it as `{}`: the result is not
      normalised again to itself, and the dictionary with the same fields
      reads differently. */
  lemma FalsyDiagnosticsKept()
    ensures var n := NormalizeResult(Tuple([Rows([]), Num(2024), Num(1), Num(0)]), None, None);
      && n == Some(Normalized(Rows([]), Num(2024), Num(1), Num(0)))
      && NormalizeResult(AsDict(n.value), None, None) == Some(n.value.(diagnostics := Diag(map[])))
      && NormalizeResult(Dict(map["rows" := Rows([]), "season" := Num(2024), "week" := Num(1), "diagnostics" := Num(0)]), None, None) != n
  {
  }

  /** A `None` season in a tuple falls back to the default, while a `None`
      season in a dictionary is kept; a dictionary without the key falls back. */
  lemma NullSeason(rows: Item, week: Item, sd: Option<int>, wd: Option<int>)
    ensures NormalizeResult(Tuple([rows, Null, week]), sd, wd).value.season == FromOpt(sd)
    ensures NormalizeResult(Dict(map["rows" := rows, "season" := Null]), sd, wd).value.season == Null
    ensures NormalizeResult(Dict(map["rows" := rows]), sd, wd).value.season == FromOpt(sd)
  {
  }

  /** Anything but a dictionary or a tuple gives no rows, the defaults and the
      `unexpected_result_type` warning; a pair and a single are read without
      season and week. */
  lemma NormalizeFallbacks(raw: Raw, sd: Option<int>, wd: Option<int>)
    ensures raw.Other? ==>
      NormalizeResult(raw, sd, wd) == Some(Normalized(Rows([]), FromOpt(sd), FromOpt(wd), Diag(map["warning" := "unexpected_result_type"])))
    ensures raw.Tuple? && 1 <= |raw.items| <= 2 ==>
      NormalizeResult(raw, sd, wd).value.season == FromOpt(sd) && NormalizeResult(raw, sd, wd).value.week == FromOpt(wd)
  {
  }

  // ---------------------------------------------------------------------
  // The edges endpoints
  // ---------------------------------------------------------------------

  /** What an endpoint answers: a response, an HTTP error it raises, or an
      exception nothing catches. */
  datatype Reply = Served(resp: Response) | HttpError(status: int, detail: string) | Crashed

  /** `norm.get("rows") or []` as a list: `None` is the TypeError of slicing
      or iterating a truthy value that is not a list. */
  function RowList(x: Item): (r: Option<seq<Row>>)
  {
    if !ItemTruthy(x) then Some([])
    else if x.Rows? then Some(x.rows)
    else None
  }

  /** `rows[:limit]` for a limit the endpoint accepts. */
  function Take(rows: seq<Row>, limit: int): (r: seq<Row>)
    requires 1 <= limit
  {
    if limit < |rows| then rows[..limit] else rows
  }

  lemma TakePrefix(rows: seq<Row>, limit: int)
    requires 1 <= limit
    ensures Take(rows, limit) <= rows
    ensures |Take(rows, limit)| == if limit < |rows| then limit else |rows|
  {
  }

  /** What both edges endpoints do once they know the stat: a failed fetch
      is a 500, and the normalised result is answered with at most `limit`
      of its rows. */
  function FetchedEdges(season: Option<int>, week: Option<int>, stat: string, limit: int, fetched: Option<Raw>): (r: Reply)
    requires 1 <= limit <= 200
  {
    if fetched.None? then HttpError(500, "fetch_failed")
    else
      var norm := NormalizeResult(fetched.value, season, week);
      if norm.None? then Crashed
      else
        var rows := RowList(norm.value.rows);
        if rows.None? then Crashed
        else Served(Response(norm.value.season, norm.value.week, stat, Take(rows.value, limit), norm.value.diagnostics))
  }

  /** `nfl_player_prop_edges`; the stat's default positions, the bookmakers,
      region, `fast` and `debug` only reach the service call, whose outcome
      is `fetched`. */
  function PropEdges(season: Option<int>, week: Option<int>, stat: string, limit: int, fetched: Option<Raw>): (r: Reply)
    requires 1 <= limit <= 200
  {
    var st := Strip(stat);
    if st == "" then HttpError(400, "stat is required") else FetchedEdges(season, week, st, limit, fetched)
  }

  /** A blank stat is a 400 and a failed fetch a 500; a response carries the
      stripped stat and at most `limit` of the normalised rows, from the
      front. */
  lemma PropEdgesShape(season: Option<int>, week: Option<int>, stat: string, limit: int, fetched: Option<Raw>)
    requires 1 <= limit <= 200
    ensures var r := PropEdges(season, week, stat, limit, fetched);
      && (r == HttpError(400, "stat is required") <==> Strip(stat) == "")
      && (r == HttpError(500, "fetch_failed") <==> Strip(stat) != "" && fetched.None?)
      && (r.Served? ==>
            var n := NormalizeResult(fetched.value, season, week).value;
            && r.resp.stat == Strip(stat)
            && |r.resp.rows| <= limit
            && RowList(n.rows).Some? && r.resp.rows <= RowList(n.rows).value)
  {
    var r := PropEdges(season, week, stat, limit, fetched);
    if r.Served? {
      var n := NormalizeResult(fetched.value, season, week).value;
      TakePrefix(RowList(n.rows).value, limit);
    }
  }

  /** `nfl_player_prop_edges_simple`: the reply and the cache afterwards. */
  function EdgesSimpleSpec(entries: map<CacheKey, CacheEntry>, season: Option<int>, week: Option<int>, statLabel: string, limit: int,
                           bookmakers: Option<string>, region: Option<string>, positions: Option<string>, fast: bool, debug: bool,
                           readAt: int, writeAt: int, fetched: Option<Raw>): (r: (Reply, map<CacheKey, CacheEntry>))
    requires 1 <= limit <= 200
  {
    var labelNorm := LowerStr(Strip(statLabel));
    if labelNorm !in StatLabelMap then (HttpError(400, "Unsupported statLabel."), entries)
    else
      var stat := StatLabelMap[labelNorm];
      var key := MakeCacheKey(season, week, stat, Some(DefaultPositions(stat, positions)), bookmakers, region, fast);
      var read := if debug then (None, entries) else Lookup(entries, key, readAt);
      var cached, afterRead := read.0, read.1;
      if cached.Some? then (Served(cached.value.(rows := Take(cached.value.rows, limit), stat := stat)), afterRead)
      else
        var live := FetchedEdges(season, week, stat, limit, fetched);
        if live.Served? && !debug then (live, Store(afterRead, key, live.resp, writeAt))
        else (live, afterRead)
  }

  /** An unknown label is a 400 and leaves the cache alone. */
  lemma UnsupportedLabel(entries: map<CacheKey, CacheEntry>, season: Option<int>, week: Option<int>, statLabel: string, limit: int,
                         bookmakers: Option<string>, region: Option<string>, positions: Option<string>, fast: bool, debug: bool,
                         readAt: int, writeAt: int, fetched: Option<Raw>)
    requires 1 <= limit <= 200
    ensures var r := EdgesSimpleSpec(entries, season, week, statLabel, limit, bookmakers, region, positions, fast, debug, readAt, writeAt, fetched);
      (r.0 == HttpError(400, "Unsupported statLabel.") <==> LowerStr(Strip(statLabel)) !in StatLabelMap) &&
      (LowerStr(Strip(statLabel)) !in StatLabelMap ==> r.1 == entries)
  {
  }

  /** With `debug` the cache is neither read nor written: the reply is the
      fresh one whatever the cache holds. */
  lemma DebugBypassesCache(entries: map<CacheKey, CacheEntry>, other: map<CacheKey, CacheEntry>, season: Option<int>, week: Option<int>,
                           statLabel: string, limit: int, bookmakers: Option<string>, region: Option<string>, positions: Option<string>,
                           fast: bool, readAt: int, writeAt: int, fetched: Option<Raw>)
    requires 1 <= limit <= 200
    ensures var r := EdgesSimpleSpec(entries, season, week, statLabel, limit, bookmakers, region, positions, fast, true, readAt, writeAt, fetched);
      r.1 == entries &&
      r.0 == EdgesSimpleSpec(other, season, week, statLabel, limit, bookmakers, region, positions, fast, true, readAt, writeAt, fetched).0
  {
  }

  /** Every response has at most `limit` rows, the stat the label names, and
      without `debug` the cache then holds a response for its key. */
  lemma EdgesSimpleShape(entries: map<CacheKey, CacheEntry>, season: Option<int>, week: Option<int>, statLabel: string, limit: int,
                         bookmakers: Option<string>, region: Option<string>, positions: Option<string>, fast: bool, debug: bool,
                         readAt: int, writeAt: int, fetched: Option<Raw>)
    requires 1 <= limit <= 200
    ensures var r := EdgesSimpleSpec(entries, season, week, statLabel, limit, bookmakers, region, positions, fast, debug, readAt, writeAt, fetched);
      r.0.Served? ==>
        var labelNorm := LowerStr(Strip(statLabel));
        var stat := StatLabelMap[labelNorm];
        && labelNorm in StatLabelMap
        && |r.0.resp.rows| <= limit
        && r.0.resp.stat == stat
        && (!debug ==> MakeCacheKey(season, week, stat, Some(DefaultPositions(stat, positions)), bookmakers, region, fast) in r.1)
  {
  }

  /** The cache key leaves out the limit while the cached response is already
      cut to it: within thirty minutes of a call that missed the cache, the
      same call with another limit gets the first reply's rows cut again, so
      never more than the first limit. */
  lemma CachedRowsKeepFirstLimit(entries: map<CacheKey, CacheEntry>, season: Option<int>, week: Option<int>, statLabel: string,
                                 limit1: int, limit2: int, bookmakers: Option<string>, region: Option<string>, positions: Option<string>,
                                 fast: bool, t1: int, t2: int, t3: int, fetched1: Option<Raw>, fetched2: Option<Raw>)
    requires 1 <= limit1 <= 200 && 1 <= limit2 <= 200
    requires t2 <= t3 <= t2 + EdgeCacheTtl
    requires LowerStr(Strip(statLabel)) in StatLabelMap
    requires var stat := StatLabelMap[LowerStr(Strip(statLabel))];
      MakeCacheKey(season, week, stat, Some(DefaultPositions(stat, positions)), bookmakers, region, fast) !in entries
    requires EdgesSimpleSpec(entries, season, week, statLabel, limit1, bookmakers, region, positions, fast, false, t1, t2, fetched1).0.Served?
    ensures var first := EdgesSimpleSpec(entries, season, week, statLabel, limit1, bookmakers, region, positions, fast, false, t1, t2, fetched1);
      var second := EdgesSimpleSpec(first.1, season, week, statLabel, limit2, bookmakers, region, positions, fast, false, t3, t3, fetched2);
      && second.0 == Served(first.0.resp.(rows := Take(first.0.resp.rows, limit2)))
      && |second.0.resp.rows| <= limit1
  {
    var first := EdgesSimpleSpec(entries, season, week, statLabel, limit1, bookmakers, region, positions, fast, false, t1, t2, fetched1);
    var stat := StatLabelMap[LowerStr(Strip(statLabel))];
    var key := MakeCacheKey(season, week, stat, Some(DefaultPositions(stat, positions)), bookmakers, region, fast);
    assert first.1 == Store(entries, key, first.0.resp, t2);
    assert first.0.resp.stat == stat;
    TakePrefix(first.0.resp.rows, limit2);
  }

  // ---------------------------------------------------------------------
  // `nfl_player_props`
  // ---------------------------------------------------------------------

  /** What the bulk endpoint has gathered so far. */
  datatype Agg = Agg(season: Item, week: Item, rows: seq<Row>, diagnostics: map<string, Item>)

  /** `{**r, "market": None, "edge": None}`. */
  function WithoutMarket(r: Row): Row
  {
    r.(market := None, edge := None)
  }

  function WithoutMarkets(rows: seq<Row>): (r: seq<Row>)
    ensures |r| == |rows| && forall i | 0 <= i < |rows| :: r[i] == WithoutMarket(rows[i])
  {
    seq(|rows|, i requires 0 <= i < |rows| => WithoutMarket(rows[i]))
  }

  /** One turn of the stat loop of `nfl_player_props` for the stripped stat
      `stat`; `None` is an exception that escapes (an empty tuple, or rows
      that cannot be iterated). */
  function StatStep(a: Agg, stat: string, season: Option<int>, week: Option<int>, includeMarkets: bool, fetch: map<string, Raw>): (r: Option<Agg>)
  {
    if stat == "" || stat !in fetch then Some(a)
    else
      var norm := NormalizeResult(fetch[stat], season, week);
      if norm.None? then None
      else
        var rows := RowList(norm.value.rows);
        if rows.None? then None
        else
          Some(Agg(if a.season == Null then norm.value.season else a.season,
                   if a.week == Null then norm.value.week else a.week,
                   a.rows + (if includeMarkets then rows.value else WithoutMarkets(rows.value)),
                   a.diagnostics[stat := OrItem(norm.value.diagnostics, Diag(map[]))]))
  }

  /** The loop over the comma-separated parts, each stripped. */
  function Gather(a: Agg, parts: seq<string>, season: Option<int>, week: Option<int>, includeMarkets: bool, fetch: map<string, Raw>): Option<Agg>
  {
    if parts == [] then Some(a)
    else
      var before := Gather(a, parts[..|parts| - 1], season, week, includeMarkets, fetch);
      if before.None? then None else StatStep(before.value, Strip(parts[|parts| - 1]), season, week, includeMarkets, fetch)
  }

  /** `stats or DEFAULT`, split on commas. */
  function StatParts(stats: Option<string>): seq<string>
  {
    Split(if Truthy(stats) then stats.value else DefaultStatsCsv, ',')
  }

  /** `nfl_player_props`; `fetch` maps each stat to what the service returned
      for it, and a stat it does not map raised, was logged and skipped. */
  function PlayerProps(season: Option<int>, week: Option<int>, stats: Option<string>, includeMarkets: bool, fetch: map<string, Raw>): Option<Agg>
  {
    Gather(Agg(FromOpt(season), FromOpt(week), [], map[]), StatParts(stats), season, week, includeMarkets, fetch)
  }

  lemma GatherStep(a: Agg, parts: seq<string>, i: nat, season: Option<int>, week: Option<int>, includeMarkets: bool, fetch: map<string, Raw>)
    requires i < |parts|
    ensures var before := Gather(a, parts[..i], season, week, includeMarkets, fetch);
      Gather(a, parts[..i + 1], season, week, includeMarkets, fetch) ==
        (if before.None? then None else StatStep(before.value, Strip(parts[i]), season, week, includeMarkets, fetch))
  {
    assert parts[..i + 1][..i] == parts[..i];
  }

  /** The body of the stat loop of `nfl_player_props` for one stripped stat. */
  method AddStat(agg: Agg, stat: string, season: Option<int>, week: Option<int>, includeMarkets: bool, fetch: map<string, Raw>)
    returns (r: Option<Agg>)
    ensures r == StatStep(agg, stat, season, week, includeMarkets, fetch)
  {
    if stat == "" || stat !in fetch {
      return Some(agg);
    }
    var norm := NormalizeResult(fetch[stat], season, week);
    if norm.None? {
      return None;
    }
    var next := agg;
    if next.season == Null {
      next := next.(season := norm.value.season);
    }
    if next.week == Null {
      next := next.(week := norm.value.week);
    }
    var rows := RowList(norm.value.rows);
    if rows.None? {
      return None;
    }
    var out := rows.value;
    if !includeMarkets {
      out := WithoutMarkets(out);
    }
    r := Some(next.(rows := next.rows + out, diagnostics := next.diagnostics[stat := OrItem(norm.value.diagnostics, Diag(map[]))]));
  }

  /** The stat loop of `nfl_player_props` over the parts of the stats text. */
  method GatherParts(a0: Agg, parts: seq<string>, season: Option<int>, week: Option<int>, includeMarkets: bool, fetch: map<string, Raw>)
    returns (r: Option<Agg>)
    ensures r == Gather(a0, parts, season, week, includeMarkets, fetch)
  {
    var agg := a0;
    for i := 0 to |parts|
      invariant Gather(a0, parts[..i], season, week, includeMarkets, fetch) == Some(agg)
    {
      GatherStep(a0, parts, i, season, week, includeMarkets, fetch);
      var next := AddStat(agg, Strip(parts[i]), season, week, includeMarkets, fetch);
      if next.None? {
        GatherStuck(a0, parts, i + 1, season, week, includeMarkets, fetch);
        return None;
      }
      agg := next.value;
    }
    assert parts[..|parts|] == parts;
    r := Some(agg);
  }

  /** `nfl_player_props`, starting from the season and week as given. */
  method GatherProps(season: Option<int>, week: Option<int>, stats: Option<string>, includeMarkets: bool, fetch: map<string, Raw>)
    returns (r: Option<Agg>)
    ensures r == PlayerProps(season, week, stats, includeMarkets, fetch)
  {
    r := GatherParts(Agg(FromOpt(season), FromOpt(week), [], map[]), StatParts(stats), season, week, includeMarkets, fetch);
  }

  /** Once an exception escapes, the rest of the loop does not matter. */
  lemma {:induction false} GatherStuck(a: Agg, parts: seq<string>, i: nat, season: Option<int>, week: Option<int>, includeMarkets: bool,
                                       fetch: map<string, Raw>)
    requires i <= |parts| && Gather(a, parts[..i], season, week, includeMarkets, fetch).None?
    ensures Gather(a, parts, season, week, includeMarkets, fetch).None?
    decreases |parts| - i
  {
    if i < |parts| {
      GatherStep(a, parts, i + 1 - 1, season, week, includeMarkets, fetch);
      GatherStuck(a, parts, i + 1, season, week, includeMarkets, fetch);
    } else {
      assert parts[..i] == parts;
    }
  }

  /** A season or week given by the caller is what the reply reports; one not
      given is the first one a stat's result supplies. */
  lemma {:induction false} GatherKeepsGiven(a: Agg, parts: seq<string>, season: Option<int>, week: Option<int>, includeMarkets: bool,
                                            fetch: map<string, Raw>)
    requires Gather(a, parts, season, week, includeMarkets, fetch).Some?
    ensures var r := Gather(a, parts, season, week, includeMarkets, fetch).value;
      (a.season != Null ==> r.season == a.season) && (a.week != Null ==> r.week == a.week)
  {
    if parts != [] {
      GatherKeepsGiven(a, parts[..|parts| - 1], season, week, includeMarkets, fetch);
    }
  }

  /** Without markets asked for, no row has a market or an edge. */
  lemma {:induction false} GatherStripsMarkets(a: Agg, parts: seq<string>, season: Option<int>, week: Option<int>, fetch: map<string, Raw>)
    requires forall i | 0 <= i < |a.rows| :: a.rows[i].market.None? && a.rows[i].edge.None?
    requires Gather(a, parts, season, week, false, fetch).Some?
    ensures var r := Gather(a, parts, season, week, false, fetch).value;
      forall i | 0 <= i < |r.rows| :: r.rows[i].market.None? && r.rows[i].edge.None?
  {
    if parts != [] {
      GatherStripsMarkets(a, parts[..|parts| - 1], season, week, fetch);
    }
  }

  /** The non-blank stripped stats whose service call returned. */
  function Answered(parts: seq<string>, fetch: map<string, Raw>): set<string>
  {
    if parts == [] then {}
    else
      var stat := Strip(parts[|parts| - 1]);
      Answered(parts[..|parts| - 1], fetch) + (if stat != "" && stat in fetch then {stat} else {})
  }

  /** A stat is answered exactly when it is non-blank, its call returned and
      some part strips to it. */
  lemma {:induction false} AnsweredMeaning(parts: seq<string>, fetch: map<string, Raw>, x: string)
    ensures x in Answered(parts, fetch) <==> x != "" && x in fetch && exists i | 0 <= i < |parts| :: Strip(parts[i]) == x
  {
    if parts != [] {
      var init := parts[..|parts| - 1];
      AnsweredMeaning(init, fetch, x);
      if exists i | 0 <= i < |parts| :: Strip(parts[i]) == x {
        var i :| 0 <= i < |parts| && Strip(parts[i]) == x;
        if i < |init| {
          assert Strip(init[i]) == x;
        }
      }
      if exists i | 0 <= i < |init| :: Strip(init[i]) == x {
        var i :| 0 <= i < |init| && Strip(init[i]) == x;
        assert Strip(parts[i]) == x;
      }
    }
  }

  /** The diagnostics are keyed by exactly the answered stats, added to those
      there were. */
  lemma {:induction false} GatherDiagnostics(a: Agg, parts: seq<string>, season: Option<int>, week: Option<int>, includeMarkets: bool,
                                             fetch: map<string, Raw>)
    requires Gather(a, parts, season, week, includeMarkets, fetch).Some?
    ensures Gather(a, parts, season, week, includeMarkets, fetch).value.diagnostics.Keys == a.diagnostics.Keys + Answered(parts, fetch)
  {
    if parts != [] {
      GatherDiagnostics(a, parts[..|parts| - 1], season, week, includeMarkets, fetch);
    }
  }

  /** When every service call raises, the reply is empty: no rows, no
      diagnostics, and the season and week as given. */
  lemma {:induction false} AllCallsFail(a: Agg, parts: seq<string>, season: Option<int>, week: Option<int>, includeMarkets: bool)
    ensures Gather(a, parts, season, week, includeMarkets, map[]) == Some(a)
  {
    if parts != [] {
      AllCallsFail(a, parts[..|parts| - 1], season, week, includeMarkets);
    }
  }

  /** As written, each call of the prop service passes eight positional
      arguments to a function of seven and raises TypeError, which every
      endpoint catches: the single-stat endpoint answers 500 for any stat
      that is not blank, the label endpoint answers 500 for a supported
      label and caches nothing, and the bulk endpoint returns no rows and
      no diagnostics. */
  lemma ServiceCallsFail(season: Option<int>, week: Option<int>, stat: string, statLabel: string, stats: Option<string>,
                         limit: int, bookmakers: Option<string>, region: Option<string>, positions: Option<string>,
                         fast: bool, readAt: int, writeAt: int, includeMarkets: bool)
    requires 1 <= limit <= 200
    ensures PropEdges(season, week, stat, limit, None) ==
            (if Strip(stat) == "" then HttpError(400, "stat is required") else HttpError(500, "fetch_failed"))
    ensures LowerStr(Strip(statLabel)) in StatLabelMap ==>
      EdgesSimpleSpec(map[], season, week, statLabel, limit, bookmakers, region, positions, fast, false, readAt, writeAt, None) ==
        (HttpError(500, "fetch_failed"), map[])
    ensures PlayerProps(season, week, stats, includeMarkets, map[]) == Some(Agg(FromOpt(season), FromOpt(week), [], map[]))
  {
    AllCallsFail(Agg(FromOpt(season), FromOpt(week), [], map[]), StatParts(stats), season, week, includeMarkets);
    if LowerStr(Strip(statLabel)) in StatLabelMap {
      SimpleFetchFails(season, week, statLabel, limit, bookmakers, region, positions, fast, readAt, writeAt);
    }
  }

  /** A supported label with an empty cache and a failed fetch is a 500 that
      stores nothing. */
  lemma SimpleFetchFails(season: Option<int>, week: Option<int>, statLabel: string, limit: int, bookmakers: Option<string>,
                         region: Option<string>, positions: Option<string>, fast: bool, readAt: int, writeAt: int)
    requires 1 <= limit <= 200 && LowerStr(Strip(statLabel)) in StatLabelMap
    ensures EdgesSimpleSpec(map[], season, week, statLabel, limit, bookmakers, region, positions, fast, false, readAt, writeAt, None) ==
      (HttpError(500, "fetch_failed"), map[])
  {
    var stat := StatLabelMap[LowerStr(Strip(statLabel))];
    var key := MakeCacheKey(season, week, stat, Some(DefaultPositions(stat, positions)), bookmakers, region, fast);
    assert Lookup(map[], key, readAt) == (None, map[]);
    assert FetchedEdges(season, week, stat, limit, None) == HttpError(500, "fetch_failed");
  }
}
