/** The player-prop heuristic of `app/models/nfl_props_model.py`: a position
    guessed from the player's name, a per-position table of baselines, and
    one factor from the game total and the team's spread that scales them.
    Numbers are exact reals: the rounding to one or two decimals is not
    modelled. */
module NflPropsModel {
  import opened Common

  /** `BASELINES`. */
  const Baselines: map<string, map<string, real> > := map[
    "QB" := map["passYds" := 225.0, "passTDs" := 1.5, "rushYds" := 15.0],
    "RB" := map["rushYds" := 55.0, "recYds" := 15.0, "receptions" := 2.0],
    "WR" := map["recYds" := 55.0, "receptions" := 4.0],
    "TE" := map["recYds" := 35.0, "receptions" := 3.0]
  ]

  /** `LEAGUE_AVG_TOTAL`. */
  const LeagueAvgTotal: real := 43.0

  // ---------------------------------------------------------------------
  // `_pos_from_name`
  // ---------------------------------------------------------------------

  /** The tags each position is recognised by, in the lower-cased name.  The
      quarterback's bare tag has no leading space; the others need one. */
  predicate QbTag(n: string) { Contains(n, "qb ") || Contains(n, "qb-") || Contains(n, "(qb)") }
  predicate RbTag(n: string) { Contains(n, " rb ") || Contains(n, "rb-") || Contains(n, "(rb)") }
  predicate WrTag(n: string) { Contains(n, " wr ") || Contains(n, "wr-") || Contains(n, "(wr)") }
  predicate TeTag(n: string) { Contains(n, " te ") || Contains(n, "te-") || Contains(n, "(te)") }

  /** `_pos_from_name`: the first position, in the order QB, RB, WR, TE,
      whose tag is in the name, else WR. */
  function PosFromName(name: string): (p: string)
    ensures p in Baselines
  {
    var n := LowerStr(name);
    if QbTag(n) then "QB"
    else if RbTag(n) then "RB"
    else if WrTag(n) then "WR"
    else if TeTag(n) then "TE"
    else "WR"
  }

  /** Each guess means its tag is in the name and no earlier position's is;
      a name with no tag at all is a receiver. */
  lemma PosFromNameMeaning(name: string)
    ensures var p, n := PosFromName(name), LowerStr(name);
      && (p == "QB" <==> QbTag(n))
      && (p == "RB" <==> !QbTag(n) && RbTag(n))
      && (p == "TE" <==> !QbTag(n) && !RbTag(n) && !WrTag(n) && TeTag(n))
      && (!QbTag(n) && !RbTag(n) && !WrTag(n) && !TeTag(n) ==> p == "WR")
  {
  }

  /** Lower-casing an upper-cased character gives the lower-cased character. */
  lemma LowerOfUpper(s: string)
    ensures LowerStr(UpperStr(s)) == LowerStr(s)
  {
    var a, b := LowerStr(UpperStr(s)), LowerStr(s);
    forall i | 0 <= i < |s|
      ensures a[i] == b[i]
    {
      assert Lower(Upper(s[i])) == Lower(s[i]);
    }
  }

  /** The guess ignores the case of the name. */
  lemma PosCaseInsensitive(name: string)
    ensures PosFromName(UpperStr(name)) == PosFromName(name)
  {
    LowerOfUpper(name);
  }

  /** The quarterback tag matches at the very start of any name, where the
      running back's tag, which needs a leading space, does not: "rb x" is
      guessed a receiver. */
  lemma BareTagAtStart(name: string)
    ensures "qb " <= LowerStr(name) ==> PosFromName(name) == "QB"
    ensures PosFromName("rb x") == "WR"
  {
    if "qb " <= LowerStr(name) {
      assert Contains(LowerStr(name), "qb ");
    }
    assert LowerStr("rb x") == "rb x";
    NoQbRbTag("rb x");
    NoWrTeTag("rb x");
  }

  /** A name that starts with "rb " and carries no tag after those two
      letters is a receiver: no tag starts at its first two characters, and
      the running back's bare tag needs a leading space. */
  lemma LeadingRbIsReceiver(name: string)
    requires "rb " <= LowerStr(name)
    requires var rest := LowerStr(name)[2..];
      !QbTag(rest) && !RbTag(rest) && !WrTag(rest) && !TeTag(rest)
    ensures PosFromName(name) == "WR"
  {
    var n := LowerStr(name);
    NoQbRbAtHead(n);
    NoWrTeAtHead(n);
  }

  /** After a leading "rb " no quarterback or running-back tag starts: one
      is in the text only if it is after the first two letters. */
  lemma NoQbRbAtHead(n: string)
    requires "rb " <= n
    ensures QbTag(n) == QbTag(n[2..]) && RbTag(n) == RbTag(n[2..])
  {
    assert n[0] == 'r' && n[1] == 'b' && n[2] == ' ';
    SkipTwo(n, "qb ");
    SkipTwo(n, "qb-");
    SkipTwo(n, "(qb)");
    SkipTwo(n, " rb ");
    SkipTwo(n, "rb-");
    SkipTwo(n, "(rb)");
  }

  /** After a leading "rb " no receiver or tight-end tag starts. */
  lemma NoWrTeAtHead(n: string)
    requires "rb " <= n
    ensures WrTag(n) == WrTag(n[2..]) && TeTag(n) == TeTag(n[2..])
  {
    assert n[0] == 'r' && n[1] == 'b' && n[2] == ' ';
    SkipTwo(n, " wr ");
    SkipTwo(n, "wr-");
    SkipTwo(n, "(wr)");
    SkipTwo(n, " te ");
    SkipTwo(n, "te-");
    SkipTwo(n, "(te)");
  }

  /** A text contains a pattern that starts at neither of its first two
      characters exactly when the text after them does. */
  lemma SkipTwo(s: string, p: string)
    requires |s| >= 3 && |p| >= 3 && p[0] != s[1] && (p[0] != s[0] || p[2] != s[2])
    ensures Contains(s, p) == Contains(s[2..], p)
  {
    assert !(p <= s);
    assert !(p <= s[1..]) by {
      if |p| <= |s[1..]| {
        assert p[0] != s[1..][0];
      }
    }
    assert s[1..][1..] == s[2..];
  }

  /** "rb x" carries neither a quarterback nor a running-back tag. */
  lemma NoQbRbTag(s: string)
    requires s == "rb x"
    ensures !QbTag(s) && !RbTag(s)
  {
    Misses(s, " rb ", 0, 0);
    Misses(s, "rb-", 2, 0);
    Misses(s, "(rb)", 0, 0);
    Misses(s, "qb ", 0, 0);
    Misses(s, "qb-", 0, 0);
    Misses(s, "(qb)", 0, 0);
  }

  /** "rb x" carries neither a receiver nor a tight-end tag. */
  lemma NoWrTeTag(s: string)
    requires s == "rb x"
    ensures !WrTag(s) && !TeTag(s)
  {
    Misses(s, " wr ", 0, 0);
    Misses(s, "wr-", 0, 0);
    Misses(s, "(wr)", 0, 0);
    Misses(s, " te ", 0, 0);
    Misses(s, "te-", 0, 0);
    Misses(s, "(te)", 0, 0);
  }

  /** A tag of three or four characters is not in a four-character text when
      it differs from the text at `i` and from the text's tail at `j`. */
  lemma Misses(s: string, p: string, i: nat, j: nat)
    requires |s| == 4 && 3 <= |p| && i < |p| && i < |s| && j < |p| && j + 1 < |s| && p[i] != s[i] && p[j] != s[j + 1]
    ensures !Contains(s, p)
  {
    assert !(p <= s[1..]) by {
      assert p[j] != s[1..][j];
    }
    NotContainsLonger(s[2..], p);
  }

  /** A text does not contain anything longer than itself. */
  lemma {:induction false} NotContainsLonger(s: string, p: string)
    requires |p| > |s|
    ensures !Contains(s, p)
    decreases |s|
  {
    if |s| > 0 {
      NotContainsLonger(s[1..], p);
    }
  }

  // ---------------------------------------------------------------------
  // `_adj_factor`
  // ---------------------------------------------------------------------

  /** `_adj_factor`: pace from the game total (one percent per point off 43),
      bias from the spread (half a percent per point, towards the underdog),
      their product clamped to 0.85..1.15.  A missing number takes its
      default, 43 for the total and 0 for the spread. */
  function AdjFactor(gameTotal: Option<real>, teamSpread: Option<real>): (r: real)
    ensures 0.85 <= r <= 1.15
  {
    var total := if gameTotal.Some? then gameTotal.value else LeagueAvgTotal;
    var spread := if teamSpread.Some? then teamSpread.value else 0.0;
    Clamp(Scale(total, spread))
  }

  /** `pace * bias`. */
  function Scale(total: real, spread: real): real { Pace(total) * Bias(spread) }

  function Pace(total: real): real { 1.0 + (total - LeagueAvgTotal) * 0.01 }

  function Bias(spread: real): real { 1.0 + (-spread) * 0.005 }

  /** `max(0.85, min(p, 1.15))`. */
  function Clamp(p: real): real
  {
    if p > 1.15 then 1.15 else if p < 0.85 then 0.85 else p
  }

  /** A missing total counts as the league average and a missing spread as a
      pick'em; with neither the factor is exactly 1. */
  lemma AdjDefaults(gameTotal: Option<real>, teamSpread: Option<real>)
    ensures AdjFactor(None, teamSpread) == AdjFactor(Some(LeagueAvgTotal), teamSpread)
    ensures AdjFactor(gameTotal, None) == AdjFactor(gameTotal, Some(0.0))
    ensures AdjFactor(None, None) == 1.0
  {
  }

  /** For a spread of at most 200 points, a higher total never lowers the
      factor. */
  lemma AdjMonotoneInTotal(t1: real, t2: real, spread: real)
    requires t1 <= t2 && spread <= 200.0
    ensures AdjFactor(Some(t1), Some(spread)) <= AdjFactor(Some(t2), Some(spread))
  {
    var b := Bias(spread);
    MulMonotone(Pace(t1), Pace(t2), b);
  }

  lemma MulMonotone(a: real, c: real, b: real)
    requires a <= c && b >= 0.0
    ensures a * b <= c * b
  {
  }

  // ---------------------------------------------------------------------
  // `project_player_props`
  // ---------------------------------------------------------------------

  /** `(position or "").upper() or _pos_from_name(player_name)`. */
  function Position(position: Option<string>, playerName: string): (p: string)
  {
    var given := UpperStr(OrElse(position, ""));
    if given != "" then given else PosFromName(playerName)
  }

  /** `BASELINES.get(pos, BASELINES["WR"])`. */
  function Bases(pos: string): (b: map<string, real>)
  {
    if pos in Baselines then Baselines[pos] else Baselines["WR"]
  }

  /** The value of one stat: the baseline times the factor, except that
      passing touchdowns scale with `0.9 + total / 50`, where a missing or
      zero total counts as 43. */
  function StatValue(stat: string, base: real, adj: real, gameTotal: Option<real>): real
  {
    if stat == "passTDs" then
      var g := if gameTotal.Some? && gameTotal.value != 0.0 then gameTotal.value else LeagueAvgTotal;
      base * (0.9 + g / 50.0)
    else base * adj
  }

  /** `project_player_props`. */
  function ProjectPlayerProps(playerName: string, position: Option<string>, team: string, opponent: string,
                              gameTotal: Option<real>, teamSpreadHome: Option<real>): (proj: map<string, real>)
  {
    Project(Bases(Position(position, playerName)), AdjFactor(gameTotal, teamSpreadHome), gameTotal)
  }

  /** Every stat of the baselines, valued by `StatValue`. */
  function Project(bases: map<string, real>, adj: real, gameTotal: Option<real>): map<string, real>
  {
    map stat | stat in bases :: StatValue(stat, bases[stat], adj, gameTotal)
  }

  /** A position given in any case overrides the name; a position that is
      not in the table, like a missing one that the name cannot place, falls
      back to the receiver baselines. */
  lemma PositionChoice(position: Option<string>, playerName: string)
    ensures Truthy(position) ==> Position(position, playerName) == UpperStr(position.value)
    ensures !Truthy(position) ==> Position(position, playerName) == PosFromName(playerName)
    ensures Bases(Position(position, playerName)) ==
            (if Position(position, playerName) in Baselines then Baselines[Position(position, playerName)] else Baselines["WR"])
  {
    if Truthy(position) {
      assert UpperStr(position.value)[0] == Upper(position.value[0]);
    }
  }

  /** The projection has exactly the stats of the chosen baseline; every stat
      but passing touchdowns is its baseline scaled by the factor, so within
      0.85 and 1.15 times it. */
  lemma ProjectionKeys(playerName: string, position: Option<string>, team: string, opponent: string,
                       gameTotal: Option<real>, teamSpreadHome: Option<real>)
    ensures var proj, bases := ProjectPlayerProps(playerName, position, team, opponent, gameTotal, teamSpreadHome),
                               Bases(Position(position, playerName));
      && proj.Keys == bases.Keys
      && forall stat | stat in bases && stat != "passTDs" ::
           proj[stat] == bases[stat] * AdjFactor(gameTotal, teamSpreadHome) &&
           0.85 * bases[stat] <= proj[stat] <= 1.15 * bases[stat]
  {
    BasesNonNegative(Position(position, playerName));
    ProjectWithin(Bases(Position(position, playerName)), AdjFactor(gameTotal, teamSpreadHome), gameTotal);
  }

  /** Scaling non-negative baselines by a factor in 0.85..1.15 keeps every
      stat but passing touchdowns within 0.85 and 1.15 times its baseline. */
  lemma ProjectWithin(bases: map<string, real>, adj: real, gameTotal: Option<real>)
    requires forall stat | stat in bases :: bases[stat] >= 0.0
    requires 0.85 <= adj <= 1.15
    ensures var proj := Project(bases, adj, gameTotal);
      && proj.Keys == bases.Keys
      && forall stat | stat in bases && stat != "passTDs" ::
           proj[stat] == bases[stat] * adj && 0.85 * bases[stat] <= proj[stat] <= 1.15 * bases[stat]
  {
    var proj := Project(bases, adj, gameTotal);
    forall stat | stat in bases && stat != "passTDs"
      ensures proj[stat] == bases[stat] * adj
      ensures 0.85 * bases[stat] <= proj[stat] <= 1.15 * bases[stat]
    {
      ScaleWithin(bases[stat], adj);
    }
  }

  /** Every baseline is non-negative. */
  lemma BasesNonNegative(pos: string)
    ensures forall stat | stat in Bases(pos) :: Bases(pos)[stat] >= 0.0
  {
  }

  /** A non-negative number scaled by a factor in 0.85..1.15 stays within
      0.85 and 1.15 times itself. */
  lemma ScaleWithin(b: real, adj: real)
    requires b >= 0.0 && 0.85 <= adj <= 1.15
    ensures 0.85 * b <= b * adj <= 1.15 * b
  {
    MulMonotone(0.85, adj, b);
    MulMonotone(adj, 1.15, b);
  }

  /** An unknown position gets receiving yards and receptions only. */
  lemma UnknownPositionIsReceiver(playerName: string, position: Option<string>, team: string, opponent: string,
                                  gameTotal: Option<real>, teamSpreadHome: Option<real>)
    requires Truthy(position) && UpperStr(position.value) !in Baselines
    ensures ProjectPlayerProps(playerName, position, team, opponent, gameTotal, teamSpreadHome).Keys == {"recYds", "receptions"}
  {
    PositionChoice(position, playerName);
  }
}
