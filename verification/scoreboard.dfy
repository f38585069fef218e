/** The parts of an ESPN scoreboard event that the services read.  A JSON
    object that the code reads with `x.get("k") or {}` is a record here whose
    missing fields are `None`/`Null`, so a missing object and an empty one are
    the same value, as they are to the code.  A competitor is the exception:
    the form summary tests its truth, so it also says whether it is `{}`. */
module Scoreboard {
  import opened Common

  /** A JSON field that may hold a number, a string, or nothing (missing or null). */
  datatype Scalar = Null | Num(n: int) | Text(s: string)

  datatype Team = Team(id: Option<string>, displayName: Option<string>, name: Option<string>, location: Option<string>)

  datatype Linescore = Linescore(value: Scalar)

  /** A competitor object; `empty` says it is `{}`, which Python's truth test
      reads as false (its fields then all read as missing). */
  datatype Competitor = Competitor(team: Team, homeAway: Option<string>, score: Scalar, linescores: seq<Linescore>, empty: bool)

  /** `competition.status.type`: the state ("pre", "in", "post"), the completed flag
      (a missing flag is false) and the human-readable description. */
  datatype Status = Status(state: Option<string>, completed: bool, description: Option<string>)

  datatype Competition = Competition(id: Option<string>, date: Option<string>, status: Status, competitors: seq<Competitor>)

  datatype Event = Event(id: Option<string>, date: Option<string>, competitions: seq<Competition>)

  const EmptyStatus: Status := Status(None, false, None)

  /** What `{}` reads as when it stands in for a competition. */
  const EmptyCompetition: Competition := Competition(None, None, EmptyStatus, [])

  /** `(ev.get("competitions") or [{}])[0]`. */
  function FirstCompetition(ev: Event): (c: Competition)
    ensures |ev.competitions| > 0 ==> c == ev.competitions[0]
    ensures |ev.competitions| == 0 ==> c.competitors == [] && !c.status.completed
  {
    if |ev.competitions| > 0 then ev.competitions[0] else EmptyCompetition
  }

  /** Python's `str(x)` of an id field: ids are strings, and a missing one prints as "None". */
  function IdStr(id: Option<string>): string
  {
    if id.None? then "None" else id.value
  }

  /** `str(c["team"].get("id")) == str(team_id)`. */
  predicate Matches(c: Competitor, teamId: string)
  {
    IdStr(c.team.id) == teamId
  }

  /** `int(x or 0)` with a ValueError read as 0: numbers are kept, text is parsed
      as a Python integer literal (surrounding whitespace allowed), anything else is 0. */
  function IntOrZero(v: Scalar): (r: int)
    ensures v.Null? ==> r == 0
    ensures v.Num? ==> r == v.n
    ensures v.Text? && ParseInt(v.s).Some? ==> r == ParseInt(v.s).value
    ensures v.Text? && ParseInt(v.s).None? ==> r == 0
  {
    match v
    case Null => 0
    case Num(k) => k
    case Text(s) => if ParseInt(s).Some? then ParseInt(s).value else 0
  }

  /** Index of the first competitor from `i` on whose team id is `teamId`. */
  function FindFrom(cs: seq<Competitor>, teamId: string, i: nat): (r: Option<nat>)
    requires i <= |cs|
    ensures r.Some? ==> i <= r.value < |cs| && Matches(cs[r.value], teamId)
    ensures r.Some? ==> forall k | i <= k < r.value :: !Matches(cs[k], teamId)
    ensures r.None? ==> forall k | i <= k < |cs| :: !Matches(cs[k], teamId)
    decreases |cs| - i
  {
    if i == |cs| then None
    else if Matches(cs[i], teamId) then Some(i)
    else FindFrom(cs, teamId, i + 1)
  }

  /** The first competitor whose team id is `teamId` (the `enumerate` loop with `break`). */
  function FindTeam(cs: seq<Competitor>, teamId: string): (r: Option<nat>)
    ensures r.Some? ==> r.value < |cs| && Matches(cs[r.value], teamId)
    ensures r.Some? ==> forall k | 0 <= k < r.value :: !Matches(cs[k], teamId)
    ensures r.None? <==> forall k | 0 <= k < |cs| :: !Matches(cs[k], teamId)
  {
    FindFrom(cs, teamId, 0)
  }

  /** Python's `xs[i]` position for an index that may be negative. */
  function PyIndex(len: nat, i: int): (k: nat)
    requires -(len as int) <= i < len
    ensures k < len
    ensures i >= 0 ==> k == i
    ensures i < 0 ==> k + (-i) == len
  {
    if i < 0 then len + i else i
  }
}
