/** The NHL scoreboard client of `app/services/espn_nhl.py`: its own, never
    failing, date normaliser, its own lite row (first "home", first "away",
    exact tags, positional fallbacks) and the filter that keeps rows naming
    both teams.  The clock read for a missing date is the `today` parameter
    (the date at UTC-5). */
module EspnNhl {
  import opened Common
  import opened Calendar
  import opened Scoreboard
  import opened EspnGames

  // ---------------------------------------------------------------------
  // `_yyyymmdd`
  // ---------------------------------------------------------------------

  /** `re.sub(r"\D", "", s)`: the digits of the text, in order. */
  function DigitsIn(s: string): (r: string)
    ensures |r| <= |s|
    ensures forall i | 0 <= i < |r| :: IsDigit(r[i])
  {
    if s == [] then [] else (if IsDigit(s[0]) then [s[0]] else []) + DigitsIn(s[1..])
  }

  lemma {:induction false} DigitsInAppend(a: string, b: string)
    ensures DigitsIn(a + b) == DigitsIn(a) + DigitsIn(b)
  {
    if a != [] {
      assert (a + b)[0] == a[0];
      assert (a + b)[1..] == a[1..] + b;
      DigitsInAppend(a[1..], b);
    } else {
      assert a + b == b;
    }
  }

  /** Text made of digits only keeps all of them. */
  lemma {:induction false} DigitsInDigits(s: string)
    requires forall i | 0 <= i < |s| :: IsDigit(s[i])
    ensures DigitsIn(s) == s
  {
    if s != [] {
      DigitsInDigits(s[1..]);
    }
  }

  /** Text without digits keeps none. */
  lemma {:induction false} DigitsInNone(s: string)
    requires forall i | 0 <= i < |s| :: !IsDigit(s[i])
    ensures DigitsIn(s) == []
  {
    if s != [] {
      DigitsInNone(s[1..]);
    }
  }

  /** Python's `s[:10]`. */
  function Head10(s: string): (r: string)
    ensures r <= s && |r| == if |s| <= 10 then |s| else 10
  {
    if |s| <= 10 then s else s[..10]
  }

  /** `_yyyymmdd` with the clock read as `today`: no date is today; text whose
      digits number exactly eight is those digits; otherwise a first ten
      characters that `fromisoformat` reads give that date; anything else is
      today again.  It never raises. */
  function NhlYyyymmdd(date: Option<string>, today: Date): (r: string)
    requires ValidDate(today)
    ensures |r| == 8 && AllDigits(r)
  {
    if date.None? || date.value == "" then Yyyymmdd(today)
    else
      var s := Strip(date.value);
      var digits := DigitsIn(s);
      if |digits| == 8 then digits
      else
        var dt := ParseIso(Head10(s));
        if dt.Some? then Yyyymmdd(dt.value) else Yyyymmdd(today)
  }

  /** No date is today's date, formatted so that it parses back. */
  lemma NhlMissing(date: Option<string>, today: Date)
    requires ValidDate(today) && (date.None? || date.value == "")
    ensures ParseCompact(NhlYyyymmdd(date, today)) == Some(today)
  {
    ParseCompactOfFormat(today);
  }

  /** Eight digits split up by any separators without digits come back as
      the eight digits, whether or not they name a calendar day. */
  lemma NhlSeparated(c: string, sep1: string, sep2: string, today: Date)
    requires ValidDate(today) && |c| == 8 && AllDigits(c)
    requires forall i | 0 <= i < |sep1| :: !IsDigit(sep1[i])
    requires forall i | 0 <= i < |sep2| :: !IsDigit(sep2[i])
    ensures NhlYyyymmdd(Some(c[..4] + sep1 + c[4..6] + sep2 + c[6..]), today) == c
  {
    var s := c[..4] + sep1 + c[4..6] + sep2 + c[6..];
    assert s[0] == c[0] && s[|s| - 1] == c[7];
    StripOfStripped(s);
    DigitsInAppend(c[..4] + sep1 + c[4..6] + sep2, c[6..]);
    DigitsInAppend(c[..4] + sep1 + c[4..6], sep2);
    DigitsInAppend(c[..4] + sep1, c[4..6]);
    DigitsInAppend(c[..4], sep1);
    DigitsInDigits(c[..4]);
    DigitsInDigits(c[4..6]);
    DigitsInDigits(c[6..]);
    DigitsInNone(sep1);
    DigitsInNone(sep2);
    assert c[..4] + c[4..6] + c[6..] == c;
  }

  /** `fromisoformat` reads back a date written YYYY-MM-DD. */
  lemma IsoOfDashed(d: Date)
    requires ValidDate(d)
    ensures ParseIso(Dashed(d)) == Some(d)
  {
    var s, c := Dashed(d), Yyyymmdd(d);
    assert s[0] == c[0] && s[1] == c[1] && s[2] == c[2] && s[3] == c[3];
    assert s[5] == c[4] && s[6] == c[5] && s[8] == c[6] && s[9] == c[7];
    assert YearField(s) == d.year;
  }

  /** A timestamp that starts with a date and carries more digits after it
      (a time of day, an offset) is that date. */
  lemma NhlTimestamp(d: Date, t: string, today: Date)
    requires ValidDate(d) && ValidDate(today)
    requires DigitsIn(t) != [] && !IsSpace(t[|t| - 1])
    ensures NhlYyyymmdd(Some(Dashed(d) + t), today) == Yyyymmdd(d)
  {
    var p := Dashed(d);
    DigitsInDashed(d);
    IsoOfDashed(d);
    PrefixAndMore(p, t);
    NhlViaIso(p + t, today);
  }

  /** The `fromisoformat` branch, reached when the digits do not number eight. */
  lemma NhlViaIso(date: string, today: Date)
    requires ValidDate(today) && date != ""
    requires |DigitsIn(Strip(date))| != 8 && ParseIso(Head10(Strip(date))).Some?
    ensures NhlYyyymmdd(Some(date), today) == Yyyymmdd(ParseIso(Head10(Strip(date))).value)
  {
  }

  /** Ten characters with eight digits, then more digits. */
  lemma PrefixAndMore(p: string, t: string)
    requires |p| == 10 && |DigitsIn(p)| == 8 && ParseIso(p).Some?
    requires DigitsIn(t) != [] && !IsSpace(t[|t| - 1])
    ensures Strip(p + t) == p + t && |DigitsIn(p + t)| > 8 && Head10(p + t) == p
  {
    var s := p + t;
    assert IsDigit(p[0]);
    assert s[0] == p[0] && s[|s| - 1] == t[|t| - 1];
    StripOfStripped(s);
    DigitsInAppend(p, t);
    assert s[..10] == p;
  }

  /** The digits of YYYY-MM-DD are YYYYMMDD. */
  lemma DigitsInDashed(d: Date)
    requires ValidDate(d)
    ensures DigitsIn(Dashed(d)) == Yyyymmdd(d)
  {
    var c := Yyyymmdd(d);
    assert Dashed(d) == c[..4] + "-" + c[4..6] + "-" + c[6..];
    DigitsInAppend(c[..4] + "-" + c[4..6] + "-", c[6..]);
    DigitsInAppend(c[..4] + "-" + c[4..6], "-");
    DigitsInAppend(c[..4] + "-", c[4..6]);
    DigitsInAppend(c[..4], "-");
    DigitsInDigits(c[..4]);
    DigitsInDigits(c[4..6]);
    DigitsInDigits(c[6..]);
    assert c[..4] + c[4..6] + c[6..] == c;
  }

  /** Text without a single digit is today. */
  lemma NhlNoDigits(date: string, today: Date)
    requires ValidDate(today) && date != "" && DigitsIn(Strip(date)) == []
    ensures NhlYyyymmdd(Some(date), today) == Yyyymmdd(today)
  {
    IsoHasDigits(Strip(date));
  }

  /** Ten characters that `fromisoformat` reads start with a digit. */
  lemma IsoHasDigits(s: string)
    ensures ParseIso(Head10(s)).Some? ==> DigitsIn(s) != []
  {
    var h := Head10(s);
    if ParseIso(h).Some? {
      assert s == h + s[|h|..];
      DigitsInAppend(h, s[|h|..]);
      assert DigitsIn(h)[0] == h[0];
    }
  }

  /** Where the CBB and NFL coercion accepts eight digits or a dashed date,
      the NHL normaliser gives the same answer. */
  lemma NhlAgreesWithCoerce(date: string, d: Date, today: Date)
    requires ValidDate(d) && ValidDate(today)
    ensures |Strip(date)| == 8 && AllDigits(Strip(date)) ==>
      Ok(NhlYyyymmdd(Some(date), today)) == CoerceYyyymmdd(Some(date), today)
    ensures Ok(NhlYyyymmdd(Some(Dashed(d)), today)) == CoerceYyyymmdd(Some(Dashed(d)), today)
  {
    if |Strip(date)| == 8 && AllDigits(Strip(date)) {
      DigitsInDigits(Strip(date));
    }
    var s := Dashed(d);
    var c := Yyyymmdd(d);
    assert s[0] == c[0] && s[9] == c[7];
    StripOfStripped(s);
    DigitsInDashed(d);
    CoerceDashed(d, today);
  }

  /** A date of the first nine days of a month written YYYY-MM- D, the day
      padded with a space as `%d` also reads it. */
  function SpacePadded(d: Date): (s: string)
    requires ValidDate(d) && d.day < 10
    ensures DashShape(s) && s[8] == ' '
    ensures IsDigit(s[0]) && IsDigit(s[9])
  {
    var c := Yyyymmdd(d);
    c[..4] + "-" + c[4..6] + "- " + c[7..]
  }

  /** A space-padded day is a date to `strptime` but not to `fromisoformat`:
      the CBB and NFL coercion reads it as its day, the NHL normaliser falls
      back to today. */
  lemma NhlSpacePadded(d: Date, today: Date)
    requires ValidDate(d) && d.day < 10 && ValidDate(today)
    ensures CoerceYyyymmdd(Some(SpacePadded(d)), today) == Ok(Yyyymmdd(d))
    ensures NhlYyyymmdd(Some(SpacePadded(d)), today) == Yyyymmdd(today)
  {
    var s := SpacePadded(d);
    StripOfStripped(s);
    SpacePaddedParses(d);
    SpacePaddedDigits(d);
    assert ParseIso(Head10(s)).None?;
  }

  /** `strptime("%Y-%m-%d")` reads the space-padded form as the date. */
  lemma SpacePaddedParses(d: Date)
    requires ValidDate(d) && d.day < 10
    ensures ParseDashed(SpacePadded(d)) == Some(d)
  {
    var s, c := SpacePadded(d), Yyyymmdd(d);
    SpacePaddedChars(d);
    ParseCompactOfFormat(d);
    assert YearField(s) == YearField(c);
    assert DayField(s[8], s[9]) == DayField(c[6], c[7]);
  }

  /** The space-padded form holds the compact form's characters, with the
      day's leading zero turned into a space. */
  lemma SpacePaddedChars(d: Date)
    requires ValidDate(d) && d.day < 10
    ensures var s, c := SpacePadded(d), Yyyymmdd(d);
      && s[0] == c[0] && s[1] == c[1] && s[2] == c[2] && s[3] == c[3]
      && s[5] == c[4] && s[6] == c[5] && s[9] == c[7] && c[6] == '0'
  {
    var c := Yyyymmdd(d);
    assert c[6..] == Digits2(d.day);
  }

  /** The space-padded form holds seven digits. */
  lemma SpacePaddedDigits(d: Date)
    requires ValidDate(d) && d.day < 10
    ensures |DigitsIn(SpacePadded(d))| == 7
  {
    var c := Yyyymmdd(d);
    var s := SpacePadded(d);
    assert s == c[..4] + "-" + c[4..6] + "- " + c[7..];
    DigitsInAppend(c[..4] + "-" + c[4..6] + "- ", c[7..]);
    DigitsInAppend(c[..4] + "-" + c[4..6], "- ");
    DigitsInAppend(c[..4] + "-", c[4..6]);
    DigitsInAppend(c[..4], "-");
    DigitsInDigits(c[..4]);
    DigitsInDigits(c[4..6]);
    DigitsInDigits(c[7..]);
    DigitsInNone("- ");
  }

  /** A normalised date normalises to itself. */
  lemma NhlIdempotent(date: Option<string>, today: Date)
    requires ValidDate(today)
    ensures var r := NhlYyyymmdd(date, today);
      NhlYyyymmdd(Some(r), today) == r
  {
    var r := NhlYyyymmdd(date, today);
    assert !IsSpace(r[0]) && !IsSpace(r[7]);
    StripOfStripped(r);
    DigitsInDigits(r);
  }

  // ---------------------------------------------------------------------
  // `_extract_game_lite`
  // ---------------------------------------------------------------------

  /** The row `_extract_game_lite` returns; every field may be missing. */
  datatype NhlLite = NhlLite(gameId: Option<string>, homeTeam: Option<string>, awayTeam: Option<string>,
                             status: Option<string>, startTime: Option<string>)

  /** The first competitor whose `homeAway` is exactly `tag` (the `next(...)` generator). */
  function FirstTagged(cs: seq<Competitor>, tag: string): (r: Option<nat>)
    ensures r.Some? ==> r.value < |cs| && cs[r.value].homeAway == Some(tag)
    ensures r.Some? ==> forall k | 0 <= k < r.value :: cs[k].homeAway != Some(tag)
    ensures r.None? ==> forall k | 0 <= k < |cs| :: cs[k].homeAway != Some(tag)
  {
    if cs == [] then None
    else if cs[0].homeAway == Some(tag) then Some(0)
    else
      var r := FirstTagged(cs[1..], tag);
      if r.Some? then Some(r.value + 1) else None
  }

  /** The competitor `next(...)` yields for `tag`, else the one at `fallback`. */
  function TaggedOr(cs: seq<Competitor>, tag: string, fallback: nat): (c: Competitor)
    requires fallback < |cs|
  {
    var k := FirstTagged(cs, tag);
    if k.Some? then cs[k.value] else cs[fallback]
  }

  /** `_extract_game_lite`: `None` with fewer than two competitors; else home
      and away from the first exact tag, falling back to the first and the
      last competitor. */
  function NhlExtract(ev: Event): (r: Option<NhlLite>)
    ensures r.None? <==> |Competitors(ev)| < 2
    ensures r.Some? ==> r.value.gameId == ev.id && r.value.startTime == FirstCompetition(ev).date
    ensures r.Some? ==> r.value.status == FirstCompetition(ev).status.description
  {
    var comp := FirstCompetition(ev);
    var cs := comp.competitors;
    if |cs| < 2 then None
    else
      var home := TaggedOr(cs, "home", 0);
      var away := TaggedOr(cs, "away", |cs| - 1);
      Some(NhlLite(ev.id, home.team.displayName, away.team.displayName, comp.status.description, comp.date))
  }

  /** Home is named by the first competitor tagged exactly "home" and by the
      first competitor when none is; away by the first tagged exactly "away"
      and by the last when none is. */
  lemma NhlSides(ev: Event)
    requires |Competitors(ev)| >= 2
    ensures var cs, l := Competitors(ev), NhlExtract(ev).value;
      && (forall i | 0 <= i < |cs| && cs[i].homeAway == Some("home") && (forall k | 0 <= k < i :: cs[k].homeAway != Some("home")) ::
            l.homeTeam == cs[i].team.displayName)
      && ((forall k | 0 <= k < |cs| :: cs[k].homeAway != Some("home")) ==> l.homeTeam == cs[0].team.displayName)
      && (forall i | 0 <= i < |cs| && cs[i].homeAway == Some("away") && (forall k | 0 <= k < i :: cs[k].homeAway != Some("away")) ::
            l.awayTeam == cs[i].team.displayName)
      && ((forall k | 0 <= k < |cs| :: cs[k].homeAway != Some("away")) ==> l.awayTeam == cs[|cs| - 1].team.displayName)
  {
    var cs, l := Competitors(ev), NhlExtract(ev).value;
    assert l.homeTeam == TaggedOr(cs, "home", 0).team.displayName;
    assert l.awayTeam == TaggedOr(cs, "away", |cs| - 1).team.displayName;
    TaggedOrMeaning(cs, "home", 0);
    TaggedOrMeaning(cs, "away", |cs| - 1);
  }

  /** The competitor `TaggedOr` picks: the first one tagged, else the fallback. */
  lemma TaggedOrMeaning(cs: seq<Competitor>, tag: string, fallback: nat)
    requires fallback < |cs|
    ensures forall i | 0 <= i < |cs| && cs[i].homeAway == Some(tag) && (forall k | 0 <= k < i :: cs[k].homeAway != Some(tag)) ::
              TaggedOr(cs, tag, fallback) == cs[i]
    ensures (forall k | 0 <= k < |cs| :: cs[k].homeAway != Some(tag)) ==> TaggedOr(cs, tag, fallback) == cs[fallback]
  {
    forall i | 0 <= i < |cs| && cs[i].homeAway == Some(tag) && (forall k | 0 <= k < i :: cs[k].homeAway != Some(tag))
      ensures FirstTagged(cs, tag) == Some(i)
    {
      FirstIsUnique(cs, tag, i);
    }
  }

  /** The tagged competitor with none before it is the one `FirstTagged` finds. */
  lemma FirstIsUnique(cs: seq<Competitor>, tag: string, i: nat)
    requires i < |cs| && cs[i].homeAway == Some(tag)
    requires forall k | 0 <= k < i :: cs[k].homeAway != Some(tag)
    ensures FirstTagged(cs, tag) == Some(i)
  {
    var r := FirstTagged(cs, tag);
    assert r.Some?;
  }

  /** The tags are compared as they are: "Home" is not "home".  With only the
      last of two competitors tagged, and tagged "home", that competitor names
      both sides. */
  lemma NhlOneTagBothSides(ev: Event, a: Competitor, b: Competitor)
    requires Competitors(ev) == [a, b]
    requires a.homeAway != Some("home") && a.homeAway != Some("away")
    requires b.homeAway == Some("home")
    ensures NhlExtract(ev).value.homeTeam == b.team.displayName
    ensures NhlExtract(ev).value.awayTeam == b.team.displayName
  {
    var cs := Competitors(ev);
    assert FirstTagged(cs, "home") == Some(1) by {
      assert cs[1..] == [b];
    }
    assert FirstTagged(cs, "away") == None by {
      assert cs[1..] == [b];
    }
  }

  // ---------------------------------------------------------------------
  // `get_games_for_date`
  // ---------------------------------------------------------------------

  /** `lite and lite.get("homeTeam") and lite.get("awayTeam")`. */
  predicate Shown(l: Option<NhlLite>)
  {
    l.Some? && Truthy(l.value.homeTeam) && Truthy(l.value.awayTeam)
  }

  /** The rows of the events the loop keeps, in event order. */
  function Kept(evs: seq<Event>): (rows: seq<NhlLite>)
    ensures |rows| <= |evs|
  {
    if evs == [] then []
    else
      var last := evs[|evs| - 1];
      Kept(evs[..|evs| - 1]) + (if Shown(NhlExtract(last)) then [NhlExtract(last).value] else [])
  }

  /** The events of a day in one request: `dates` is the normalised date.  A
      failed request raises; events that are present but not a list make the
      loop raise on its first item. */
  function NhlGames(date: Option<string>, today: Date, net: map<string, Reply>): (r: Outcome<seq<NhlLite>>)
    requires ValidDate(today)
  {
    var reply := Fetch(net, NhlYyyymmdd(date, today));
    if reply.Failed? then Raise(RequestError)
    else if reply.events.NotAList? then Raise(TypeError)
    else Ok(Kept(ListOrEmpty(reply.events)))
  }

  /** `get_games_for_date`: one request, then the events filtered in order. */
  method GetGamesForDate(date: Option<string>, today: Date, net: map<string, Reply>) returns (r: Outcome<seq<NhlLite>>)
    requires ValidDate(today)
    ensures r == NhlGames(date, today, net)
  {
    var d := NhlYyyymmdd(date, today);
    var reply := Fetch(net, d);
    if reply.Failed? {
      return Raise(RequestError);
    }
    if reply.events.NotAList? {
      return Raise(TypeError);
    }
    var events := ListOrEmpty(reply.events);
    var out: seq<NhlLite> := [];
    for i := 0 to |events|
      invariant out == Kept(events[..i])
    {
      assert events[..i + 1][..i] == events[..i];
      var lite := NhlExtract(events[i]);
      if lite.Some? && Truthy(lite.value.homeTeam) && Truthy(lite.value.awayTeam) {
        out := out + [lite.value];
      }
    }
    assert events[..|events|] == events;
    r := Ok(out);
  }

  /** Filtering a concatenation filters each part. */
  lemma {:induction false} KeptAppend(a: seq<Event>, b: seq<Event>)
    ensures Kept(a + b) == Kept(a) + Kept(b)
    decreases |b|
  {
    if b == [] {
      assert a + b == a;
    } else {
      var ab := a + b;
      assert ab[..|ab| - 1] == a + b[..|b| - 1];
      KeptAppend(a, b[..|b| - 1]);
    }
  }

  /** Every kept row is the row of an event and names both teams. */
  lemma {:induction false} KeptSound(evs: seq<Event>)
    ensures forall r | r in Kept(evs) :: Truthy(r.homeTeam) && Truthy(r.awayTeam)
    ensures forall r | r in Kept(evs) :: exists i | 0 <= i < |evs| :: NhlExtract(evs[i]) == Some(r)
  {
    if evs != [] {
      var init := evs[..|evs| - 1];
      KeptSound(init);
      forall r | r in Kept(evs)
        ensures exists i | 0 <= i < |evs| :: NhlExtract(evs[i]) == Some(r)
      {
        if r in Kept(init) {
          var i :| 0 <= i < |init| && NhlExtract(init[i]) == Some(r);
          assert evs[i] == init[i];
        } else {
          assert NhlExtract(evs[|evs| - 1]) == Some(r);
        }
      }
    }
  }

  /** Every event whose row names both teams is kept. */
  lemma {:induction false} KeptComplete(evs: seq<Event>)
    ensures forall i | 0 <= i < |evs| && Shown(NhlExtract(evs[i])) :: NhlExtract(evs[i]).value in Kept(evs)
  {
    if evs != [] {
      var init := evs[..|evs| - 1];
      KeptComplete(init);
      forall i | 0 <= i < |evs| && Shown(NhlExtract(evs[i]))
        ensures NhlExtract(evs[i]).value in Kept(evs)
      {
        if i < |init| {
          assert evs[i] == init[i];
        }
      }
    }
  }

  /** The outcome of a lookup: a failed request raises, missing events are no
      games, and otherwise the games are the kept rows. */
  lemma NhlGamesMeaning(date: Option<string>, today: Date, net: map<string, Reply>)
    requires ValidDate(today)
    ensures var d := NhlYyyymmdd(date, today);
      && (NhlGames(date, today, net) == Raise(RequestError) <==> d !in net || net[d].Failed?)
      && (d in net && net[d] == Body(NoEvents) ==> NhlGames(date, today, net) == Ok([]))
      && (d in net && net[d] == Body(NotAList) ==> NhlGames(date, today, net) == Raise(TypeError))
      && (d in net && net[d].Body? && net[d].events.EventList? ==>
            NhlGames(date, today, net) == Ok(Kept(net[d].events.events)))
  {
  }
}
