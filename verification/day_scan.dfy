/** What the two "recent form" scanners share: the answers of the scoreboard
    service and the shape of their two nested loops.  Both scanners walk back
    day by day; on each day they look at the events in order and keep what their
    per-event test yields, stopping once `n` entries are held or the day budget
    is spent.  The loops are stated here over what each event yields (`ps`) and
    what each day keeps (`days`), whatever the entries are; each scanner
    instantiates them with its own per-event test. */
module DayScan {
  import opened Common
  import opened Scoreboard

  /** The outcome of one scoreboard request: its events (a missing `events` list
      reads as none), an HTTP status error, a body that is not JSON (whose
      decoding raises a ValueError), or any other failure (network, timeout). */
  datatype DayFetch = Got(events: seq<Event>) | HttpError | Undecodable | TransportError

  /** The service's answer for a day.  `net` lists the answers by day number; a
      day it does not list answers with an empty scoreboard.  A walk requests
      finitely many days, so every behaviour of the service is some such map. */
  function Answer(net: map<int, DayFetch>, day: int): (a: DayFetch)
    ensures day in net ==> a == net[day]
    ensures day !in net ==> a == Got([])
  {
    if day in net then net[day] else Got([])
  }

  /** The events of a day; a failed request counts as a day without events. */
  function DayEvents(net: map<int, DayFetch>, day: int): (evs: seq<Event>)
    ensures Answer(net, day).Got? ==> evs == Answer(net, day).events
    ensures !Answer(net, day).Got? ==> evs == []
  {
    if Answer(net, day).Got? then Answer(net, day).events else []
  }

  /** A count compared with `len(...) >= n`: a negative one acts like zero. */
  function Cap(n: int): (c: nat)
    ensures n >= 0 ==> c == n
    ensures n < 0 ==> c == 0
  {
    if n < 0 then 0 else n
  }

  /** The first `n` elements, or all of them when there are fewer. */
  function Take<T>(s: seq<T>, n: nat): (r: seq<T>)
    ensures |r| <= n && |r| <= |s|
    ensures |s| <= n ==> r == s
    ensures |s| >= n ==> |r| == n
  {
    if |s| <= n then s else s[..n]
  }

  /** What is taken is a prefix of the whole. */
  lemma TakePrefix<T>(s: seq<T>, n: nat)
    ensures Take(s, n) <= s
  {
  }

  /** Once a prefix already has `n` elements, what follows it is never taken. */
  lemma TakeOfPrefix<T>(a: seq<T>, b: seq<T>, n: nat)
    requires a <= b && |a| >= n
    ensures Take(b, n) == Take(a, n)
  {
    assert b[..n] == a[..n];
  }

  /** One more day of an outer loop: while fewer than `n` entries are held they are
      all that was kept so far, and the day's entries are appended after them. */
  lemma TakeStep<T>(s: seq<T>, t: seq<T>, n: nat, held0: seq<T>, held: seq<T>)
    requires held0 == Take(s, n) && |held0| < n
    requires held == Take(held0 + t, n)
    ensures held == Take(s + t, n)
  {
  }

  /** Where an inner loop stops (at the end of the day, or holding `n`), it holds the
      first `n` of what it started with plus everything the day keeps. */
  lemma TakeStop<T>(held0: seq<T>, done: seq<T>, rest: seq<T>, held: seq<T>, n: nat)
    requires held == held0 + done && |held| <= n
    requires rest != [] ==> |held| >= n
    ensures held == Take(held0 + (done + rest), n)
  {
    assert held0 + (done + rest) == held + rest;
    if rest != [] {
      TakeOfPrefix(held, held + rest, n);
    }
  }

  // ---------------------------------------------------------------------
  // One day: the loop over the events
  // ---------------------------------------------------------------------

  /** The values present among the first `j` positions of `ps`, in order: what one
      day keeps from its first `j` events when nothing bounds it. */
  function Somes<T>(ps: seq<Option<T>>, j: nat): (r: seq<T>)
    requires j <= |ps|
    ensures |r| <= j
  {
    if j == 0 then []
    else Somes(ps, j - 1) + (if ps[j - 1].Some? then [ps[j - 1].value] else [])
  }

  /** Looking further only appends. */
  lemma {:induction false} SomesPrefix<T>(ps: seq<Option<T>>, i: nat, j: nat)
    requires i <= j <= |ps|
    ensures Somes(ps, i) <= Somes(ps, j)
    decreases j
  {
    if i < j {
      SomesPrefix(ps, i, j - 1);
    }
  }

  /** Everything kept is the value of some position looked at. */
  lemma {:induction false} SomesSound<T>(ps: seq<Option<T>>, j: nat)
    requires j <= |ps|
    ensures forall x | x in Somes(ps, j) :: exists i | 0 <= i < j :: ps[i] == Some(x)
  {
    if j > 0 {
      SomesSound(ps, j - 1);
    }
  }

  /** No value looked at is dropped. */
  lemma {:induction false} SomesComplete<T>(ps: seq<Option<T>>, i: nat, j: nat)
    requires i < j <= |ps| && ps[i].Some?
    ensures ps[i].value in Somes(ps, j)
    decreases j
  {
    if i < j - 1 {
      SomesComplete(ps, i, j - 1);
    }
  }

  /** The loop over one day's events as a function: from position `j` on, holding
      `held`, append each present value while fewer than `n` entries are held. */
  function Fill<T>(ps: seq<Option<T>>, j: nat, held: seq<T>, n: nat): seq<T>
    requires j <= |ps|
    decreases |ps| - j
  {
    if j == |ps| || |held| >= n then held
    else Fill(ps, j + 1, if ps[j].Some? then held + [ps[j].value] else held, n)
  }

  /** Wherever the loop is, it ends holding the first `n` of what it started with
      followed by everything the day keeps. */
  lemma {:induction false} FillTakes<T>(ps: seq<Option<T>>, j: nat, held0: seq<T>, held: seq<T>, n: nat)
    requires j <= |ps|
    requires held == held0 + Somes(ps, j) && |held| <= n
    requires j > 0 ==> |held0| < n
    ensures Fill(ps, j, held, n) == Take(held0 + Somes(ps, |ps|), n)
    decreases |ps| - j
  {
    if j == |ps| {
    } else if |held| >= n {
      SomesPrefix(ps, j, |ps|);
      TakeOfPrefix(held, held0 + Somes(ps, |ps|), n);
    } else {
      var next := if ps[j].Some? then held + [ps[j].value] else held;
      FillTakes(ps, j + 1, held0, next, n);
    }
  }

  /** The day's loop, started holding `held0`, holds the first `n` of `held0`
      followed by everything the day keeps. */
  lemma FillFromStart<T>(ps: seq<Option<T>>, held0: seq<T>, n: nat)
    requires |held0| <= n
    ensures Fill(ps, 0, held0, n) == Take(held0 + Somes(ps, |ps|), n)
  {
    FillTakes(ps, 0, held0, held0, n);
  }

  // ---------------------------------------------------------------------
  // The walk over days
  // ---------------------------------------------------------------------

  /** What the first `k` days keep, one after the other. */
  function Joined<T>(days: seq<seq<T>>, k: nat): seq<T>
    requires k <= |days|
  {
    if k == 0 then [] else Joined(days, k - 1) + days[k - 1]
  }

  /** The walk only appends: fewer days keep a prefix of what more days keep. */
  lemma {:induction false} JoinedPrefix<T>(days: seq<seq<T>>, i: nat, j: nat)
    requires i <= j <= |days|
    ensures Joined(days, i) <= Joined(days, j)
    decreases j
  {
    if i < j {
      JoinedPrefix(days, i, j - 1);
    }
  }

  /** Everything walked over was kept on one of the days. */
  lemma {:induction false} JoinedSound<T>(days: seq<seq<T>>, k: nat)
    requires k <= |days|
    ensures forall x | x in Joined(days, k) :: exists i | 0 <= i < k :: x in days[i]
  {
    if k > 0 {
      JoinedSound(days, k - 1);
    }
  }

  /** Nothing any day keeps is lost. */
  lemma {:induction false} JoinedComplete<T>(days: seq<seq<T>>, i: nat, k: nat, x: T)
    requires i < k <= |days| && x in days[i]
    ensures x in Joined(days, k)
    decreases k
  {
    if i < k - 1 {
      JoinedComplete(days, i, k - 1, x);
    }
  }

  /** The loop over days as a function: from `walked` days done on, holding
      `held`, take the next day while fewer than `n` entries are held.  Yields what
      is held and the number of days taken. */
  function Walk<T>(days: seq<seq<T>>, n: nat, walked: nat, held: seq<T>): (r: (seq<T>, nat))
    requires walked <= |days|
    ensures walked <= r.1 <= |days|
    decreases |days| - walked
  {
    if walked == |days| || |held| >= n then (held, walked)
    else Walk(days, n, walked + 1, Take(held + days[walked], n))
  }

  /** Wherever the walk is, it ends holding the first `n` entries of all the days. */
  lemma {:induction false} WalkTakes<T>(days: seq<seq<T>>, n: nat, walked: nat, held: seq<T>)
    requires walked <= |days|
    requires held == Take(Joined(days, walked), n)
    ensures Walk(days, n, walked, held).0 == Take(Joined(days, |days|), n)
    decreases |days| - walked
  {
    if walked == |days| {
    } else if |held| >= n {
      JoinedPrefix(days, walked, |days|);
      TakeOfPrefix(Joined(days, walked), Joined(days, |days|), n);
    } else {
      var next := Take(held + days[walked], n);
      TakeStep(Joined(days, walked), days[walked], n, held, next);
      WalkTakes(days, n, walked + 1, next);
    }
  }

  /** Wherever the walk is, it stops within the days, and before the last day only
      once `n` entries are held. */
  lemma {:induction false} WalkStops<T>(days: seq<seq<T>>, n: nat, walked: nat, held: seq<T>)
    requires walked <= |days|
    requires held == Take(Joined(days, walked), n)
    ensures walked <= Walk(days, n, walked, held).1 <= |days|
    ensures var w := Walk(days, n, walked, held).1; w < |days| ==> |Joined(days, w)| >= n
    decreases |days| - walked
  {
    if walked < |days| && |held| < n {
      var next := Take(held + days[walked], n);
      TakeStep(Joined(days, walked), days[walked], n, held, next);
      WalkStops(days, n, walked + 1, next);
    }
  }

  /** Wherever the walk is, it takes a day only while fewer than `n` entries are held. */
  lemma {:induction false} WalkNeeded<T>(days: seq<seq<T>>, n: nat, walked: nat, held: seq<T>)
    requires walked <= |days|
    requires held == Take(Joined(days, walked), n)
    requires walked > 0 ==> |Joined(days, walked - 1)| < n
    ensures var w := Walk(days, n, walked, held).1; w > 0 ==> |Joined(days, w - 1)| < n
    decreases |days| - walked
  {
    if walked < |days| && |held| < n {
      var next := Take(held + days[walked], n);
      TakeStep(Joined(days, walked), days[walked], n, held, next);
      WalkNeeded(days, n, walked + 1, next);
    }
  }

  /** The walk from the first day with nothing held: it ends holding the first `n`
      entries of all the days; it took `w` days, each only while fewer than `n`
      entries were held, and stopped before the last day only once `n` were held. */
  lemma WalkFromStart<T>(days: seq<seq<T>>, n: nat)
    ensures Walk(days, n, 0, []).0 == Take(Joined(days, |days|), n)
    ensures var w := Walk(days, n, 0, []).1;
      && w <= |days|
      && (w > 0 ==> |Joined(days, w - 1)| < n)
      && (w < |days| ==> |Joined(days, w)| >= n)
  {
    WalkTakes(days, n, 0, []);
    WalkStops(days, n, 0, []);
    WalkNeeded(days, n, 0, []);
  }
  // ---------------------------------------------------------------------
  // A walk that a failed request ends
  // ---------------------------------------------------------------------

  /** The walk over days where the request for day `i` may fail (`fails[i]`) and
      a failure ends the walk on that day.  Yields what is held, the number of
      days requested, and whether the last request failed. */
  function WalkOrFail<T>(days: seq<seq<T>>, fails: seq<bool>, n: nat, walked: nat, held: seq<T>): (r: (seq<T>, nat, bool))
    requires |fails| == |days| && walked <= |days|
    ensures walked <= r.1 <= |days|
    decreases |days| - walked
  {
    if walked == |days| || |held| >= n then (held, walked, false)
    else if fails[walked] then (held, walked + 1, true)
    else WalkOrFail(days, fails, n, walked + 1, Take(held + days[walked], n))
  }

  /** The first position from `from` on, before `to`, that holds `true`. */
  function FirstTrue(bs: seq<bool>, from: nat, to: nat): (r: Option<nat>)
    requires to <= |bs|
    ensures r.Some? ==> from <= r.value < to && bs[r.value]
    ensures r.Some? ==> forall i | from <= i < r.value :: !bs[i]
    ensures r.None? ==> forall i | from <= i < to :: !bs[i]
    decreases (to as int) - from
  {
    if from >= to then None
    else if bs[from] then Some(from)
    else FirstTrue(bs, from + 1, to)
  }

  /** Where no request the plain walk makes fails, the walk that a failure ends
      is the plain walk. */
  lemma {:induction false} WalkOrFailNoFailure<T>(days: seq<seq<T>>, fails: seq<bool>, n: nat, walked: nat, held: seq<T>)
    requires |fails| == |days| && walked <= |days|
    requires forall i | walked <= i < Walk(days, n, walked, held).1 :: !fails[i]
    ensures var w := Walk(days, n, walked, held);
      WalkOrFail(days, fails, n, walked, held) == (w.0, w.1, false)
    decreases |days| - walked
  {
    if walked < |days| && |held| < n {
      WalkOrFailNoFailure(days, fails, n, walked + 1, Take(held + days[walked], n));
    }
  }

  /** The walk that a failure ends stops at the first failing request the plain
      walk makes, holding the first `n` entries of the days before it. */
  lemma {:induction false} WalkOrFailFailure<T>(days: seq<seq<T>>, fails: seq<bool>, n: nat, walked: nat, held: seq<T>,
                                                f: nat)
    requires |fails| == |days| && walked <= |days|
    requires walked <= f < Walk(days, n, walked, held).1
    requires fails[f] && forall i | walked <= i < f :: !fails[i]
    requires held == Take(Joined(days, walked), n)
    ensures WalkOrFail(days, fails, n, walked, held) == (Take(Joined(days, f), n), f + 1, true)
    decreases |days| - walked
  {
    if walked < f {
      var next := Take(held + days[walked], n);
      assert |held| < n && !fails[walked];
      assert Walk(days, n, walked, held) == Walk(days, n, walked + 1, next);
      TakeStep(Joined(days, walked), days[walked], n, held, next);
      WalkOrFailFailure(days, fails, n, walked + 1, next, f);
    }
  }

  /** The walk that a failure ends, from the first day with nothing held: without
      a failure among the days the plain walk requests, the plain walk's result;
      otherwise it stops at the first failing one, having requested it and every
      day before it, holding the first `n` entries of those before it. */
  lemma WalkOrFailFromStart<T>(days: seq<seq<T>>, fails: seq<bool>, n: nat)
    requires |fails| == |days|
    ensures var w := Walk(days, n, 0, []);
      var r := WalkOrFail(days, fails, n, 0, []);
      match FirstTrue(fails, 0, w.1)
      case None => r == (Take(Joined(days, |days|), n), w.1, false)
      case Some(f) => r == (Take(Joined(days, f), n), f + 1, true)
  {
    WalkTakes(days, n, 0, []);
    var w := Walk(days, n, 0, []);
    match FirstTrue(fails, 0, w.1)
    case None =>
      WalkOrFailNoFailure(days, fails, n, 0, []);
    case Some(f) =>
      WalkOrFailFailure(days, fails, n, 0, [], f);
  }
}
