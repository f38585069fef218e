/** The NFL week calendar of `app/services/nfl_weeks.py`: Labor Day, the
    Thursday that opens week 1, the (season, week) a day falls in, and the
    Thursday..Monday window of a week.  Days are day numbers as
    `date.toordinal()` gives them; the clock read is the `today` parameter. */
module NflWeeks {
  import opened Common
  import opened Calendar

  /** Python's `date(year, 9, 1)` as a day number. */
  function SeptFirst(year: int): int
    requires MinYear <= year <= MaxYear
  {
    Ordinal(Date(year, 9, 1))
  }

  /** Day `k` of September is `k - 1` days after the first. */
  lemma SeptDay(year: int, k: int)
    requires MinYear <= year <= MaxYear && 1 <= k <= 30
    ensures ValidDate(Date(year, 9, k)) && Ordinal(Date(year, 9, k)) == SeptFirst(year) + k - 1
  {
  }

  /** `_labor_day`: the first Monday of September. */
  function LaborDay(year: int): (d: int)
    requires MinYear <= year <= MaxYear
    ensures SeptFirst(year) <= d < SeptFirst(year) + 7
    ensures Weekday(d) == 0
    ensures forall k | SeptFirst(year) <= k < d :: Weekday(k) != 0
  {
    var first := SeptFirst(year);
    NextMonday(first);
    first + (0 - Weekday(first)) % 7
  }

  /** Counting on from day `n`, the weekday goes up by one a day until it
      wraps past Sunday. */
  lemma WeekdayAhead(n: int, j: int)
    requires 0 <= j < 7
    ensures Weekday(n + j) == (Weekday(n) + j) % 7
  {
  }

  /** `(0 - weekday) % 7` days on is the first Monday on or after day `n`. */
  lemma NextMonday(n: int)
    ensures var d := n + (0 - Weekday(n)) % 7;
      n <= d < n + 7 && Weekday(d) == 0 && forall k | n <= k < d :: Weekday(k) != 0
  {
    var w := Weekday(n);
    var shift := (0 - w) % 7;
    assert shift == if w == 0 then 0 else 7 - w;
    WeekdayAhead(n, shift);
    forall k | n <= k < n + shift
      ensures Weekday(k) != 0
    {
      WeekdayAhead(n, k - n);
    }
  }

  /** Labor Day is a Monday on one of September 1..7 of its year. */
  lemma LaborDayDate(year: int)
    requires MinYear <= year <= MaxYear
    ensures var k := LaborDay(year) - SeptFirst(year) + 1;
      1 <= k <= 7 && ValidDate(Date(year, 9, k)) && Ordinal(Date(year, 9, k)) == LaborDay(year)
  {
    SeptDay(year, LaborDay(year) - SeptFirst(year) + 1);
  }

  /** `_week1_thursday`: the Thursday after Labor Day. */
  function Week1Thursday(year: int): (d: int)
    requires MinYear <= year <= MaxYear
    ensures d == LaborDay(year) + 3
    ensures Weekday(d) == 3
    ensures SeptFirst(year) + 3 <= d < SeptFirst(year) + 10
  {
    var ld := LaborDay(year);
    assert (3 - Weekday(ld)) % 7 == 3;
    WeekdayAhead(ld, 3);
    ld + (3 - Weekday(ld)) % 7
  }

  /** The week-1 Thursday is on one of September 4..10 of its year. */
  lemma Week1ThursdayDate(year: int)
    requires MinYear <= year <= MaxYear
    ensures var k := Week1Thursday(year) - SeptFirst(year) + 1;
      4 <= k <= 10 && ValidDate(Date(year, 9, k)) && Ordinal(Date(year, 9, k)) == Week1Thursday(year)
  {
    SeptDay(year, Week1Thursday(year) - SeptFirst(year) + 1);
  }

  datatype SeasonWeek = SeasonWeek(season: int, week: int)

  /** Python's `max(1, min(week, 18))` as the two `if`s write it. */
  function ClampWeek(week: int): (w: int)
    ensures 1 <= w <= 18
    ensures 1 <= week <= 18 ==> w == week
    ensures week < 1 ==> w == 1
    ensures week > 18 ==> w == 18
  {
    if week < 1 then 1 else if week > 18 then 18 else week
  }

  /** The season part of `current_season_week`: the year, or the year before
      in January and February or before the year's week-1 Thursday.  `None` is
      the ValueError that `date(0, 9, 1)` raises when that would be year 0. */
  function SeasonOf(today: Date): (r: Option<int>)
    requires ValidDate(today)
    ensures r.Some? ==> MinYear <= r.value <= MaxYear
  {
    var season0 := if today.month >= 3 then today.year else today.year - 1;
    if season0 < MinYear then None
    else
      var season := if Ordinal(today) < Week1Thursday(season0) then season0 - 1 else season0;
      if season < MinYear then None else Some(season)
  }

  /** `current_season_week` with the clock read as `today`. */
  function CurrentSeasonWeek(today: Date): (r: Option<SeasonWeek>)
    requires ValidDate(today)
  {
    var season := SeasonOf(today);
    if season.None? then None
    else
      var t := Ordinal(today);
      var w1 := Week1Thursday(season.value);
      var wk := if t <= w1 + 4 then 1 else 1 + (t - w1) / 7;
      Some(SeasonWeek(season.value, ClampWeek(wk)))
  }

  /** January and February come before the week-1 Thursday of their own year. */
  lemma EarlyMonthsBeforeSeason(today: Date)
    requires ValidDate(today) && today.month < 3
    ensures Ordinal(today) < Week1Thursday(today.year)
  {
    Week1ThursdayDate(today.year);
    var k := Week1Thursday(today.year) - SeptFirst(today.year) + 1;
    OrdinalOrder(today, Date(today.year, 9, k));
  }

  /** The season is the latest year whose week-1 Thursday is on or before
      today; only a day of year 1 before that year's week-1 Thursday has none. */
  lemma SeasonOfMeaning(today: Date)
    requires ValidDate(today)
    ensures var r := SeasonOf(today);
      && (r.None? <==> today.year == MinYear && Ordinal(today) < Week1Thursday(MinYear))
      && (r.Some? ==> r.value == (if Ordinal(today) >= Week1Thursday(today.year) then today.year else today.year - 1))
      && (r.Some? ==> Week1Thursday(r.value) <= Ordinal(today))
  {
    if today.month < 3 {
      EarlyMonthsBeforeSeason(today);
    }
    if today.year > MinYear {
      LastSeasonStarted(today);
    }
  }

  /** Last year's week-1 Thursday is always behind us. */
  lemma LastSeasonStarted(today: Date)
    requires ValidDate(today) && today.year > MinYear
    ensures Week1Thursday(today.year - 1) <= Ordinal(today)
  {
    var prev := Date(today.year - 1, 12, 31);
    Week1ThursdayDate(today.year - 1);
    var k := Week1Thursday(today.year - 1) - SeptFirst(today.year - 1) + 1;
    OrdinalOrder(Date(today.year - 1, 9, k), prev);
    OrdinalOrder(prev, today);
  }

  /** The same for `current_season_week`. */
  lemma CurrentSeason(today: Date)
    requires ValidDate(today)
    ensures var r := CurrentSeasonWeek(today);
      && (r.None? <==> today.year == MinYear && Ordinal(today) < Week1Thursday(MinYear))
      && (r.Some? ==> r.value.season == (if Ordinal(today) >= Week1Thursday(today.year) then today.year else today.year - 1))
      && (r.Some? ==> Week1Thursday(r.value.season) <= Ordinal(today))
  {
    SeasonOfMeaning(today);
  }

  /** The week is between 1 and 18; from the season's week-1 Thursday on it is
      one more than the number of whole weeks since then, capped at 18, and the
      Thursday..Monday rule for week 1 agrees with that count. */
  lemma CurrentWeek(today: Date)
    requires ValidDate(today)
    ensures var r := CurrentSeasonWeek(today);
      r.Some? ==>
        && 1 <= r.value.week <= 18
        && r.value.week == ClampWeek(1 + (Ordinal(today) - Week1Thursday(r.value.season)) / 7)
  {
    CurrentSeason(today);
  }

  /** A week's window: its Thursday and, `date` arithmetic dropping the time of
      day, the Monday four days later at midnight. */
  datatype Window = Window(start: int, end: int)

  /** `week_window`.  `None` is the ValueError of `date(season, 9, 1)` for a
      season outside 1..9999, or the OverflowError of `date + timedelta` when
      the week would end after 9999-12-31. */
  function WeekWindow(season: int, week: int): (r: Option<Window>)
  {
    if season < MinYear || season > MaxYear then None
    else
      var wk := ClampWeek(week);
      var start := Week1Thursday(season) + (wk - 1) * 7;
      if start + 4 > MaxOrdinal then None
      else Some(Window(start, start + 4))
  }

  /** Every season before the last has a window for every week: even week 18
      ends in the January after it. */
  lemma WeekWindowDefined(season: int, week: int)
    requires MinYear <= season < MaxYear
    ensures WeekWindow(season, week).Some?
  {
    YearEnd(season);
    DaysBeforeMonthTable(season, 9);
    DaysBeforeMonthTable(season, 12);
    var jan := Date(season + 1, 1, 11);
    OrdinalRange(jan);
  }

  /** Every window opens on a Thursday of its season, `7 * (week - 1)` days
      after the week-1 Thursday with the week clamped to 1..18, and closes on
      the following Monday. */
  lemma WeekWindowShape(season: int, week: int)
    requires MinYear <= season <= MaxYear && WeekWindow(season, week).Some?
    ensures var r := WeekWindow(season, week).value;
      && r.start == Week1Thursday(season) + 7 * (ClampWeek(week) - 1)
      && Weekday(r.start) == 3
      && r.end == r.start + 4
      && Weekday(r.end) == 0
  {
    var k := ClampWeek(week) - 1;
    var w1 := Week1Thursday(season);
    assert (w1 + 7 * k + 6) % 7 == (w1 + 6) % 7 by {
      ShiftByWeeks(w1 + 6, k);
    }
    assert (w1 + 7 * k + 4 + 6) % 7 == (w1 + 4 + 6) % 7 by {
      ShiftByWeeks(w1 + 4 + 6, k);
    }
  }

  /** Whole weeks do not change the weekday. */
  lemma ShiftByWeeks(n: int, k: int)
    ensures (n + 7 * k) % 7 == n % 7
  {
  }

  /** The day `current_season_week` reports falls in the window of that week,
      unless the week was capped at 18 (or its window runs past 9999-12-31). */
  lemma TodayInItsWindow(today: Date)
    requires ValidDate(today)
    ensures var r := CurrentSeasonWeek(today);
      r.Some? && r.value.week < 18 && WeekWindow(r.value.season, r.value.week).Some? ==>
        var w := WeekWindow(r.value.season, r.value.week).value;
        w.start <= Ordinal(today) < w.start + 7
  {
    CurrentSeason(today);
    CurrentWeek(today);
  }
}
