/** `normalize_date_param` of `app/services/espn_common.py`: the value sent
    as ESPN's `dates` parameter.  The clock read for a missing date is the
    `today` parameter (the date in America/New_York). */
module EspnCommon {
  import opened Common
  import opened Calendar

  /** The dashed form the normaliser rewrites: ten characters with a dash,
      splitting on dashes into exactly three runs of digits. */
  predicate DashedDigits(s: string)
  {
    |s| == 10 && '-' in s &&
    var parts := Split(s, '-');
    |parts| == 3 && AllDigits(parts[0]) && AllDigits(parts[1]) && AllDigits(parts[2])
  }

  /** `normalize_date_param`. */
  function NormalizeDateParam(date: Option<string>, today: Date): (r: string)
    requires ValidDate(today)
  {
    if date.Some? && date.value != "" then
      var s := Strip(date.value);
      if |s| == 8 && AllDigits(s) then s
      else if DashedDigits(s) then Concat(Split(s, '-'))
      else s
    else Yyyymmdd(today)
  }

  /** A missing or empty date is today as YYYYMMDD. */
  lemma NormalizeMissing(date: Option<string>, today: Date)
    requires ValidDate(today) && (date.None? || date.value == "")
    ensures var r := NormalizeDateParam(date, today);
      |r| == 8 && AllDigits(r) && ParseCompact(r) == Some(today)
  {
    ParseCompactOfFormat(today);
  }

  /** A given date never consults the clock. */
  lemma NormalizeIgnoresClock(date: string, today1: Date, today2: Date)
    requires ValidDate(today1) && ValidDate(today2) && date != ""
    ensures NormalizeDateParam(Some(date), today1) == NormalizeDateParam(Some(date), today2)
  {
  }

  /** Eight digits, once stripped, are returned as they are. */
  lemma NormalizeCompact(date: string, today: Date)
    requires ValidDate(today)
    requires |Strip(date)| == 8 && AllDigits(Strip(date))
    ensures NormalizeDateParam(Some(date), today) == Strip(date)
  {
  }

  /** A stripped YYYY-MM-DD of digits comes back with its dashes removed:
      eight digits. */
  lemma NormalizeDashed(date: string, today: Date)
    requires ValidDate(today) && DashedDigits(Strip(date))
    ensures var r := NormalizeDateParam(Some(date), today);
      r == Without(Strip(date), '-') && |r| == 8 && AllDigits(r)
  {
    var s := Strip(date);
    var parts := Split(s, '-');
    ConcatSplit(s, '-');
    SplitConcatLength(s, '-');
    ConcatDigits(parts);
  }

  /** Anything else that is given is returned stripped and never rejected; in
      particular text that is all whitespace becomes "". */
  lemma NormalizeOther(date: string, today: Date)
    requires ValidDate(today) && date != ""
    requires !(|Strip(date)| == 8 && AllDigits(Strip(date))) && !DashedDigits(Strip(date))
    ensures NormalizeDateParam(Some(date), today) == Strip(date)
    ensures (forall k | 0 <= k < |date| :: IsSpace(date[k])) ==> NormalizeDateParam(Some(date), today) == ""
  {
    StripEmptyIffAllSpace(date);
  }

  /** A normalised given date that is not empty normalises to itself. */
  lemma NormalizeIdempotent(date: string, today: Date)
    requires ValidDate(today) && date != ""
    requires NormalizeDateParam(Some(date), today) != ""
    ensures var r := NormalizeDateParam(Some(date), today);
      NormalizeDateParam(Some(r), today) == r
  {
    var s := Strip(date);
    StripIdempotent(date);
    if !(|s| == 8 && AllDigits(s)) && DashedDigits(s) {
      NormalizeDashed(date, today);
      var r := NormalizeDateParam(Some(date), today);
      StripOfStripped(r);
    }
  }
}
