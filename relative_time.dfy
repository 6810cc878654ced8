/** `datetime_filter`, the template filter that shows a timestamp as the time
    elapsed since it ("3分钟前", "5小时前", ...) or, past a week, as a date. */
module RelativeTime {

  const Minute := 60
  const Hour := 3600
  const Day := 86400
  const Week := 604800

  /** A local calendar date, as `datetime.fromtimestamp(t)` gives it. */
  datatype Date = Date(year: nat, month: nat, day: nat)

  /** The five buckets of the filter. */
  datatype Elapsed =
    | JustNow
    | MinutesAgo(minutes: nat)
    | HoursAgo(hours: nat)
    | DaysAgo(days: nat)
    | OnDate

  /** The bucket an elapsed number of seconds falls in, with the whole number
      of units elapsed. Negative deltas (timestamps in the future) fall in the
      first bucket. */
  function Bucket(delta: int): (e: Elapsed)
    ensures e.JustNow? <==> delta < Minute
    ensures e.MinutesAgo? <==> Minute <= delta < Hour
    ensures e.HoursAgo? <==> Hour <= delta < Day
    ensures e.DaysAgo? <==> Day <= delta < Week
    ensures e.OnDate? <==> Week <= delta
    ensures e.MinutesAgo? ==> 1 <= e.minutes <= 59 && e.minutes * Minute <= delta < (e.minutes + 1) * Minute
    ensures e.HoursAgo? ==> 1 <= e.hours <= 23 && e.hours * Hour <= delta < (e.hours + 1) * Hour
    ensures e.DaysAgo? ==> 1 <= e.days <= 6 && e.days * Day <= delta < (e.days + 1) * Day
  {
    if delta < Minute then JustNow
    else if delta < Hour then MinutesAgo(delta / Minute)
    else if delta < Day then HoursAgo(delta / Hour)
    else if delta < Week then DaysAgo(delta / Day)
    else OnDate
  }

  /** The decimal digit for `d`. */
  function DigitChar(d: nat): (c: char)
    requires d < 10
  {
    ('0' as int + d) as char
  }

  predicate IsDigit(c: char)
  {
    '0' <= c <= '9'
  }

  /** `'%s' % n` for a non-negative int: its decimal digits, no leading zero. */
  function Decimal(n: nat): (s: string)
    ensures |s| >= 1 && forall i :: 0 <= i < |s| ==> IsDigit(s[i])
    ensures |s| > 1 ==> s[0] != '0'
  {
    if n < 10 then [DigitChar(n)]
    else Decimal(n / 10) + [DigitChar(n % 10)]
  }

  /** Reads a string of decimal digits back as a number. */
  function ParseDecimal(s: string): nat
    requires forall i :: 0 <= i < |s| ==> IsDigit(s[i])
  {
    if s == [] then 0
    else
      assert IsDigit(s[|s| - 1]);
      10 * ParseDecimal(s[..|s| - 1]) + (s[|s| - 1] as int - '0' as int)
  }

  /** Printing a count and reading it back gives the count. */
  lemma {:induction false} DecimalRoundTrip(n: nat)
    ensures ParseDecimal(Decimal(n)) == n
  {
    if n >= 10 {
      var s := Decimal(n);
      assert s[..|s| - 1] == Decimal(n / 10);
      DecimalRoundTrip(n / 10);
    }
  }

  /** Distinct counts print differently. */
  lemma DecimalInjective(n: nat, m: nat)
    requires Decimal(n) == Decimal(m)
    ensures n == m
  {
    DecimalRoundTrip(n);
    DecimalRoundTrip(m);
  }

  /** A count followed by a unit suffix can be read back: the count is the
      text before the suffix. */
  lemma CountReadBack(n: nat, suffix: string)
    ensures var text := Decimal(n) + suffix;
      |text| > |suffix| &&
      text[|text| - |suffix|..] == suffix &&
      (forall i :: 0 <= i < |text| - |suffix| ==> IsDigit(text[i])) &&
      ParseDecimal(text[..|text| - |suffix|]) == n
  {
    var text := Decimal(n) + suffix;
    assert text[..|text| - |suffix|] == Decimal(n);
    DecimalRoundTrip(n);
  }

  /** The filter at time `now` applied to timestamp `t`; `localDate` is the
      local calendar conversion of `datetime.fromtimestamp`. */
  function DatetimeFilter(now: int, t: int, localDate: int -> Date): (text: string)
    ensures |text| >= 2
    ensures text[|text| - 1] == '前' <==> now - t < Week
    ensures text[|text| - 1] == '日' <==> Week <= now - t
  {
    match Bucket(now - t)
    case JustNow => "1分钟前"
    case MinutesAgo(n) => Decimal(n) + "分钟前"
    case HoursAgo(n) => Decimal(n) + "小时前"
    case DaysAgo(n) => Decimal(n) + "天前"
    case OnDate =>
      var d := localDate(t);
      Decimal(d.year) + "年" + Decimal(d.month) + "月" + Decimal(d.day) + "日"
  }

  /** Under a minute, and for any timestamp in the future, the filter shows the
      same text as for one whole minute. */
  lemma JustNowReadsAsOneMinute(now: int, t: int, localDate: int -> Date)
    requires now - t < Minute
    ensures DatetimeFilter(now, t, localDate) == DatetimeFilter(now, now - Minute, localDate)
  {
    assert Bucket(Minute) == MinutesAgo(1);
  }

  /** Within the hour, the text is the number of whole minutes elapsed followed
      by "分钟前", and the number can be read back from the text. */
  lemma MinutesText(now: int, t: int, localDate: int -> Date)
    requires Minute <= now - t < Hour
    ensures var text := DatetimeFilter(now, t, localDate);
      |text| > 3 && text[|text| - 3..] == "分钟前" &&
      (forall i :: 0 <= i < |text| - 3 ==> IsDigit(text[i])) &&
      ParseDecimal(text[..|text| - 3]) == (now - t) / Minute
  {
    CountReadBack((now - t) / Minute, "分钟前");
  }

  /** Within the day, the text is the number of whole hours elapsed followed by
      "小时前". */
  lemma HoursText(now: int, t: int, localDate: int -> Date)
    requires Hour <= now - t < Day
    ensures var text := DatetimeFilter(now, t, localDate);
      |text| > 3 && text[|text| - 3..] == "小时前" &&
      (forall i :: 0 <= i < |text| - 3 ==> IsDigit(text[i])) &&
      ParseDecimal(text[..|text| - 3]) == (now - t) / Hour
  {
    CountReadBack((now - t) / Hour, "小时前");
  }

  /** Within the week, the text is the number of whole days elapsed followed by
      "天前". */
  lemma DaysText(now: int, t: int, localDate: int -> Date)
    requires Day <= now - t < Week
    ensures var text := DatetimeFilter(now, t, localDate);
      |text| > 2 && text[|text| - 2..] == "天前" &&
      (forall i :: 0 <= i < |text| - 2 ==> IsDigit(text[i])) &&
      ParseDecimal(text[..|text| - 2]) == (now - t) / Day
  {
    CountReadBack((now - t) / Day, "天前");
  }

  /** From a week on, the text depends only on the timestamp's local date: two
      timestamps on the same local date print the same, whatever the current time. */
  lemma DateTextDependsOnlyOnDate(now: int, t: int, now': int, t': int, localDate: int -> Date)
    requires Week <= now - t && Week <= now' - t' && localDate(t) == localDate(t')
    ensures DatetimeFilter(now, t, localDate) == DatetimeFilter(now', t', localDate)
  {
  }
}
