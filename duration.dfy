/** The time units of the alignment code and the parsing of its
    `new_period` argument (A5/run_part1.py:23-29). Times and durations are
    whole microseconds, the resolution of Python's `datetime`. */
module Duration {
  import opened Errors
  import opened PyInt

  const MicrosPerMinute: int := 60 * 1_000_000
  const MicrosPerHour: int := 60 * MicrosPerMinute
  const MicrosPerDay: int := 24 * MicrosPerHour

  /** `timedelta(minutes=5)`: how far before "now" the newest row lands. */
  const SafetyMargin: int := 5 * MicrosPerMinute

  /** `timedelta(days=2)`: the window used for an unrecognised suffix. */
  const DefaultPeriod: int := 2 * MicrosPerDay

  /** `timedelta.max.days`: a timedelta whose day count exceeds this in
      magnitude raises OverflowError. */
  const MaxTimedeltaDays: int := 999_999_999

  predicate EndsWith(s: string, c: char) {
    |s| > 0 && s[|s| - 1] == c
  }

  /** `timedelta(days=n)`. */
  function Days(n: int): (r: Result<int>)
    ensures r.Ok? <==> -MaxTimedeltaDays <= n <= MaxTimedeltaDays
    ensures r.Err? ==> r.error == OverflowError
  {
    if -MaxTimedeltaDays <= n <= MaxTimedeltaDays then Ok(n * MicrosPerDay) else Err(OverflowError)
  }

  /** `timedelta(hours=n)`; the day count it normalises to is `n // 24`. */
  function Hours(n: int): (r: Result<int>)
    ensures r.Ok? <==> -MaxTimedeltaDays <= n / 24 <= MaxTimedeltaDays
    ensures r.Err? ==> r.error == OverflowError
  {
    if -MaxTimedeltaDays <= n / 24 <= MaxTimedeltaDays then Ok(n * MicrosPerHour) else Err(OverflowError)
  }

  /** The window length that `adjust_data_timespan` derives from its
      `new_period` argument: a `d` suffix is a day count, an `h` suffix an
      hour count (the `d` test comes first), anything else two days. The
      text before a `d` or `h` goes through `int`, so a malformed count is
      an error and never falls back to the default. */
  function ParsePeriod(p: string): (r: Result<int>)
    ensures r.Err? ==> EndsWith(p, 'd') || EndsWith(p, 'h')
  {
    if EndsWith(p, 'd') then
      var n :- ParseInt(p[..|p| - 1]);
      Days(n)
    else if EndsWith(p, 'h') then
      var n :- ParseInt(p[..|p| - 1]);
      Hours(n)
    else
      Ok(DefaultPeriod)
  }

  /** `str(n) + "d"` is `n` days. */
  lemma DaySuffix(n: int)
    requires -MaxTimedeltaDays <= n <= MaxTimedeltaDays
    ensures ParsePeriod(FormatInt(n) + "d") == Ok(n * MicrosPerDay)
  {
    var p := FormatInt(n) + "d";
    assert p[..|p| - 1] == FormatInt(n);
    ParseFormatRoundTrip(n);
  }

  /** `str(n) + "h"` is `n` hours. */
  lemma HourSuffix(n: int)
    requires -MaxTimedeltaDays <= n / 24 <= MaxTimedeltaDays
    ensures ParsePeriod(FormatInt(n) + "h") == Ok(n * MicrosPerHour)
  {
    var p := FormatInt(n) + "h";
    assert p[..|p| - 1] == FormatInt(n);
    ParseFormatRoundTrip(n);
  }

  /** A day count beyond `timedelta`'s range raises OverflowError. */
  lemma DaySuffixOverflow(n: int)
    requires n > MaxTimedeltaDays || n < -MaxTimedeltaDays
    ensures ParsePeriod(FormatInt(n) + "d") == Err(OverflowError)
  {
    var p := FormatInt(n) + "d";
    assert p[..|p| - 1] == FormatInt(n);
    ParseFormatRoundTrip(n);
  }

  /** An hour count whose day count `n // 24` is beyond `timedelta`'s range
      raises OverflowError. */
  lemma HourSuffixOverflow(n: int)
    requires n / 24 > MaxTimedeltaDays || n / 24 < -MaxTimedeltaDays
    ensures ParsePeriod(FormatInt(n) + "h") == Err(OverflowError)
  {
    var p := FormatInt(n) + "h";
    assert p[..|p| - 1] == FormatInt(n);
    ParseFormatRoundTrip(n);
  }

  /** Every other suffix, the empty string included, gives two days. */
  lemma OtherSuffixIsDefault(p: string)
    requires !EndsWith(p, 'd') && !EndsWith(p, 'h')
    ensures ParsePeriod(p) == Ok(2 * MicrosPerDay)
  {
  }

  /** A `d` or `h` suffix after text that is not an integer raises
      ValueError; it does not fall back to two days. */
  lemma MalformedCountIsError(count: string, unit: char)
    requires unit == 'd' || unit == 'h'
    requires !IsIntLiteral(count)
    ensures ParsePeriod(count + [unit]).Err?
    ensures ParsePeriod(count + [unit]).error.ValueError?
  {
    var p := count + [unit];
    assert p[..|p| - 1] == count;
  }

  /** The value the transactions and events frames are aligned with. */
  lemma TwoDays()
    ensures ParsePeriod("2d") == Ok(2 * MicrosPerDay)
  {
    assert FormatInt(2) == "2";
    DaySuffix(2);
    assert FormatInt(2) + "d" == "2d";
  }

  lemma TwelveHours()
    ensures ParsePeriod("12h") == Ok(12 * MicrosPerHour)
  {
    assert FormatNat(1) == "1";
    assert FormatInt(12) == "12";
    HourSuffix(12);
    assert FormatInt(12) + "h" == "12h";
  }

  /** `"xd"` is an error, not the two-day default. */
  lemma NonNumericCount()
    ensures ParsePeriod("xd").Err?
  {
    assert StripTrailing(StripLeading("x")) == "x";
    MalformedCountIsError("x", 'd');
  }

  /** `"d"` is an error: `int("")` raises. */
  lemma EmptyCount()
    ensures ParsePeriod("d").Err?
  {
    assert Strip("") == "";
    MalformedCountIsError("", 'd');
  }

  /** `"2.5h"` is an error: `int` takes no fractional counts. */
  lemma FractionalCount()
    ensures ParsePeriod("2.5h").Err?
  {
    assert StripLeading("2.5") == "2.5";
    assert StripTrailing("2.5") == "2.5";
    assert Unsigned(Strip("2.5")) == "2.5";
    assert !IsDigit("2.5"[1]) && "2.5"[1] != '_';
    assert !IsIntLiteral("2.5");
    MalformedCountIsError("2.5", 'h');
  }
}
