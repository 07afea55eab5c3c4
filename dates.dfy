/** The date-argument check of the query methods: `datetime.strptime(s,
    '%Y-%m-%d')` must succeed. Python's `_strptime` matches `%Y` as exactly
    four digits, `%m` as `1[0-2]|0[1-9]|[1-9]` and `%d` as
    `3[01]|[12]\d|0[1-9]|[1-9]| [1-9]`, takes the first alternative that
    matches, refuses any text left over, and then refuses year 0 and a day
    past the end of the month. Zero padding is therefore optional. */
module Dates {
  import opened Values

  datatype Date = Date(year: int, month: int, day: int)

  predicate IsDigit(c: char) { '0' <= c <= '9' }

  function DigitValue(c: char): (n: int)
    requires IsDigit(c)
    ensures 0 <= n <= 9
  {
    c as int - '0' as int
  }

  function DigitChar(n: int): (c: char)
    requires 0 <= n <= 9
    ensures IsDigit(c) && DigitValue(c) == n
  {
    ('0' as int + n) as char
  }

  predicate IsLeapYear(y: int)
  {
    y % 4 == 0 && (y % 100 != 0 || y % 400 == 0)
  }

  function DaysInMonth(y: int, m: int): (n: int)
    requires 1 <= m <= 12
    ensures 28 <= n <= 31
  {
    if m == 2 then (if IsLeapYear(y) then 29 else 28)
    else if m == 4 || m == 6 || m == 9 || m == 11 then 30
    else 31
  }

  /** A calendar date the `datetime` type can hold. */
  predicate IsCalendarDate(d: Date)
  {
    1 <= d.year <= 9999 && 1 <= d.month <= 12 && 1 <= d.day <= DaysInMonth(d.year, d.month)
  }

  /** `%Y`: exactly four digits. */
  function ParseYear(t: string): Option<int>
  {
    if |t| == 4 && IsDigit(t[0]) && IsDigit(t[1]) && IsDigit(t[2]) && IsDigit(t[3])
    then Some(1000 * DigitValue(t[0]) + 100 * DigitValue(t[1]) + 10 * DigitValue(t[2]) + DigitValue(t[3]))
    else None
  }

  /** `%m` followed by the literal `-`: the month token is everything up to
      that dash, and must be `10`-`12`, `01`-`09` or a single `1`-`9`. */
  function ParseMonth(t: string): Option<int>
  {
    if |t| == 2 && t[0] == '1' && '0' <= t[1] <= '2' then Some(10 + DigitValue(t[1]))
    else if |t| == 2 && t[0] == '0' && '1' <= t[1] <= '9' then Some(DigitValue(t[1]))
    else if |t| == 1 && '1' <= t[0] <= '9' then Some(DigitValue(t[0]))
    else None
  }

  /** `%d` at the end of the format: the first alternative that matches must
      consume the whole rest of the string. */
  function ParseDay(t: string): Option<int>
  {
    if |t| == 2 && t[0] == '3' && '0' <= t[1] <= '1' then Some(30 + DigitValue(t[1]))
    else if |t| == 2 && '1' <= t[0] <= '2' && IsDigit(t[1]) then Some(10 * DigitValue(t[0]) + DigitValue(t[1]))
    else if |t| == 2 && t[0] == '0' && '1' <= t[1] <= '9' then Some(DigitValue(t[1]))
    else if |t| == 1 && '1' <= t[0] <= '9' then Some(DigitValue(t[0]))
    else if |t| == 2 && t[0] == ' ' && '1' <= t[1] <= '9' then Some(DigitValue(t[1]))
    else None
  }

  /** The date `strptime(s, '%Y-%m-%d')` returns, or None where it raises
      `ValueError`. */
  function ParseDate(s: string): (r: Option<Date>)
    ensures r.Some? ==> IsCalendarDate(r.value)
  {
    if |s| < 8 || s[4] != '-' then None
    else
      var monthLength := if s[6] == '-' then 1 else 2;
      if s[5 + monthLength] != '-' then None
      else
        match (ParseYear(s[..4]), ParseMonth(s[5..5 + monthLength]), ParseDay(s[6 + monthLength..]))
        case (Some(y), Some(m), Some(d)) =>
          if IsCalendarDate(Date(y, m, d)) then Some(Date(y, m, d)) else None
        case _ => None
  }

  predicate IsDateString(s: string)
  {
    ParseDate(s).Some?
  }

  /** The zero-padded ISO form `YYYY-MM-DD` of a calendar date. */
  function FormatDate(d: Date): (s: string)
    requires IsCalendarDate(d)
    ensures |s| == 10
  {
    [DigitChar(d.year / 10 / 10 / 10), DigitChar(d.year / 10 / 10 % 10), DigitChar(d.year / 10 % 10), DigitChar(d.year % 10),
     '-', DigitChar(d.month / 10), DigitChar(d.month % 10),
     '-', DigitChar(d.day / 10), DigitChar(d.day % 10)]
  }

  lemma YearDigitsParse(y: int)
    requires 0 <= y <= 9999
    ensures ParseYear([DigitChar(y / 10 / 10 / 10), DigitChar(y / 10 / 10 % 10), DigitChar(y / 10 % 10), DigitChar(y % 10)]) == Some(y)
  {
    var y1 := y / 10;
    var y2 := y1 / 10;
    assert y == 10 * y1 + y % 10 && y1 == 10 * y2 + y1 % 10 && y2 == 10 * (y2 / 10) + y2 % 10;
  }

  lemma TwoDigitsParse(n: int)
    requires 1 <= n <= 31
    ensures n <= 12 ==> ParseMonth([DigitChar(n / 10), DigitChar(n % 10)]) == Some(n)
    ensures ParseDay([DigitChar(n / 10), DigitChar(n % 10)]) == Some(n)
  {
  }

  /** Every calendar date written in ISO form is accepted, and parses back
      to itself. */
  lemma FormatParses(d: Date)
    requires IsCalendarDate(d)
    ensures ParseDate(FormatDate(d)) == Some(d)
  {
    var s := FormatDate(d);
    YearDigitsParse(d.year);
    assert s[..4] == [s[0], s[1], s[2], s[3]];
    TwoDigitsParse(d.month);
    assert s[5..7] == [s[5], s[6]];
    TwoDigitsParse(d.day);
    assert s[8..] == [s[8], s[9]];
  }

  /** The date check of `get_FX_date` and `get_FX_date_range`: a non-string
      raises `TypeError`, a string `strptime` refuses raises `ValueError`,
      both naming the parameter. */
  function CheckDate(param: string, v: Value): (r: Result<string>)
    ensures r.Success? <==> v.Str? && IsDateString(v.s)
    ensures r.Success? ==> r.value == v.s
    ensures r.Failure? && !v.Str? ==> r.error == TypeError(param)
    ensures r.Failure? && v.Str? ==> r.error == ValueError(param)
  {
    if !v.Str? then Failure(TypeError(param))
    else if !IsDateString(v.s) then Failure(ValueError(param))
    else Success(v.s)
  }

  /** The well-formed dates the tests of `api.py` pass to `get_FX_date`
      and `get_FX_date_range` are accepted. */
  lemma TestedDatesAccepted()
    ensures IsDateString("2019-07-23") && IsDateString("2020-03-13") && IsDateString("2020-07-01")
    ensures IsDateString("2019-07-29") && IsDateString("2020-03-14") && IsDateString("2020-03-17")
    ensures IsDateString("2020-07-06")
  {
    assert "2019-07-23" == FormatDate(Date(2019, 7, 23));
    FormatParses(Date(2019, 7, 23));
    assert "2020-03-13" == FormatDate(Date(2020, 3, 13));
    FormatParses(Date(2020, 3, 13));
    assert "2020-07-01" == FormatDate(Date(2020, 7, 1));
    FormatParses(Date(2020, 7, 1));
    assert "2019-07-29" == FormatDate(Date(2019, 7, 29));
    FormatParses(Date(2019, 7, 29));
    assert "2020-03-14" == FormatDate(Date(2020, 3, 14));
    FormatParses(Date(2020, 3, 14));
    assert "2020-03-17" == FormatDate(Date(2020, 3, 17));
    FormatParses(Date(2020, 3, 17));
    assert "2020-07-06" == FormatDate(Date(2020, 7, 6));
    FormatParses(Date(2020, 7, 6));
  }

  /** The malformed dates of the repository's tests are refused: a day of
      63, a three-digit month, a three-digit day. */
  lemma TestedDatesRefused()
    ensures !IsDateString("2019-07-63")
    ensures !IsDateString("2020-032-01")
    ensures !IsDateString("2020-03-176")
  {
    assert "2019-07-63"[8..] == "63";
    assert "2020-03-176"[8..] == "176";
  }

  /** Zero padding is optional, and a space may pad the day. */
  lemma PaddingExamples()
    ensures ParseDate("2020-3-5") == Some(Date(2020, 3, 5))
    ensures ParseDate("2020-03- 5") == Some(Date(2020, 3, 5))
  {
    assert "2020-3-5"[..4] == "2020" && "2020-3-5"[5..6] == "3" && "2020-3-5"[7..] == "5";
    assert "2020-03- 5"[..4] == "2020" && "2020-03- 5"[5..7] == "03" && "2020-03- 5"[8..] == " 5";
  }

  /** The calendar is checked after the grammar: 29 February exists only
      in leap years. */
  lemma LeapDayExamples()
    ensures IsDateString("2020-02-29") && !IsDateString("2019-02-29")
  {
    assert "2020-02-29" == FormatDate(Date(2020, 2, 29));
    FormatParses(Date(2020, 2, 29));
    assert "2019-02-29"[..4] == "2019" && "2019-02-29"[5..7] == "02" && "2019-02-29"[8..] == "29";
  }

  /** There is no year 0 and no month 0. */
  lemma ZeroFieldsRefused()
    ensures !IsDateString("0000-01-01") && !IsDateString("2020-00-10")
  {
    assert "0000-01-01"[..4] == "0000";
    assert "2020-00-10"[5..7] == "00";
  }
}
