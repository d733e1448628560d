/** Calendar days in UTC, as ECMA-262 defines them (section 21.4.1): a date is a day number counted
    from 1970-01-01, and `YYYY-MM-DD` is how the dashboard writes it. Years 0100 to 9999.

    The forecast, the settled series and the budgets compare days only with `<` and `==` and add whole
    days, and the last part of this module shows that doing so on the strings and doing so on the day
    numbers is the same thing. The other modules therefore work on day numbers. */
module Calendar {
  import opened Results
  import opened Sums

  const MIN_YEAR := 100
  const MAX_YEAR := 9999

  predicate IsLeap(y: int) {
    y % 4 == 0 && (y % 100 != 0 || y % 400 == 0)
  }

  function DaysInYear(y: int): int {
    if IsLeap(y) then 366 else 365
  }

  function DaysInMonth(y: int, m: int): int {
    if m == 2 then (if IsLeap(y) then 29 else 28)
    else if m == 4 || m == 6 || m == 9 || m == 11 then 30
    else 31
  }

  /** Day number of January 1 of year `y`. */
  function DayFromYear(y: int): int {
    365 * (y - 1970) + (y - 1969) / 4 - (y - 1901) / 100 + (y - 1601) / 400
  }

  /** Days of the year before the first of month `m`; `m == 13` gives the whole year. */
  function MonthOffset(y: int, m: int): int
    requires 1 <= m <= 13
  {
    if m == 1 then 0 else MonthOffset(y, m - 1) + DaysInMonth(y, m - 1)
  }

  datatype Civil = Civil(year: int, month: int, day: int)

  predicate ValidCivil(c: Civil) {
    MIN_YEAR <= c.year <= MAX_YEAR && 1 <= c.month <= 12 && 1 <= c.day <= DaysInMonth(c.year, c.month)
  }

  function DayNumber(c: Civil): int
    requires 1 <= c.month <= 12
  {
    DayFromYear(c.year) + MonthOffset(c.year, c.month) + c.day - 1
  }

  lemma {:induction false} LeapQuarter(y: int)
    ensures (y - 1968) / 4 == (y - 1969) / 4 + (if y % 4 == 0 then 1 else 0)
  {
  }

  lemma {:induction false} LeapCentury(y: int)
    ensures (y - 1900) / 100 == (y - 1901) / 100 + (if y % 100 == 0 then 1 else 0)
  {
  }

  lemma {:induction false} LeapFourCenturies(y: int)
    ensures (y - 1600) / 400 == (y - 1601) / 400 + (if y % 400 == 0 then 1 else 0)
  {
  }

  lemma {:induction false} LeapDivisors(y: int)
    ensures y % 400 == 0 ==> y % 100 == 0
    ensures y % 100 == 0 ==> y % 4 == 0
  {
  }

  lemma {:induction false} YearLength(y: int)
    ensures DayFromYear(y + 1) == DayFromYear(y) + DaysInYear(y)
  {
    LeapQuarter(y);
    LeapCentury(y);
    LeapFourCenturies(y);
    LeapDivisors(y);
  }

  lemma {:induction false} YearOffsetWhole(y: int)
    ensures MonthOffset(y, 13) == DaysInYear(y)
  {
    var leap := if IsLeap(y) then 1 else 0;
    assert MonthOffset(y, 1) == 0;
    assert MonthOffset(y, 2) == 31;
    assert MonthOffset(y, 3) == 59 + leap;
    assert MonthOffset(y, 4) == 90 + leap;
    assert MonthOffset(y, 5) == 120 + leap;
    assert MonthOffset(y, 6) == 151 + leap;
    assert MonthOffset(y, 7) == 181 + leap;
    assert MonthOffset(y, 8) == 212 + leap;
    assert MonthOffset(y, 9) == 243 + leap;
    assert MonthOffset(y, 10) == 273 + leap;
    assert MonthOffset(y, 11) == 304 + leap;
    assert MonthOffset(y, 12) == 334 + leap;
  }

  lemma {:induction false} YearsIncrease(y: int, z: int)
    requires y <= z
    ensures DayFromYear(y) + (z - y) * 365 <= DayFromYear(z)
    decreases z - y
  {
    if y < z {
      YearsIncrease(y, z - 1);
      YearLength(z - 1);
    }
  }

  lemma {:induction false} MonthsIncrease(y: int, m: int, n: int)
    requires 1 <= m <= n <= 13
    ensures MonthOffset(y, m) + (n - m) * 28 <= MonthOffset(y, n)
    decreases n - m
  {
    if m < n {
      MonthsIncrease(y, m, n - 1);
    }
  }

  predicate CivilBefore(a: Civil, b: Civil) {
    a.year < b.year || (a.year == b.year && (a.month < b.month || (a.month == b.month && a.day < b.day)))
  }

  /** Calendar order is day-number order. */
  lemma {:induction false} DayNumberOrder(a: Civil, b: Civil)
    requires ValidCivil(a) && ValidCivil(b)
    ensures CivilBefore(a, b) <==> DayNumber(a) < DayNumber(b)
    ensures a == b <==> DayNumber(a) == DayNumber(b)
  {
    if CivilBefore(a, b) {
      EarlierMeansSmaller(a, b);
    } else if CivilBefore(b, a) {
      EarlierMeansSmaller(b, a);
    }
  }

  lemma {:induction false} DayWithinYear(c: Civil)
    requires ValidCivil(c)
    ensures DayFromYear(c.year) <= DayNumber(c) < DayFromYear(c.year + 1)
  {
    MonthsIncrease(c.year, 1, c.month);
    MonthsIncrease(c.year, c.month + 1, 13);
    YearOffsetWhole(c.year);
    YearLength(c.year);
  }

  lemma {:induction false} EarlierMeansSmaller(a: Civil, b: Civil)
    requires ValidCivil(a) && ValidCivil(b) && CivilBefore(a, b)
    ensures DayNumber(a) < DayNumber(b)
  {
    if a.year < b.year {
      DayWithinYear(a);
      DayWithinYear(b);
      YearsIncrease(a.year + 1, b.year);
    } else if a.month < b.month {
      MonthsIncrease(a.year, a.month + 1, b.month);
    }
  }

  // ---- From a day number back to the calendar ----

  const FIRST_DAY: int := DayFromYear(MIN_YEAR)
  const END_DAY: int := DayFromYear(MAX_YEAR + 1)

  predicate InRange(day: int) {
    FIRST_DAY <= day < END_DAY
  }

  /** The year `y` with `DayFromYear(y) <= day < DayFromYear(y + 1)`, searched upwards. */
  function YearFrom(day: int, y: int): (r: int)
    requires DayFromYear(y) <= day && y <= MAX_YEAR && day < END_DAY
    ensures y <= r <= MAX_YEAR && DayFromYear(r) <= day < DayFromYear(r + 1)
    decreases MAX_YEAR - y
  {
    if day < DayFromYear(y + 1) then y else YearFrom(day, y + 1)
  }

  function MonthFrom(offset: int, y: int, m: int): (r: int)
    requires 1 <= m <= 12 && MonthOffset(y, m) <= offset < MonthOffset(y, 13)
    ensures m <= r <= 12 && MonthOffset(y, r) <= offset < MonthOffset(y, r + 1)
    decreases 12 - m
  {
    if offset < MonthOffset(y, m + 1) then m else MonthFrom(offset, y, m + 1)
  }

  function CivilOf(day: int): (c: Civil)
    requires InRange(day)
    ensures ValidCivil(c) && DayNumber(c) == day
  {
    var y := YearFrom(day, MIN_YEAR);
    YearLength(y);
    YearOffsetWhole(y);
    var offset := day - DayFromYear(y);
    var m := MonthFrom(offset, y, 1);
    Civil(y, m, offset - MonthOffset(y, m) + 1)
  }

  lemma {:induction false} CivilOfDayNumber(c: Civil)
    requires ValidCivil(c)
    ensures InRange(DayNumber(c)) && CivilOf(DayNumber(c)) == c
  {
    DayWithinYear(c);
    YearsIncrease(MIN_YEAR, c.year);
    YearsIncrease(c.year + 1, MAX_YEAR + 1);
    DayNumberOrder(CivilOf(DayNumber(c)), c);
  }

  // ---- `YYYY-MM-DD` ----

  predicate IsDigit(c: char) {
    '0' <= c <= '9'
  }

  function DigitValue(c: char): (v: int)
    requires IsDigit(c)
    ensures 0 <= v <= 9
  {
    c as int - '0' as int
  }

  function DigitChar(v: int): (c: char)
    requires 0 <= v <= 9
    ensures IsDigit(c) && DigitValue(c) == v
  {
    (v + '0' as int) as char
  }

  lemma {:induction false} DigitRoundTrip(c: char)
    requires IsDigit(c)
    ensures DigitChar(DigitValue(c)) == c
  {
  }

  /** The pattern `^\d{4}-\d{2}-\d{2}$`. */
  predicate MatchesDayPattern(s: string) {
    && |s| == 10 && s[4] == '-' && s[7] == '-'
    && IsDigit(s[0]) && IsDigit(s[1]) && IsDigit(s[2]) && IsDigit(s[3])
    && IsDigit(s[5]) && IsDigit(s[6]) && IsDigit(s[8]) && IsDigit(s[9])
  }

  function TwoDigits(s: string, i: nat): int
    requires i + 1 < |s| && IsDigit(s[i]) && IsDigit(s[i + 1])
  {
    10 * DigitValue(s[i]) + DigitValue(s[i + 1])
  }

  function Fields(s: string): Civil
    requires MatchesDayPattern(s)
  {
    Civil(100 * TwoDigits(s, 0) + TwoDigits(s, 2), TwoDigits(s, 5), TwoDigits(s, 8))
  }

  /** A string that names a day in the years this module covers. */
  predicate IsDay(s: string) {
    MatchesDayPattern(s) && ValidCivil(Fields(s))
  }

  function Two(v: int): string
    requires 0 <= v <= 99
  {
    [DigitChar(v / 10), DigitChar(v % 10)]
  }

  function FormatCivil(c: Civil): string
    requires ValidCivil(c)
  {
    Two(c.year / 100) + Two(c.year % 100) + "-" + Two(c.month) + "-" + Two(c.day)
  }

  /** `new Date(day * MS_PER_DAY).toISOString().slice(0, 10)` */
  function FormatDay(day: int): string
    requires InRange(day)
  {
    FormatCivil(CivilOf(day))
  }

  datatype DateError = Malformed

  /** `parseDay`. What an engine does with an impossible date such as 02-31 is not part of this model. */
  function ParseDay(s: string): Result<int, DateError>
    requires MatchesDayPattern(s) ==> IsDay(s)
  {
    if !MatchesDayPattern(s) then Err(Malformed) else Ok(DayNumber(Fields(s)))
  }

  lemma {:induction false} TwoRoundTrip(v: int)
    requires 0 <= v <= 99
    ensures |Two(v)| == 2 && IsDigit(Two(v)[0]) && IsDigit(Two(v)[1]) && TwoDigits(Two(v), 0) == v
  {
  }

  lemma {:induction false} FieldsOfFormat(c: Civil)
    requires ValidCivil(c)
    ensures IsDay(FormatCivil(c)) && Fields(FormatCivil(c)) == c
  {
    var s := FormatCivil(c);
    TwoRoundTrip(c.year / 100);
    TwoRoundTrip(c.year % 100);
    TwoRoundTrip(c.month);
    TwoRoundTrip(c.day);
    assert s[0] == Two(c.year / 100)[0] && s[1] == Two(c.year / 100)[1];
    assert s[2] == Two(c.year % 100)[0] && s[3] == Two(c.year % 100)[1];
    assert s[5] == Two(c.month)[0] && s[6] == Two(c.month)[1];
    assert s[8] == Two(c.day)[0] && s[9] == Two(c.day)[1];
  }

  lemma {:induction false} FormatOfFields(s: string)
    requires IsDay(s)
    ensures FormatCivil(Fields(s)) == s
  {
    var t, c := FormatCivil(Fields(s)), Fields(s);
    FieldsOfFormat(c);
    hide FormatCivil;
    assert TwoDigits(s, 0) == c.year / 100 == TwoDigits(t, 0);
    assert TwoDigits(s, 2) == c.year % 100 == TwoDigits(t, 2);
    SameDigits(s, t, 0);
    SameDigits(s, t, 2);
    SameDigits(s, t, 5);
    SameDigits(s, t, 8);
  }

  lemma {:induction false} SameDigits(s: string, t: string, i: nat)
    requires i + 1 < |s| && IsDigit(s[i]) && IsDigit(s[i + 1])
    requires i + 1 < |t| && IsDigit(t[i]) && IsDigit(t[i + 1])
    requires TwoDigits(s, i) == TwoDigits(t, i)
    ensures s[i] == t[i] && s[i + 1] == t[i + 1]
  {
    DigitRoundTrip(s[i]);
    DigitRoundTrip(t[i]);
    DigitRoundTrip(s[i + 1]);
    DigitRoundTrip(t[i + 1]);
  }

  /** Printing a day and reading it back gives the day. */
  lemma {:induction false} ParseOfFormat(day: int)
    requires InRange(day)
    ensures IsDay(FormatDay(day)) && ParseDay(FormatDay(day)) == Ok(day)
  {
    FieldsOfFormat(CivilOf(day));
  }

  /** Reading a date and printing it back gives the same ten characters. */
  lemma {:induction false} FormatOfParse(s: string)
    requires IsDay(s)
    ensures ParseDay(s).Ok? && InRange(ParseDay(s).value) && FormatDay(ParseDay(s).value) == s
  {
    CivilOfDayNumber(Fields(s));
    FormatOfFields(s);
  }

  // ---- Comparing dates as strings ----

  /** JavaScript's `<` on strings: by the first character that differs. */
  predicate StringLess(s: string, t: string) {
    if t == "" then false
    else if s == "" then true
    else s[0] < t[0] || (s[0] == t[0] && StringLess(s[1..], t[1..]))
  }

  lemma {:induction false} StringLessAfterPrefix(p: string, s: string, t: string)
    ensures StringLess(p + s, p + t) == StringLess(s, t)
  {
    if p == "" {
      assert p + s == s && p + t == t;
    } else {
      assert (p + s)[1..] == p[1..] + s && (p + t)[1..] == p[1..] + t;
      StringLessAfterPrefix(p[1..], s, t);
    }
  }

  lemma {:induction false} StringLessAtFirstDifference(s: string, t: string, k: nat)
    requires k < |s| && k < |t| && s[..k] == t[..k] && s[k] < t[k]
    ensures StringLess(s, t) && !StringLess(t, s)
  {
    assert s == s[..k] + s[k..] && t == s[..k] + t[k..];
    StringLessAfterPrefix(s[..k], s[k..], t[k..]);
    StringLessAfterPrefix(s[..k], t[k..], s[k..]);
  }

  lemma {:induction false} StringLessIrreflexive(s: string)
    ensures !StringLess(s, s)
  {
    if s != "" {
      StringLessIrreflexive(s[1..]);
    }
  }

  lemma {:induction false} FirstDifference(s: string, t: string) returns (k: nat)
    requires |s| == |t| && s != t
    ensures k < |s| && s[..k] == t[..k] && s[k] != t[k]
  {
    k := 0;
    while s[k] == t[k]
      invariant k < |s| && s[..k] == t[..k]
      invariant exists j :: k <= j < |s| && s[j] != t[j]
      decreases |s| - k
    {
      k := k + 1;
    }
  }

  lemma {:induction false} DigitOrder(s: string, t: string, k: nat)
    requires IsDay(s) && IsDay(t) && k < 10 && s[..k] == t[..k] && s[k] < t[k]
    ensures CivilBefore(Fields(s), Fields(t))
  {
    assert forall j :: 0 <= j < k ==> s[j] == s[..k][j] == t[..k][j] == t[j];
  }

  /** Comparing two dates as strings, as the source does throughout, compares the days they name. */
  lemma {:induction false} StringOrderIsDayOrder(s: string, t: string)
    requires IsDay(s) && IsDay(t)
    ensures StringLess(s, t) <==> ParseDay(s).value < ParseDay(t).value
    ensures s == t <==> ParseDay(s).value == ParseDay(t).value
  {
    DayNumberOrder(Fields(s), Fields(t));
    if s == t {
      StringLessIrreflexive(s);
    } else {
      var k := FirstDifference(s, t);
      if s[k] < t[k] {
        StringLessAtFirstDifference(s, t, k);
        DigitOrder(s, t, k);
      } else {
        assert t[..k] == s[..k];
        StringLessAtFirstDifference(t, s, k);
        DigitOrder(t, s, k);
        DayNumberOrder(Fields(t), Fields(s));
      }
    }
  }

  // ---- Date.UTC, month ends and runs of days ----

  /** `Date.UTC(y, m, d)` as a day number: months count from 0 and overflow into years, days overflow
      into months, and a two-digit year means 19xx. */
  function DateUTC(y: int, month: int, date: int): int {
    var full := if 0 <= y <= 99 then 1900 + y else y;
    var year := full + month / 12;
    DayFromYear(year) + MonthOffset(year, month % 12 + 1) + date - 1
  }

  lemma {:induction false} DateUTCOfCivil(c: Civil, shift: int)
    requires ValidCivil(c)
    ensures DateUTC(c.year, c.month - 1, c.day + shift) == DayNumber(c) + shift
  {
    hide DayFromYear, MonthOffset, DaysInMonth;
    assert (c.month - 1) / 12 == 0 && (c.month - 1) % 12 + 1 == c.month;
  }

  lemma {:induction false} StartPlus(start: string, shift: int)
    requires IsDay(start)
    ensures var c := Fields(start); DateUTC(c.year, c.month - 1, c.day + shift) == ParseDay(start).value + shift
  {
    DateUTCOfCivil(Fields(start), shift);
  }

  /** `isoDaysFrom`: the run of consecutive days of a window, nothing skipped and nothing repeated. */
  method IsoDaysFrom(startIso: string, count: nat) returns (out: seq<string>)
    requires IsDay(startIso)
    requires count == 0 || InRange(ParseDay(startIso).value + count - 1)
    ensures |out| == count
    ensures forall i :: 0 <= i < count ==> IsDay(out[i]) && ParseDay(out[i]) == Ok(ParseDay(startIso).value + i)
  {
    hide CivilOf, DateUTC, DayNumber, DayFromYear, MonthOffset, FormatDay, MatchesDayPattern;
    var c := Fields(startIso);
    FormatOfParse(startIso);
    out := [];
    for i := 0 to count
      invariant |out| == i
      invariant forall k :: 0 <= k < i ==> IsDay(out[k]) && ParseDay(out[k]) == Ok(ParseDay(startIso).value + k)
    {
      StartPlus(startIso, i);
      ParseOfFormat(DateUTC(c.year, c.month - 1, c.day + i));
      out := out + [FormatDay(DateUTC(c.year, c.month - 1, c.day + i))];
    }
  }

  /** First day of the month containing `day` (ClickHouse's `toStartOfMonth`). */
  function MonthStart(day: int): int
    requires InRange(day)
  {
    day - CivilOf(day).day + 1
  }

  /** `endOfMonth`: day 0 of the following month. */
  function MonthEnd(day: int): int
    requires InRange(day)
  {
    var c := CivilOf(day);
    DateUTC(c.year, c.month, 0)
  }

  lemma {:induction false} DayZeroIsLastDay(y: int, m: int)
    requires MIN_YEAR <= y <= MAX_YEAR && 1 <= m <= 12
    ensures DateUTC(y, m, 0) == DayNumber(Civil(y, m, DaysInMonth(y, m)))
  {
    assert MonthOffset(y, m + 1) == MonthOffset(y, m) + DaysInMonth(y, m);
    if m == 12 {
      YearLength(y);
      YearOffsetWhole(y);
      assert DateUTC(y, m, 0) == DayFromYear(y + 1) - 1;
    } else {
      assert m / 12 == 0 && m % 12 == m;
    }
  }

  lemma {:induction false} MonthEndIsLastDay(day: int)
    requires InRange(day)
    ensures InRange(MonthEnd(day))
    ensures var c := CivilOf(day); CivilOf(MonthEnd(day)) == Civil(c.year, c.month, DaysInMonth(c.year, c.month))
  {
    hide CivilOf, DateUTC, DayNumber, InRange, DayFromYear, MonthOffset;
    var c := CivilOf(day);
    DayZeroIsLastDay(c.year, c.month);
    CivilOfDayNumber(Civil(c.year, c.month, DaysInMonth(c.year, c.month)));
  }

  /** The period of a forecast: it starts on the first of the month, contains the day it was taken
      from, ends on the last of the same month, and the next day is in another month. */
  lemma {:induction false} MonthBounds(day: int)
    requires InRange(day)
    ensures var start := MonthStart(day);
      && InRange(start) && start <= day <= MonthEnd(start) && InRange(MonthEnd(start))
      && CivilOf(start) == Civil(CivilOf(day).year, CivilOf(day).month, 1)
      && MonthEnd(start) == MonthEnd(day)
      && 27 <= MonthEnd(start) - start <= 30
      && (InRange(MonthEnd(start) + 1) ==> CivilOf(MonthEnd(start) + 1).day == 1)
  {
    hide CivilOf, DateUTC, MonthEnd, InRange, DayFromYear, MonthOffset, DaysInMonth;
    var c := CivilOf(day);
    var first := Civil(c.year, c.month, 1);
    MonthSizes(c.year, c.month);
    CivilOfDayNumber(first);
    assert MonthStart(day) == DayNumber(first);
    MonthEndIsLastDay(MonthStart(day));
    MonthEndIsLastDay(day);
    var last := CivilOf(MonthEnd(day));
    assert last == CivilOf(MonthEnd(MonthStart(day)));
    assert MonthEnd(day) == DayNumber(last) == MonthEnd(MonthStart(day));
    if InRange(MonthEnd(day) + 1) {
      AfterMonthEnd(MonthEnd(day));
    }
  }

  lemma {:induction false} MonthSizes(y: int, m: int)
    ensures 28 <= DaysInMonth(y, m) <= 31
  {
  }

  /** The day after the last of a month is a first of the month. */
  lemma {:induction false} AfterMonthEnd(day: int)
    requires InRange(day) && InRange(day + 1)
    requires CivilOf(day).day == DaysInMonth(CivilOf(day).year, CivilOf(day).month)
    ensures CivilOf(day + 1).day == 1
  {
    hide CivilOf, InRange, DayFromYear, MonthOffset;
    var last, next := CivilOf(day), CivilOf(day + 1);
    DayNumberOrder(last, next);
    if next.day > 1 {
      var before := Civil(next.year, next.month, next.day - 1);
      DayNumberOrder(before, last);
    }
  }

  /** `isIsoDate`: the pattern, coarse bounds, and a round trip through `Date.UTC`. */
  predicate IsIsoDate(s: string) {
    MatchesDayPattern(s) &&
    var c := Fields(s);
    && 1 <= c.month <= 12 && 1 <= c.day <= 31
    && var t := DateUTC(c.year, c.month - 1, c.day);
      InRange(t) && CivilOf(t) == c
  }

  /** It accepts exactly the real days: an impossible day of a month comes back as a different date,
      and so does a year below 100, which `Date.UTC` reads as 19xx. */
  lemma {:induction false} IsIsoDateExactly(s: string)
    ensures IsIsoDate(s) <==> IsDay(s)
  {
    hide CivilOf, DateUTC, DayNumber, DayFromYear, MonthOffset, Fields;
    if MatchesDayPattern(s) {
      var c := Fields(s);
      if ValidCivil(c) {
        DateUTCOfCivil(c, 0);
        CivilOfDayNumber(c);
      }
    }
  }

  // ---- Weekdays ----

  /** JavaScript's `%`: the remainder takes the sign of the dividend. */
  function JsRemainder(a: int, n: int): int
    requires n > 0
  {
    if a >= 0 then a % n else -((-a) % n)
  }

  /** `(((day + 4) % 7) + 7) % 7`: 0 is Sunday, and 1970-01-01 was a Thursday. */
  function WeekdayOf(day: int): int {
    JsRemainder(JsRemainder(day + 4, 7) + 7, 7)
  }

  /** Each day is the next weekday, before 1970 as well as after. */
  lemma {:induction false} WeekdayAdvances(day: int)
    ensures 0 <= WeekdayOf(day) <= 6
    ensures WeekdayOf(day + 1) == (WeekdayOf(day) + 1) % 7
    ensures WeekdayOf(0) == 4
  {
    WeekdayIsModulus(day);
    WeekdayIsModulus(day + 1);
    WeekdayIsModulus(0);
    hide WeekdayOf;
    NextModulus(day + 4);
  }

  lemma {:induction false} NextModulus(x: int)
    ensures (x + 1) % 7 == (x % 7 + 1) % 7
  {
  }

  lemma {:induction false} WeekdayIsModulus(day: int)
    ensures WeekdayOf(day) == (day + 4) % 7
  {
  }

  // ---- Contiguity ----

  /** `daysBetweenInclusive` */
  function DaysBetweenInclusive(from: string, to: string): int
    requires IsDay(from) && IsDay(to)
  {
    ParseDay(to).value - ParseDay(from).value + 1
  }

  ghost predicate StrictlyIncreasing(days: seq<int>) {
    forall i, j :: 0 <= i < j < |days| ==> days[i] < days[j]
  }

  lemma {:induction false} SpanOfIncreasing(days: seq<int>)
    requires StrictlyIncreasing(days) && days != []
    ensures days[|days| - 1] - days[0] + 1 >= |days|
    ensures days[|days| - 1] - days[0] + 1 == |days| ==> forall i :: 0 <= i < |days| ==> days[i] == days[0] + i
  {
    var n := |days| - 1;
    if n > 0 {
      SpanOfIncreasing(days[..n]);
      if days[n] - days[0] + 1 == |days| {
        forall i | 0 <= i < |days| ensures days[i] == days[0] + i {
          assert i == n || days[..n][i] == days[0] + i;
        }
      }
    }
  }

  /** A gap makes the span longer than the list; without a gap they agree. */
  lemma {:induction false} NoGapMeansSpan(days: seq<int>)
    requires StrictlyIncreasing(days) && days != []
    requires forall d :: days[0] <= d <= days[|days| - 1] ==> d in days
    ensures days[|days| - 1] - days[0] + 1 == |days|
  {
    var n := |days| - 1;
    if n > 0 {
      var before := days[n] - 1;
      assert before in days;
      var k :| 0 <= k < |days| && days[k] == before;
      assert k < n && days[k] <= days[n - 1] < days[n];
      forall d | days[..n][0] <= d <= days[..n][n - 1] ensures d in days[..n] {
        assert d in days;
        var i :| 0 <= i < |days| && days[i] == d;
        assert days[..n][i] == d;
      }
      NoGapMeansSpan(days[..n]);
    }
  }

  /** The `contiguous` flag, over the date strings it is computed from: a strictly increasing list of
      dates is flagged contiguous exactly when no date between its ends is missing. */
  lemma {:induction false} ContiguousExactly(dates: seq<string>)
    requires dates != [] && forall i :: 0 <= i < |dates| ==> IsDay(dates[i])
    requires forall i, j :: 0 <= i < j < |dates| ==> StringLess(dates[i], dates[j])
    ensures DaysBetweenInclusive(dates[0], dates[|dates| - 1]) == |dates| <==>
      forall s :: IsDay(s) && !StringLess(s, dates[0]) && !StringLess(dates[|dates| - 1], s) ==> s in dates
  {
    hide MatchesDayPattern, Fields, DayNumber, StringLess, FormatDay, DayFromYear;
    var days := seq(|dates|, i requires 0 <= i < |dates| => ParseDay(dates[i]).value);
    forall i, j | 0 <= i < j < |days| ensures days[i] < days[j] {
      StringOrderIsDayOrder(dates[i], dates[j]);
    }
    var first, last := dates[0], dates[|dates| - 1];
    SpanOfIncreasing(days);
    if DaysBetweenInclusive(first, last) == |dates| {
      forall s | IsDay(s) && !StringLess(s, first) && !StringLess(last, s) ensures s in dates {
        StringOrderIsDayOrder(s, first);
        StringOrderIsDayOrder(last, s);
        var i := ParseDay(s).value - days[0];
        assert days[i] == ParseDay(s).value;
        StringOrderIsDayOrder(s, dates[i]);
      }
    }
    if forall s :: IsDay(s) && !StringLess(s, first) && !StringLess(last, s) ==> s in dates {
      forall d | days[0] <= d <= days[|days| - 1] ensures d in days {
        FormatOfParse(first);
        FormatOfParse(last);
        var s := FormatDay(d);
        ParseOfFormat(d);
        StringOrderIsDayOrder(s, first);
        StringOrderIsDayOrder(last, s);
        var i :| 0 <= i < |dates| && dates[i] == s;
        assert days[i] == d;
      }
      NoGapMeansSpan(days);
    }
  }
}
