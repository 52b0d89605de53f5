/** The part of Python's `datetime` library that the subscription tracker relies on:
    naive proleptic-Gregorian dates and times, the `datetime(...)` constructor with its
    range checks, `date + timedelta(days=k)`, comparison, `(a - b).days`, `isoformat()`,
    `fromisoformat()` for the forms the tracker writes, and `strptime(s, '%Y-%m-%d')`. */
module Calendar {
  import opened Wrappers
  import opened Text

  const MinYear: int := 1
  const MaxYear: int := 9999
  const DayMicros: int := 86_400_000_000

  datatype Date = Date(year: int, month: int, day: int)
  datatype DateTime = DateTime(date: Date, hour: int, minute: int, second: int, micro: int)

  function Min(a: int, b: int): int { if a <= b then a else b }

  /** The Gregorian leap rule. */
  predicate IsLeap(y: int)
  {
    y % 4 == 0 && (y % 100 != 0 || y % 400 == 0)
  }

  function YearLength(y: int): int
  {
    if IsLeap(y) then 366 else 365
  }

  /** The length of month `m` (1..12) of year `y`. */
  function DaysInMonth(y: int, m: int): (n: int)
    ensures 28 <= n <= 31
  {
    if m == 2 then (if IsLeap(y) then 29 else 28)
    else if m == 4 || m == 6 || m == 9 || m == 11 then 30
    else 31
  }

  /** Days of year `y` before the first of month `m`. */
  function DaysBeforeMonth(y: int, m: int): (n: int)
    ensures n >= 0
  {
    var common :=
      if m <= 1 then 0 else if m == 2 then 31 else if m == 3 then 59 else if m == 4 then 90
      else if m == 5 then 120 else if m == 6 then 151 else if m == 7 then 181
      else if m == 8 then 212 else if m == 9 then 243 else if m == 10 then 273
      else if m == 11 then 304 else 334;
    common + (if m > 2 && IsLeap(y) then 1 else 0)
  }

  /** Days in the years 1 .. y-1, by the library's closed form. */
  function DaysBeforeYear(y: int): int
  {
    var x := y - 1;
    x * 365 + x / 4 - x / 100 + x / 400
  }

  lemma Div4Succ(x: int)
    ensures (x + 1) / 4 == x / 4 + (if (x + 1) % 4 == 0 then 1 else 0)
  {
  }

  lemma Div100Succ(x: int)
    ensures (x + 1) / 100 == x / 100 + (if (x + 1) % 100 == 0 then 1 else 0)
  {
  }

  lemma Div400Succ(x: int)
    ensures (x + 1) / 400 == x / 400 + (if (x + 1) % 400 == 0 then 1 else 0)
  {
  }

  lemma DaysBeforeYearSucc(y: int)
    ensures DaysBeforeYear(y + 1) == DaysBeforeYear(y) + YearLength(y)
  {
    Div4Succ(y - 1);
    Div100Succ(y - 1);
    Div400Succ(y - 1);
  }

  /** `date.toordinal()`: 0001-01-01 is day 1. */
  function Ordinal(d: Date): int
  {
    DaysBeforeYear(d.year) + DaysBeforeMonth(d.year, d.month) + d.day
  }

  predicate ValidDate(d: Date)
  {
    MinYear <= d.year <= MaxYear && 1 <= d.month <= 12 && 1 <= d.day <= DaysInMonth(d.year, d.month)
  }

  predicate ValidDateTime(t: DateTime)
  {
    ValidDate(t.date) && 0 <= t.hour < 24 && 0 <= t.minute < 60 && 0 <= t.second < 60
    && 0 <= t.micro < 1_000_000
  }

  const FirstDate: Date := Date(MinYear, 1, 1)
  const LastDate: Date := Date(MaxYear, 12, 31)
  const MaxOrdinal: int := Ordinal(LastDate)

  /** Calendar order of dates. */
  predicate Before(a: Date, b: Date)
  {
    a.year < b.year || (a.year == b.year && (a.month < b.month || (a.month == b.month && a.day < b.day)))
  }

  // ---------------------------------------------------------------------------
  // Ordinals
  // ---------------------------------------------------------------------------

  lemma DaysBeforeMonthSucc(y: int, m: int)
    requires 1 <= m < 12
    ensures DaysBeforeMonth(y, m + 1) == DaysBeforeMonth(y, m) + DaysInMonth(y, m)
  {
  }

  lemma YearEnd(y: int)
    ensures DaysBeforeMonth(y, 12) + DaysInMonth(y, 12) == YearLength(y)
  {
  }

  lemma {:induction false} DaysBeforeYearMono(y1: int, y2: int)
    requires 1 <= y1 < y2
    ensures DaysBeforeYear(y1) + YearLength(y1) <= DaysBeforeYear(y2)
    decreases y2 - y1
  {
    DaysBeforeYearSucc(y1);
    if y2 > y1 + 1 {
      DaysBeforeYearMono(y1 + 1, y2);
      DaysBeforeYearSucc(y1 + 1);
    }
  }

  lemma {:induction false} DaysBeforeMonthMono(y: int, m1: int, m2: int)
    requires 1 <= m1 < m2 <= 12
    ensures DaysBeforeMonth(y, m1) + DaysInMonth(y, m1) <= DaysBeforeMonth(y, m2)
    decreases m2
  {
    DaysBeforeMonthSucc(y, m2 - 1);
    if m2 > m1 + 1 {
      DaysBeforeMonthMono(y, m1, m2 - 1);
    }
  }

  /** A date's ordinal lies within its year. */
  lemma OrdinalInYear(d: Date)
    requires ValidDate(d)
    ensures DaysBeforeYear(d.year) + 1 <= Ordinal(d) <= DaysBeforeYear(d.year) + YearLength(d.year)
  {
    if d.month < 12 {
      DaysBeforeMonthMono(d.year, d.month, 12);
    }
    YearEnd(d.year);
  }

  /** The ordinal is strictly monotone in calendar order. */
  lemma OrdinalMonotone(a: Date, b: Date)
    requires ValidDate(a) && ValidDate(b)
    requires Before(a, b)
    ensures Ordinal(a) < Ordinal(b)
  {
    OrdinalInYear(a);
    OrdinalInYear(b);
    if a.year < b.year {
      DaysBeforeYearMono(a.year, b.year);
    } else if a.month < b.month {
      DaysBeforeMonthMono(a.year, a.month, b.month);
    }
  }

  lemma OrdinalLow(d: Date)
    requires ValidDate(d)
    ensures 1 <= Ordinal(d)
    ensures Ordinal(d) == 1 <==> d == FirstDate
  {
    OrdinalInYear(d);
    assert DaysBeforeYear(MinYear) == 0;
    if d.year > MinYear {
      DaysBeforeYearMono(MinYear, d.year);
    } else if d.month > 1 {
      DaysBeforeMonthMono(d.year, 1, d.month);
    }
  }

  lemma OrdinalHigh(d: Date)
    requires ValidDate(d)
    ensures Ordinal(d) <= MaxOrdinal
    ensures Ordinal(d) == MaxOrdinal <==> d == LastDate
  {
    OrdinalInYear(d);
    YearEnd(MaxYear);
    assert MaxOrdinal == DaysBeforeYear(MaxYear) + YearLength(MaxYear);
    if d.year < MaxYear {
      DaysBeforeYearMono(d.year, MaxYear);
    } else if d.month < 12 {
      DaysBeforeMonthMono(d.year, d.month, 12);
    }
  }

  /** Every valid date has an ordinal in 1 .. MaxOrdinal; the two ends are taken only by the
      first and the last representable date. */
  lemma OrdinalBounds(d: Date)
    requires ValidDate(d)
    ensures 1 <= Ordinal(d) <= MaxOrdinal
    ensures Ordinal(d) == 1 <==> d == FirstDate
    ensures Ordinal(d) == MaxOrdinal <==> d == LastDate
  {
    OrdinalLow(d);
    OrdinalHigh(d);
  }

  /** Distinct valid dates have distinct ordinals. */
  lemma OrdinalInjective(a: Date, b: Date)
    requires ValidDate(a) && ValidDate(b)
    requires Ordinal(a) == Ordinal(b)
    ensures a == b
  {
    if Before(a, b) {
      OrdinalMonotone(a, b);
    } else if Before(b, a) {
      OrdinalMonotone(b, a);
    }
  }

  // ---------------------------------------------------------------------------
  // date + timedelta(days=k)
  // ---------------------------------------------------------------------------

  function NextDay(d: Date): (r: Date)
    requires ValidDate(d) && d != LastDate
    ensures ValidDate(r) && Ordinal(r) == Ordinal(d) + 1
  {
    if d.day < DaysInMonth(d.year, d.month) then Date(d.year, d.month, d.day + 1)
    else if d.month < 12 then
      DaysBeforeMonthSucc(d.year, d.month);
      Date(d.year, d.month + 1, 1)
    else
      YearEnd(d.year);
      DaysBeforeYearSucc(d.year);
      Date(d.year + 1, 1, 1)
  }

  function PrevDay(d: Date): (r: Date)
    requires ValidDate(d) && d != FirstDate
    ensures ValidDate(r) && Ordinal(r) == Ordinal(d) - 1
  {
    if d.day > 1 then Date(d.year, d.month, d.day - 1)
    else if d.month > 1 then
      DaysBeforeMonthSucc(d.year, d.month - 1);
      Date(d.year, d.month - 1, DaysInMonth(d.year, d.month - 1))
    else
      YearEnd(d.year - 1);
      DaysBeforeYearSucc(d.year - 1);
      Date(d.year - 1, 12, 31)
  }

  /** The date `k` days after `d`, unless that passes the last representable date. */
  function DaysLater(d: Date, k: nat): (r: Option<Date>)
    requires ValidDate(d)
    ensures r.Some? ==> ValidDate(r.value) && Ordinal(r.value) == Ordinal(d) + k
    ensures r.Some? <==> Ordinal(d) + k <= MaxOrdinal
    decreases k
  {
    OrdinalBounds(d);
    if k == 0 then Some(d)
    else if d == LastDate then None
    else DaysLater(NextDay(d), k - 1)
  }

  /** The date `k` days before `d`, unless that passes the first representable date. */
  function DaysEarlier(d: Date, k: nat): (r: Option<Date>)
    requires ValidDate(d)
    ensures r.Some? ==> ValidDate(r.value) && Ordinal(r.value) == Ordinal(d) - k
    ensures r.None? ==> Ordinal(d) - k < 1
    ensures Ordinal(d) - k < 1 ==> r.None?
    decreases k
  {
    if k == 0 then (OrdinalBounds(d); Some(d))
    else if d == FirstDate then None
    else (OrdinalBounds(d); DaysEarlier(PrevDay(d), k - 1))
  }

  /** `d + timedelta(days=k)`: the date `k` days later (earlier for negative `k`), or None
      where Python raises OverflowError because the result leaves years 1..9999. */
  function AddDays(d: Date, k: int): (r: Option<Date>)
    requires ValidDate(d)
    ensures r.Some? ==> ValidDate(r.value) && Ordinal(r.value) == Ordinal(d) + k
    ensures r.Some? <==> 1 <= Ordinal(d) + k <= MaxOrdinal
  {
    OrdinalBounds(d);
    if k >= 0 then DaysLater(d, k) else DaysEarlier(d, -k)
  }

  // ---------------------------------------------------------------------------
  // Instants, comparison and differences
  // ---------------------------------------------------------------------------

  function Midnight(d: Date): DateTime
  {
    DateTime(d, 0, 0, 0, 0)
  }

  function TimeOfDay(t: DateTime): int
  {
    ((t.hour * 60 + t.minute) * 60 + t.second) * 1_000_000 + t.micro
  }

  /** Microseconds since the start of day 0, the quantity comparison and subtraction use. */
  function Instant(t: DateTime): int
  {
    Ordinal(t.date) * DayMicros + TimeOfDay(t)
  }

  /** `a < b` on naive datetimes. */
  predicate Less(a: DateTime, b: DateTime)
  {
    Instant(a) < Instant(b)
  }

  /** `(a - b).days`: whole days of the difference, rounded towards minus infinity. */
  function DaysBetween(a: DateTime, b: DateTime): int
  {
    (Instant(a) - Instant(b)) / DayMicros
  }

  lemma TimeOfDayBounds(t: DateTime)
    requires ValidDateTime(t)
    ensures 0 <= TimeOfDay(t) < DayMicros
  {
  }

  /** A negative day count means exactly that the first instant is the earlier one. */
  lemma DaysBetweenSign(a: DateTime, b: DateTime)
    ensures DaysBetween(a, b) < 0 <==> Less(a, b)
  {
  }

  /** Between two midnights the day count is the difference of the ordinals. */
  lemma DaysBetweenMidnights(a: Date, b: Date)
    ensures DaysBetween(Midnight(a), Midnight(b)) == Ordinal(a) - Ordinal(b)
  {
    var c := Ordinal(a) - Ordinal(b);
    assert Instant(Midnight(a)) - Instant(Midnight(b)) == c * DayMicros;
  }

  // ---------------------------------------------------------------------------
  // The datetime(...) constructor
  // ---------------------------------------------------------------------------

  function YearError(y: int): string
  {
    "year " + IntToString(y) + " is out of range"
  }

  const MonthError: string := "month must be in 1..12"
  const DayError: string := "day is out of range for month"
  const HourError: string := "hour must be in 0..23"
  const MinuteError: string := "minute must be in 0..59"
  const SecondError: string := "second must be in 0..59"
  const MicroError: string := "microsecond must be in 0..999999"
  const DateOverflow: string := "date value out of range"

  /** `datetime(y, m, d, h, mi, s, us)`: the value when every field is in range, otherwise the
      ValueError of the first field out of range, checked in the constructor's order. */
  function NewDateTime(y: int, m: int, d: int, h: int, mi: int, s: int, us: int): (r: Result<DateTime, string>)
    ensures r.Ok? <==> ValidDateTime(DateTime(Date(y, m, d), h, mi, s, us))
    ensures r.Ok? ==> r.value == DateTime(Date(y, m, d), h, mi, s, us)
  {
    if !(MinYear <= y <= MaxYear) then Err(YearError(y))
    else if !(1 <= m <= 12) then Err(MonthError)
    else if !(1 <= d <= DaysInMonth(y, m)) then Err(DayError)
    else if !(0 <= h < 24) then Err(HourError)
    else if !(0 <= mi < 60) then Err(MinuteError)
    else if !(0 <= s < 60) then Err(SecondError)
    else if !(0 <= us < 1_000_000) then Err(MicroError)
    else Ok(DateTime(Date(y, m, d), h, mi, s, us))
  }

  // ---------------------------------------------------------------------------
  // isoformat / fromisoformat / strptime
  // ---------------------------------------------------------------------------

  /** `YYYY-MM-DD` */
  function FormatDate(d: Date): (s: string)
    requires ValidDate(d)
    ensures |s| == 10
  {
    Fixed(d.year, 4) + "-" + Fixed(d.month, 2) + "-" + Fixed(d.day, 2)
  }

  /** `HH:MM:SS` */
  function FormatClock(t: DateTime): (s: string)
    requires ValidDateTime(t)
    ensures |s| == 8
  {
    Fixed(t.hour, 2) + ":" + Fixed(t.minute, 2) + ":" + Fixed(t.second, 2)
  }

  /** `t.isoformat()`: date, 'T', clock, and the six-digit fraction only when it is non-zero. */
  function FormatIso(t: DateTime): (s: string)
    requires ValidDateTime(t)
    ensures |s| == (if t.micro == 0 then 19 else 26)
    ensures s[10] == 'T' && 'T' !in s[..10]
  {
    var head := FormatDate(t.date);
    assert forall k :: 0 <= k < 10 ==> head[k] == '-' || IsDigit(head[k]);
    FormatDate(t.date) + "T" + FormatClock(t)
    + (if t.micro == 0 then "" else "." + Fixed(t.micro, 6))
  }

  /** The numbers of a `YYYY-MM-DD` text, when its shape is right. */
  function ReadDate(s: string): (r: Option<(int, int, int)>)
    requires |s| == 10
  {
    if s[4] == '-' && s[7] == '-' && AllDigits(s[..4]) && AllDigits(s[5..7]) && AllDigits(s[8..])
    then Some((DigitsValue(s[..4]), DigitsValue(s[5..7]), DigitsValue(s[8..])))
    else None
  }

  /** The numbers of an `HH:MM:SS` text, when its shape is right. */
  function ReadClock(s: string): (r: Option<(int, int, int)>)
    requires |s| == 8
  {
    if s[2] == ':' && s[5] == ':' && AllDigits(s[..2]) && AllDigits(s[3..5]) && AllDigits(s[6..])
    then Some((DigitsValue(s[..2]), DigitsValue(s[3..5]), DigitsValue(s[6..])))
    else None
  }

  function InvalidIso(s: string): string
  {
    "Invalid isoformat string: '" + s + "'"
  }

  /** `datetime.fromisoformat(s)` for the three naive forms `YYYY-MM-DD`,
      `YYYY-MM-DDTHH:MM:SS` and `YYYY-MM-DDTHH:MM:SS.ffffff`; fields out of range give the
      constructor's error. */
  function ParseIso(s: string): (r: Result<DateTime, string>)
    ensures r.Ok? ==> ValidDateTime(r.value)
  {
    if |s| != 10 && |s| != 19 && |s| != 26 then Err(InvalidIso(s))
    else
      var date := ReadDate(s[..10]);
      var clock := if |s| == 10 then Some((0, 0, 0)) else if s[10] == 'T' then ReadClock(s[11..19]) else None;
      var fraction :=
        if |s| < 26 then Some(0)
        else if s[19] == '.' && AllDigits(s[20..]) then Some(DigitsValue(s[20..])) else None;
      if date.None? || clock.None? || fraction.None? then Err(InvalidIso(s))
      else
        var (y, m, d) := date.value;
        var (h, mi, sec) := clock.value;
        NewDateTime(y, m, d, h, mi, sec, fraction.value)
  }

  function StrptimeError(s: string): string
  {
    "time data '" + s + "' does not match format '%Y-%m-%d'"
  }

  /** `datetime.strptime(s, '%Y-%m-%d')` for four-digit years and two-digit months and days,
      giving the date at midnight. */
  function ParseYmd(s: string): (r: Result<Date, string>)
    ensures r.Ok? ==> ValidDate(r.value)
  {
    if |s| != 10 then Err(StrptimeError(s))
    else match ReadDate(s)
      case None => Err(StrptimeError(s))
      case Some((y, m, d)) =>
        match NewDateTime(y, m, d, 0, 0, 0, 0)
        case Err(e) => Err(e)
        case Ok(t) => Ok(t.date)
  }

  lemma FixedDigits(n: nat, w: nat)
    requires n < Pow10(w)
    ensures AllDigits(Fixed(n, w)) && DigitsValue(Fixed(n, w)) == n
  {
    FixedValue(n, w);
  }

  /** The date text reads back as the date. */
  lemma ReadFormatDate(d: Date)
    requires ValidDate(d)
    ensures ReadDate(FormatDate(d)) == Some((d.year, d.month, d.day))
  {
    var y, m, dd := Fixed(d.year, 4), Fixed(d.month, 2), Fixed(d.day, 2);
    var s := FormatDate(d);
    assert s == y + "-" + m + "-" + dd;
    assert s[..4] == y && s[5..7] == m && s[8..] == dd;
    FixedDigits(d.year, 4);
    FixedDigits(d.month, 2);
    FixedDigits(d.day, 2);
  }

  lemma ReadFormatClock(t: DateTime)
    requires ValidDateTime(t)
    ensures ReadClock(FormatClock(t)) == Some((t.hour, t.minute, t.second))
  {
    var h, mi, sec := Fixed(t.hour, 2), Fixed(t.minute, 2), Fixed(t.second, 2);
    var s := FormatClock(t);
    assert s == h + ":" + mi + ":" + sec;
    assert s[..2] == h && s[3..5] == mi && s[6..] == sec;
    FixedDigits(t.hour, 2);
    FixedDigits(t.minute, 2);
    FixedDigits(t.second, 2);
  }

  /** `fromisoformat(t.isoformat()) == t` for every representable naive datetime. */
  lemma ParseFormatIso(t: DateTime)
    requires ValidDateTime(t)
    ensures ParseIso(FormatIso(t)) == Ok(t)
  {
    var s := FormatIso(t);
    var date, clock := FormatDate(t.date), FormatClock(t);
    var frac := if t.micro == 0 then "" else "." + Fixed(t.micro, 6);
    assert s == date + "T" + clock + frac;
    assert s[..10] == date;
    assert s[11..19] == clock;
    ReadFormatDate(t.date);
    ReadFormatClock(t);
    if t.micro != 0 {
      assert s[20..] == Fixed(t.micro, 6);
      FixedDigits(t.micro, 6);
    }
  }

  /** The date part of an isoformat text, read by strptime, is the date. */
  lemma ParseYmdFormatDate(d: Date)
    requires ValidDate(d)
    ensures ParseYmd(FormatDate(d)) == Ok(d)
  {
    ReadFormatDate(d);
  }
}
