/** The subscription record of the tracker (app/models/subscription.py): constructor defaults,
    the dictionary round trip, the expiry calculation with its roll-forward loop, and the
    remaining-days count. The clock is the parameter `now`; the fresh uuid and the current
    isoformat text the constructor falls back on are parameters too. */
module Subscriptions {
  import opened Wrappers
  import opened Text
  import opened Calendar

  const DefaultPeriodValue: int := 1
  const DefaultPeriodUnit: string := "month"
  const DefaultReminderDays: int := 7

  datatype Subscription = Subscription(
    id: string,
    name: Option<string>,
    customType: string,
    notes: string,
    startDate: Option<string>,
    expiryDate: Option<string>,
    periodValue: int,
    periodUnit: string,
    reminderDays: int,
    isActive: bool,
    amount: real,
    paymentMethod: string,
    recurring: bool,
    createdAt: string,
    updatedAt: string)

  /** The constructor's keyword arguments, which are also the keys `to_dict` writes and
      `from_dict` reads back; None is an absent key or a None value. */
  datatype Fields = Fields(
    id: Option<string>,
    name: Option<string>,
    customType: Option<string>,
    notes: Option<string>,
    startDate: Option<string>,
    expiryDate: Option<string>,
    periodValue: Option<int>,
    periodUnit: Option<string>,
    reminderDays: Option<int>,
    isActive: Option<bool>,
    amount: Option<real>,
    paymentMethod: Option<string>,
    recurring: Option<bool>,
    createdAt: Option<string>,
    updatedAt: Option<string>)

  /** `x or default` for a string: the empty string and None are falsy. */
  function OrText(x: Option<string>, default: string): string
  {
    if x.Some? && x.value != "" then x.value else default
  }

  /** `x or default` for an integer: zero and None are falsy. */
  function OrInt(x: Option<int>, default: int): int
  {
    if x.Some? && x.value != 0 then x.value else default
  }

  /** A record every later load reproduces unchanged: the fields the constructor defaults
      with `or` already hold truthy values. */
  predicate Normal(s: Subscription)
  {
    s.id != "" && s.periodValue != 0 && s.periodUnit != "" && s.reminderDays != 0
    && s.createdAt != "" && s.updatedAt != ""
  }

  /** `Subscription(**f)`, and equally `Subscription.from_dict(f)`, with `freshId` standing for
      `str(uuid.uuid4())` and `nowText` for `datetime.now().isoformat()`. */
  function New(f: Fields, freshId: string, nowText: string): (s: Subscription)
    ensures freshId != "" && nowText != "" ==> Normal(s)
    ensures s.periodValue != 0 && s.reminderDays != 0 && s.periodUnit != ""
    ensures f.periodValue == Some(0) ==> s.periodValue == DefaultPeriodValue
    ensures f.reminderDays == Some(0) ==> s.reminderDays == DefaultReminderDays
    ensures (f.isActive == Some(false) ==> !s.isActive) && (f.isActive.None? ==> s.isActive)
    ensures (f.recurring == Some(false) ==> !s.recurring) && (f.recurring.None? ==> s.recurring)
    ensures s.name == f.name && s.startDate == f.startDate && s.expiryDate == f.expiryDate
  {
    Subscription(
      id := OrText(f.id, freshId),
      name := f.name,
      customType := OrText(f.customType, ""),
      notes := OrText(f.notes, ""),
      startDate := f.startDate,
      expiryDate := f.expiryDate,
      periodValue := OrInt(f.periodValue, DefaultPeriodValue),
      periodUnit := OrText(f.periodUnit, DefaultPeriodUnit),
      reminderDays := OrInt(f.reminderDays, DefaultReminderDays),
      isActive := f.isActive.GetOr(true),
      amount := f.amount.GetOr(0.0),
      paymentMethod := OrText(f.paymentMethod, ""),
      recurring := f.recurring.GetOr(true),
      createdAt := OrText(f.createdAt, nowText),
      updatedAt := OrText(f.updatedAt, nowText))
  }

  /** `s.to_dict()`: every one of the fifteen keys. */
  function ToDict(s: Subscription): Fields
  {
    Fields(Some(s.id), s.name, Some(s.customType), Some(s.notes), s.startDate, s.expiryDate,
      Some(s.periodValue), Some(s.periodUnit), Some(s.reminderDays), Some(s.isActive),
      Some(s.amount), Some(s.paymentMethod), Some(s.recurring), Some(s.createdAt), Some(s.updatedAt))
  }

  /** `from_dict(s.to_dict())` reproduces every field of a normal record, whatever uuid and
      clock the reload would fall back on. */
  lemma FromDictToDict(s: Subscription, freshId: string, nowText: string)
    requires Normal(s)
    ensures New(ToDict(s), freshId, nowText) == s
  {
  }

  /** Hence every record the constructor makes survives the round trip. */
  lemma ConstructedRoundTrips(f: Fields, freshId: string, nowText: string, laterId: string, laterText: string)
    requires freshId != "" && nowText != ""
    ensures New(ToDict(New(f, freshId, nowText)), laterId, laterText) == New(f, freshId, nowText)
  {
    FromDictToDict(New(f, freshId, nowText), laterId, laterText);
  }

  /** A record that is not normal is changed by a reload: it gets the default back. */
  lemma ReloadRestoresDefaults(s: Subscription, freshId: string, nowText: string)
    requires s.periodValue == 0 || s.reminderDays == 0
    ensures New(ToDict(s), freshId, nowText) != s
  {
    var r := New(ToDict(s), freshId, nowText);
    assert r.periodValue != 0 && r.reminderDays != 0;
  }

  // ---------------------------------------------------------------------------
  // One period
  // ---------------------------------------------------------------------------

  /** Months since January of year 0. */
  function MonthIndex(d: Date): int
  {
    d.year * 12 + d.month - 1
  }

  lemma MonthIndexBefore(a: Date, b: Date)
    requires 1 <= a.month <= 12 && 1 <= b.month <= 12
    requires MonthIndex(a) < MonthIndex(b)
    ensures Before(a, b)
  {
  }

  /** The month step (lines 80-84 and 94-98): the month index moves by `k` with the year
      carried by floor division, the day is clamped to the target month's length, and the
      time of day is dropped; a target year outside 1..9999 raises. */
  function MonthStep(t: DateTime, k: int): (r: Result<DateTime, string>)
    requires ValidDateTime(t)
    ensures r.Ok? <==> MinYear <= (MonthIndex(t.date) + k) / 12 <= MaxYear
    ensures r.Ok? ==>
      && ValidDateTime(r.value) && r.value == Midnight(r.value.date)
      && MonthIndex(r.value.date) == MonthIndex(t.date) + k
      && r.value.date.day == Min(t.date.day, DaysInMonth(r.value.date.year, r.value.date.month))
    ensures r.Err? ==> r.error == YearError((MonthIndex(t.date) + k) / 12)
  {
    var month0 := t.date.month - 1 + k;
    var year := t.date.year + month0 / 12;
    var month := month0 % 12 + 1;
    assert year * 12 + month - 1 == MonthIndex(t.date) + k;
    assert year == (MonthIndex(t.date) + k) / 12;
    NewDateTime(year, month, Min(t.date.day, DaysInMonth(year, month)), 0, 0, 0, 0)
  }

  /** The month lengths of a common year, the list of line 86. */
  function CommonYearDays(m: int): int
  {
    if m == 2 then 28 else if m == 4 || m == 6 || m == 9 || m == 11 then 30 else 31
  }

  /** The clamp of line 86: 29 for February of a leap target year, else the common-year list. */
  function YearStepLimit(year: int, month: int): int
  {
    if IsLeap(year) && month == 2 then 29 else CommonYearDays(month)
  }

  /** The year step's clamp is the true length of the month in the target year. */
  lemma YearStepLimitIsMonthLength(year: int, month: int)
    ensures YearStepLimit(year, month) == DaysInMonth(year, month)
  {
  }

  /** The year step (lines 86 and 100): same month, target year `year + k`, day clamped to
      the month's length there, time of day dropped; a year outside 1..9999 raises. */
  function YearStep(t: DateTime, k: int): (r: Result<DateTime, string>)
    requires ValidDateTime(t)
    ensures r.Ok? <==> MinYear <= t.date.year + k <= MaxYear
    ensures r.Ok? ==>
      && ValidDateTime(r.value)
      && r.value == Midnight(Date(t.date.year + k, t.date.month,
                                  Min(t.date.day, DaysInMonth(t.date.year + k, t.date.month))))
    ensures r.Err? ==> r.error == YearError(t.date.year + k)
  {
    var year := t.date.year + k;
    YearStepLimitIsMonthLength(year, t.date.month);
    NewDateTime(year, t.date.month, Min(t.date.day, YearStepLimit(year, t.date.month)), 0, 0, 0, 0)
  }

  /** The day step (lines 77 and 92): `t + timedelta(days=k)`, keeping the time of day. */
  function DayStep(t: DateTime, k: int): (r: Result<DateTime, string>)
    requires ValidDateTime(t)
    ensures r.Ok? <==> 1 <= Ordinal(t.date) + k <= MaxOrdinal
    ensures r.Ok? ==>
      ValidDateTime(r.value) && Ordinal(r.value.date) == Ordinal(t.date) + k
      && TimeOfDay(r.value) == TimeOfDay(t)
    ensures r.Err? ==> r.error == DateOverflow
  {
    match AddDays(t.date, k)
    case None => Err(DateOverflow)
    case Some(d) => Ok(t.(date := d))
  }

  predicate IsKnownUnit(unit: string)
  {
    unit == "day" || unit == "month" || unit == "year"
  }

  /** One period of `k` units from `t`: the first step (lines 76-86) and the loop body
      (lines 91-100) alike. Any other unit leaves the date where it is. */
  function Step(unit: string, k: int, t: DateTime): (r: Result<DateTime, string>)
    requires ValidDateTime(t)
    ensures r.Ok? ==> ValidDateTime(r.value)
    ensures !IsKnownUnit(unit) ==> r == Ok(t)
  {
    if unit == "day" then DayStep(t, k)
    else if unit == "month" then MonthStep(t, k)
    else if unit == "year" then YearStep(t, k)
    else Ok(t)
  }

  /** A step that really moves the date: a known unit and a non-zero count. */
  predicate Advances(unit: string, k: int)
  {
    IsKnownUnit(unit) && k != 0
  }

  /** A moving step goes forward for a positive count and backward for a negative one, by at
      least a day. */
  lemma StepMoves(unit: string, k: int, t: DateTime)
    requires ValidDateTime(t) && Advances(unit, k) && Step(unit, k, t).Ok?
    ensures var n := Step(unit, k, t).value;
      && (k > 0 ==> Ordinal(n.date) > Ordinal(t.date) && Less(t, n))
      && (k < 0 ==> Ordinal(n.date) < Ordinal(t.date) && Less(n, t))
  {
    var n := Step(unit, k, t).value;
    TimeOfDayBounds(t);
    TimeOfDayBounds(n);
    if unit == "month" {
      if k > 0 {
        MonthIndexBefore(t.date, n.date);
        OrdinalMonotone(t.date, n.date);
      } else {
        MonthIndexBefore(n.date, t.date);
        OrdinalMonotone(n.date, t.date);
      }
    } else if unit == "year" {
      if k > 0 {
        OrdinalMonotone(t.date, n.date);
      } else {
        OrdinalMonotone(n.date, t.date);
      }
    }
  }

  // ---------------------------------------------------------------------------
  // Rolling forward
  // ---------------------------------------------------------------------------

  function RollMeasure(k: int, e: DateTime): int
  {
    if k > 0 then MaxOrdinal - Ordinal(e.date) else Ordinal(e.date)
  }

  /** The roll-forward loop (lines 90-100) as the model runs it: while the expiry is before
      `now`, the plan recurs and a step moves the date, take another period. */
  function Roll(unit: string, k: int, recurring: bool, now: DateTime, e: DateTime): (r: Result<DateTime, string>)
    requires ValidDateTime(e)
    ensures r.Ok? ==> ValidDateTime(r.value)
    decreases RollMeasure(k, e)
  {
    OrdinalBounds(e.date);
    if !(Less(e, now) && recurring && Advances(unit, k)) then Ok(e)
    else
      match Step(unit, k, e)
      case Err(m) => Err(m)
      case Ok(next) =>
        StepMoves(unit, k, e);
        OrdinalBounds(next.date);
        Roll(unit, k, recurring, now, next)
  }

  /** When the plan recurs with a moving step, a successful roll ends at or after `now`. */
  lemma {:induction false} RollReachesNow(unit: string, k: int, now: DateTime, e: DateTime)
    requires ValidDateTime(e) && Advances(unit, k)
    requires Roll(unit, k, true, now, e).Ok?
    ensures !Less(Roll(unit, k, true, now, e).value, now)
    decreases RollMeasure(k, e)
  {
    OrdinalBounds(e.date);
    if Less(e, now) {
      var next := Step(unit, k, e).value;
      StepMoves(unit, k, e);
      OrdinalBounds(next.date);
      RollReachesNow(unit, k, now, next);
    }
  }

  /** A successful roll of a recurring plan with a moving step is the first period end not
      before `now`: the expiry itself when it is not past, else one step after a date that is. */
  lemma {:induction false} RollIsFirstEndAfterNow(unit: string, k: int, now: DateTime, e: DateTime)
    requires ValidDateTime(e) && Advances(unit, k)
    requires Roll(unit, k, true, now, e).Ok?
    ensures !Less(e, now) ==> Roll(unit, k, true, now, e).value == e
    ensures Less(e, now) ==>
      exists p :: ValidDateTime(p) && Less(p, now) && Step(unit, k, p) == Ok(Roll(unit, k, true, now, e).value)
    decreases RollMeasure(k, e)
  {
    OrdinalBounds(e.date);
    if Less(e, now) {
      var next := Step(unit, k, e).value;
      StepMoves(unit, k, e);
      OrdinalBounds(next.date);
      if Less(next, now) {
        RollIsFirstEndAfterNow(unit, k, now, next);
      } else {
        assert Step(unit, k, e) == Ok(Roll(unit, k, true, now, e).value);
      }
    }
  }

  /** A roll never ends before where it started. */
  lemma {:induction false} RollNotBackwardForPositive(unit: string, k: int, recurring: bool, now: DateTime, e: DateTime)
    requires ValidDateTime(e) && k > 0
    requires Roll(unit, k, recurring, now, e).Ok?
    ensures !Less(Roll(unit, k, recurring, now, e).value, e)
    decreases RollMeasure(k, e)
  {
    OrdinalBounds(e.date);
    if Less(e, now) && recurring && Advances(unit, k) {
      var next := Step(unit, k, e).value;
      StepMoves(unit, k, e);
      OrdinalBounds(next.date);
      RollNotBackwardForPositive(unit, k, recurring, now, next);
    }
  }

  /** A negative period steps backwards, away from `now`, until the year leaves 1..9999:
      a past expiry on a recurring plan with a negative count always raises. */
  lemma {:induction false} NegativePeriodRaises(unit: string, k: int, now: DateTime, e: DateTime)
    requires ValidDateTime(e) && IsKnownUnit(unit) && k < 0
    requires Less(e, now)
    ensures Roll(unit, k, true, now, e).Err?
    decreases RollMeasure(k, e)
  {
    OrdinalBounds(e.date);
    match Step(unit, k, e)
    case Err(_) =>
    case Ok(next) =>
      StepMoves(unit, k, e);
      OrdinalBounds(next.date);
      NegativePeriodRaises(unit, k, now, next);
  }

  /** Without recurrence the first period is the answer even when it is already past. */
  lemma NotRecurringKeepsFirstPeriod(unit: string, k: int, now: DateTime, e: DateTime)
    requires ValidDateTime(e)
    ensures Roll(unit, k, false, now, e) == Ok(e)
  {
  }

  lemma JanuaryEndSteps()
    ensures MonthStep(Midnight(Date(2023, 1, 31)), 1) == Ok(Midnight(Date(2023, 2, 28)))
  {
  }

  lemma FebruaryEndSteps()
    ensures MonthStep(Midnight(Date(2023, 2, 28)), 1) == Ok(Midnight(Date(2023, 3, 28)))
  {
  }

  /** Clamping compounds from the previous expiry, not from the start day: a monthly plan
      started on 31 January 2023 whose first period ends on 28 February rolls on to 28 March,
      not 31 March. */
  lemma ClampingCompounds()
    ensures Roll("month", 1, true, Midnight(Date(2023, 3, 15)), Midnight(Date(2023, 2, 28)))
      == Ok(Midnight(Date(2023, 3, 28)))
  {
    var feb, mar := Midnight(Date(2023, 2, 28)), Midnight(Date(2023, 3, 28));
    var now := Midnight(Date(2023, 3, 15));
    DaysBetweenMidnights(Date(2023, 3, 28), Date(2023, 3, 15));
    DaysBetweenSign(mar, now);
    DaysBetweenMidnights(Date(2023, 2, 28), Date(2023, 3, 15));
    DaysBetweenSign(feb, now);
    assert !Less(mar, now);
    assert Roll("month", 1, true, now, mar) == Ok(mar);
    FebruaryEndSteps();
    assert Step("month", 1, feb) == Ok(mar);
    assert Less(feb, now);
  }

  /** 29 February steps a year to 28 February of a common year and stays on the 29th in a
      leap year. */
  lemma LeapDayYearStep()
    ensures YearStep(Midnight(Date(2024, 2, 29)), 1) == Ok(Midnight(Date(2025, 2, 28)))
    ensures YearStep(Midnight(Date(2024, 2, 29)), 4) == Ok(Midnight(Date(2028, 2, 29)))
  {
  }

  // ---------------------------------------------------------------------------
  // calculate_expiry_date and days_remaining
  // ---------------------------------------------------------------------------

  /** What `calculate_expiry_date` produces: None without a start date, the isoformat text
      of the expiry, or the message of the exception it raises. */
  datatype Expiry = NoStart | Expires(iso: string) | Raises(error: string)

  /** `datetime.fromisoformat(text.replace('Z', '+00:00'))` */
  function ParseStored(text: string): Result<DateTime, string>
  {
    ParseIso(ReplaceAll(text, "Z", "+00:00"))
  }

  /** The expiry of lines 68-102, with the roll-forward loop stopping where a step would not
      move the date (see Findings). */
  function ExpiryOf(s: Subscription, now: DateTime): (r: Expiry)
    ensures s.startDate.None? || s.startDate == Some("") <==> r == NoStart
  {
    if s.startDate.None? || s.startDate.value == "" then NoStart
    else
      match ParseStored(s.startDate.value)
      case Err(m) => Raises(m)
      case Ok(start) =>
        match Step(s.periodUnit, s.periodValue, start)
        case Err(m) => Raises(m)
        case Ok(first) =>
          match Roll(s.periodUnit, s.periodValue, s.recurring, now, first)
          case Err(m) => Raises(m)
          case Ok(e) => Expires(FormatIso(e))
  }

  /** `calculate_expiry_date()`, the first period followed by the roll-forward loop. */
  method CalculateExpiryDate(s: Subscription, now: DateTime) returns (r: Expiry)
    ensures r == ExpiryOf(s, now)
  {
    if s.startDate.None? || s.startDate.value == "" {
      return NoStart;
    }
    var start := ParseStored(s.startDate.value);
    if start.Err? {
      return Raises(start.error);
    }
    var first := Step(s.periodUnit, s.periodValue, start.value);
    if first.Err? {
      return Raises(first.error);
    }
    var expiry := first.value;
    while Less(expiry, now) && s.recurring && Advances(s.periodUnit, s.periodValue)
      invariant ValidDateTime(expiry)
      invariant Roll(s.periodUnit, s.periodValue, s.recurring, now, expiry)
             == Roll(s.periodUnit, s.periodValue, s.recurring, now, first.value)
      decreases RollMeasure(s.periodValue, expiry)
    {
      OrdinalBounds(expiry.date);
      var next := Step(s.periodUnit, s.periodValue, expiry);
      if next.Err? {
        return Raises(next.error);
      }
      StepMoves(s.periodUnit, s.periodValue, expiry);
      OrdinalBounds(next.value.date);
      expiry := next.value;
    }
    return Expires(FormatIso(expiry));
  }

  /** `days_remaining()`: 0 without an expiry, otherwise the whole days from `now` to the
      expiry, rounded down, or the parse error. */
  function DaysRemaining(s: Subscription, now: DateTime): (r: Result<int, string>)
    ensures s.expiryDate.None? || s.expiryDate == Some("") ==> r == Ok(0)
    ensures r.Ok? && s.expiryDate.Some? && s.expiryDate.value != "" ==>
      var e := ParseStored(s.expiryDate.value);
      e.Ok? && (r.value < 0 <==> Less(e.value, now))
  {
    if s.expiryDate.None? || s.expiryDate.value == "" then Ok(0)
    else
      match ParseStored(s.expiryDate.value)
      case Err(m) => Err(m)
      case Ok(e) =>
        DaysBetweenSign(e, now);
        Ok(DaysBetween(e, now))
  }

  lemma FormatIsoHasNoZ(t: DateTime)
    requires ValidDateTime(t)
    ensures 'Z' !in FormatIso(t)
  {
    var s := FormatIso(t);
    forall k | 0 <= k < |s| ensures s[k] != 'Z' {
      var date, clock := FormatDate(t.date), FormatClock(t);
      assert AllDigits(Fixed(t.date.year, 4)) && AllDigits(Fixed(t.date.month, 2)) && AllDigits(Fixed(t.date.day, 2));
      assert AllDigits(Fixed(t.hour, 2)) && AllDigits(Fixed(t.minute, 2)) && AllDigits(Fixed(t.second, 2));
      assert forall j :: 0 <= j < |date| ==> date[j] == '-' || IsDigit(date[j]);
      assert forall j :: 0 <= j < |clock| ==> clock[j] == ':' || IsDigit(clock[j]);
      if t.micro != 0 {
        var frac := "." + Fixed(t.micro, 6);
        assert forall j :: 0 <= j < |frac| ==> frac[j] == '.' || IsDigit(frac[j]);
      }
    }
    assert forall k :: 0 <= k < |s| ==> s[k] != 'Z';
  }

  /** The stored expiry text reads back as the computed expiry. */
  lemma ParseStoredFormatIso(t: DateTime)
    requires ValidDateTime(t)
    ensures ParseStored(FormatIso(t)) == Ok(t)
  {
    FormatIsoHasNoZ(t);
    ReplaceAbsentChar(FormatIso(t), 'Z', "+00:00");
    ParseFormatIso(t);
  }

  /** Once the expiry of a recurring plan with a positive count has been calculated and
      stored, the remaining days are never negative. */
  lemma CalculatedExpiryIsNotPast(s: Subscription, now: DateTime)
    requires s.recurring && IsKnownUnit(s.periodUnit) && s.periodValue > 0
    requires ExpiryOf(s, now).Expires?
    ensures DaysRemaining(s.(expiryDate := Some(ExpiryOf(s, now).iso)), now).Ok?
    ensures DaysRemaining(s.(expiryDate := Some(ExpiryOf(s, now).iso)), now).value >= 0
  {
    var start := ParseStored(s.startDate.value).value;
    var first := Step(s.periodUnit, s.periodValue, start).value;
    var e := Roll(s.periodUnit, s.periodValue, true, now, first).value;
    RollReachesNow(s.periodUnit, s.periodValue, now, first);
    ParseStoredFormatIso(e);
    DaysBetweenSign(e, now);
  }

  // ---------------------------------------------------------------------------
  // The loop as written
  // ---------------------------------------------------------------------------

  /** The loop of lines 90-100 exactly as written, run for at most `fuel` iterations: Some
      with its outcome once the guard is false or a step raises, None while it still runs. */
  function LoopAsWritten(unit: string, k: int, recurring: bool, now: DateTime, e: DateTime, fuel: nat)
    : (r: Option<Result<DateTime, string>>)
    requires ValidDateTime(e)
    decreases fuel
  {
    if !(Less(e, now) && recurring) then Some(Ok(e))
    else if fuel == 0 then None
    else
      match Step(unit, k, e)
      case Err(m) => Some(Err(m))
      case Ok(next) => LoopAsWritten(unit, k, recurring, now, next, fuel - 1)
  }

  /** A step that leaves a past expiry where it is keeps the written loop running for ever. */
  lemma {:induction false} StalledLoopNeverExits(unit: string, k: int, now: DateTime, e: DateTime, fuel: nat)
    requires ValidDateTime(e) && Less(e, now) && Step(unit, k, e) == Ok(e)
    ensures LoopAsWritten(unit, k, true, now, e, fuel) == None
  {
    if fuel > 0 {
      StalledLoopNeverExits(unit, k, now, e, fuel - 1);
    }
  }

  /** A period count of zero stalls on every known unit once the expiry is at midnight, which
      the first month or year step guarantees. */
  lemma ZeroPeriodStalls(unit: string, d: Date)
    requires ValidDate(d) && IsKnownUnit(unit)
    ensures Step(unit, 0, Midnight(d)) == Ok(Midnight(d))
  {
    if unit == "month" {
      var r := MonthStep(Midnight(d), 0);
      assert r.Ok?;
      assert MonthIndex(r.value.date) == MonthIndex(d);
      assert r.value.date.year == d.year && r.value.date.month == d.month;
    }
  }

  /** A weekly plan, a unit the dashboard offers but the calculation does not know, whose
      start lies in the past never leaves the written loop. */
  lemma WeeklyPlanHangs(fuel: nat)
    ensures var start := Midnight(Date(2024, 1, 1));
      && Step("week", 1, start) == Ok(start)
      && LoopAsWritten("week", 1, true, Midnight(Date(2024, 6, 1)), start, fuel) == None
  {
    var start := Midnight(Date(2024, 1, 1));
    var now := Midnight(Date(2024, 6, 1));
    assert Less(start, now);
    StalledLoopNeverExits("week", 1, now, start, fuel);
  }

  /** Wherever a step moves the date, the written loop ends, and with the model's result:
      the two differ only by the stall. */
  lemma {:induction false} LoopAsWrittenAgrees(unit: string, k: int, recurring: bool, now: DateTime, e: DateTime, fuel: nat)
    requires ValidDateTime(e) && Advances(unit, k)
    requires fuel > RollMeasure(k, e)
    ensures LoopAsWritten(unit, k, recurring, now, e, fuel) == Some(Roll(unit, k, recurring, now, e))
    decreases RollMeasure(k, e)
  {
    OrdinalBounds(e.date);
    if Less(e, now) && recurring {
      match Step(unit, k, e)
      case Err(_) =>
      case Ok(next) =>
        StepMoves(unit, k, e);
        OrdinalBounds(next.date);
        LoopAsWrittenAgrees(unit, k, recurring, now, next, fuel - 1);
    }
  }
}
