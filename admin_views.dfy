/** The integer side of the two admin pages (app/routes/admin.py): the expiry text cut at its
    'T' and read as a date, the days left from today, the period label, the twelve trend
    months, and the status buckets of the dashboard. Costs and amounts are left out. */
module AdminViews {
  import opened Wrappers
  import opened Text
  import opened Calendar
  import opened Subscriptions
  import opened AdminTrend

  const SoonDays: int := 7
  const NoExpiry: string := "argument of type 'NoneType' is not iterable"

  /** Lines 22-25: the text before the first 'T', when there is one. */
  function TruncateAtT(s: string): (r: string)
    ensures 'T' !in r
    ensures |r| <= |s| && s[..|r|] == r
    ensures 'T' !in s ==> r == s
    ensures 'T' in s ==> s[|r|] == 'T'
  {
    if 'T' in s then TruncatePieces(s); Split(s, 'T')[0]
    else SplitNoSeparator(s, 'T'); s
  }

  lemma {:induction false} TruncatePieces(s: string)
    requires 'T' in s
    ensures |Split(s, 'T')[0]| < |s|
    ensures s[..|Split(s, 'T')[0]|] == Split(s, 'T')[0] && s[|Split(s, 'T')[0]|] == 'T'
  {
    if s[0] != 'T' {
      TruncatePieces(s[1..]);
    }
  }

  /** The piece before the first 'T' at index `k` is the text before `k`. */
  lemma FirstPiece(s: string, k: nat)
    requires k < |s| && s[k] == 'T' && 'T' !in s[..k]
    ensures Split(s, 'T')[0] == s[..k]
  {
    assert s == s[..k] + ['T'] + s[k + 1..];
    SplitAfterPiece(s[..k], 'T', s[k + 1..]);
  }

  /** An isoformat expiry, cut at its 'T' and read back, is its own date. */
  lemma TruncatedIsoIsDate(t: DateTime)
    requires ValidDateTime(t)
    ensures TruncateAtT(FormatIso(t)) == FormatDate(t.date)
    ensures ParseYmd(TruncateAtT(FormatIso(t))) == Ok(t.date)
  {
    var s := FormatIso(t);
    assert s[..10] == FormatDate(t.date);
    FirstPiece(s, 10);
    ParseYmdFormatDate(t.date);
  }

  /** The truncated expiry text and the days from today to it (lines 20-29, 95-103). */
  datatype Dated = Dated(expiry: string, daysLeft: int)

  function DateOf(s: Subscription, today: Date): (r: Result<Dated, string>)
    ensures r.Ok? ==> s.expiryDate.Some? && r.value.expiry == TruncateAtT(s.expiryDate.value)
    ensures r.Ok? ==>
      var e := ParseYmd(r.value.expiry);
      e.Ok? && r.value.daysLeft == Ordinal(e.value) - Ordinal(today)
    ensures s.expiryDate.None? ==> r == Err(NoExpiry)
  {
    if s.expiryDate.None? then Err(NoExpiry)
    else
      var text := TruncateAtT(s.expiryDate.value);
      match ParseYmd(text)
      case Err(m) => Err(m)
      case Ok(e) =>
        DaysBetweenMidnights(e, today);
        Ok(Dated(text, DaysBetween(Midnight(e), Midnight(today))))
  }

  /** The unit names of the index page (lines 32-37, which know weeks); others are shown as
      they are. */
  function UnitLabel(unit: string): (w: string)
    ensures unit !in {"day", "week", "month", "year"} ==> w == unit
  {
    if unit == "day" then "天" else if unit == "week" then "周" else if unit == "month" then "月"
    else if unit == "year" then "年" else unit
  }

  /** Line 38: `"<value> <label>"`. */
  function PeriodUnitLabel(s: Subscription): (l: string)
    ensures exists k :: 0 <= k < |l| && l[k] == ' ' && l[..k] == IntToString(s.periodValue) && l[k + 1..] == UnitLabel(s.periodUnit)
  {
    var v := IntToString(s.periodValue);
    var l := v + " " + UnitLabel(s.periodUnit);
    assert l[|v|] == ' ' && l[..|v|] == v && l[|v| + 1..] == UnitLabel(s.periodUnit);
    l
  }

  /** One row of the index page: the record with its expiry text cut, and the two added keys. */
  datatype Row = Row(sub: Subscription, daysLeft: int, periodUnitLabel: string)

  function RowOf(s: Subscription, today: Date): (r: Result<Row, string>)
    ensures DateOf(s, today).Err? <==> r.Err?
    ensures r.Ok? ==> r.value.sub == s.(expiryDate := Some(DateOf(s, today).value.expiry))
    ensures r.Ok? ==> r.value.daysLeft == DateOf(s, today).value.daysLeft
  {
    match DateOf(s, today)
    case Err(m) => Err(m)
    case Ok(d) => Ok(Row(s.(expiryDate := Some(d.expiry)), d.daysLeft, PeriodUnitLabel(s)))
  }

  /** `index()` (lines 13-40): every row, or the exception of the first record that fails. */
  method Index(subs: seq<Subscription>, today: Date) returns (r: Result<seq<Row>, string>)
    ensures r.Ok? <==> forall i :: 0 <= i < |subs| ==> RowOf(subs[i], today).Ok?
    ensures r.Ok? ==> |r.value| == |subs| && forall i :: 0 <= i < |subs| ==> r.value[i] == RowOf(subs[i], today).value
    ensures r.Err? ==> exists k :: 0 <= k < |subs| && RowOf(subs[k], today) == Err(r.error)
                                   && forall j :: 0 <= j < k ==> RowOf(subs[j], today).Ok?
  {
    var rows: seq<Row> := [];
    var i := 0;
    while i < |subs|
      invariant 0 <= i <= |subs| && |rows| == i
      invariant forall j :: 0 <= j < i ==> RowOf(subs[j], today).Ok? && rows[j] == RowOf(subs[j], today).value
    {
      var row := RowOf(subs[i], today);
      if row.Err? {
        return Err(row.error);
      }
      rows := rows + [row.value];
      i := i + 1;
    }
    r := Ok(rows);
  }

  // ---------------------------------------------------------------------------
  // The status buckets of the dashboard (lines 93-173)
  // ---------------------------------------------------------------------------

  /** The dated records, in order, or the exception of the first that fails. */
  function Survey(subs: seq<Subscription>, today: Date): Result<seq<Dated>, string>
  {
    if |subs| == 0 then Ok([])
    else
      match Survey(subs[..|subs| - 1], today)
      case Err(m) => Err(m)
      case Ok(ds) =>
        match DateOf(subs[|subs| - 1], today)
        case Err(m) => Err(m)
        case Ok(d) => Ok(ds + [d])
  }

  /** A survey that succeeds has one dated entry per record ... */
  lemma {:induction false} SurveyLength(subs: seq<Subscription>, today: Date)
    requires Survey(subs, today).Ok?
    ensures |Survey(subs, today).value| == |subs|
  {
    if |subs| > 0 {
      SurveyLength(subs[..|subs| - 1], today);
    }
  }

  /** ... and entry `i` is the dated form of record `i`. */
  lemma {:induction false} SurveyAt(subs: seq<Subscription>, i: nat, today: Date)
    requires Survey(subs, today).Ok? && i < |subs|
    ensures i < |Survey(subs, today).value| && DateOf(subs[i], today) == Ok(Survey(subs, today).value[i])
  {
    var n := |subs| - 1;
    var init := subs[..n];
    SurveyLength(init, today);
    var ds := Survey(init, today).value;
    assert Survey(subs, today).value == ds + [DateOf(subs[n], today).value];
    if i < n {
      SurveyAt(init, i, today);
      assert subs[i] == init[i];
    }
  }

  /** One more record either fails the survey or adds its dated entry. */
  lemma SurveySnoc(subs: seq<Subscription>, i: nat, today: Date)
    requires i < |subs| && Survey(subs[..i], today).Ok?
    ensures DateOf(subs[i], today).Err? ==> Survey(subs[..i + 1], today) == Err(DateOf(subs[i], today).error)
    ensures DateOf(subs[i], today).Ok? ==>
      Survey(subs[..i + 1], today) == Ok(Survey(subs[..i], today).value + [DateOf(subs[i], today).value])
  {
    assert subs[..i + 1][..i] == subs[..i];
  }

  /** A failure part way stays the outcome of the whole survey. */
  lemma {:induction false} SurveyFailurePersists(subs: seq<Subscription>, k: nat, today: Date)
    requires k <= |subs| && Survey(subs[..k], today).Err?
    ensures Survey(subs, today) == Survey(subs[..k], today)
    decreases |subs| - k
  {
    if k < |subs| {
      assert subs[..k + 1][..k] == subs[..k];
      SurveyFailurePersists(subs, k + 1, today);
    } else {
      assert subs[..k] == subs;
    }
  }

  function CountActive(ds: seq<Dated>): nat
  {
    if |ds| == 0 then 0 else CountActive(ds[..|ds| - 1]) + (if ds[|ds| - 1].daysLeft >= 0 then 1 else 0)
  }

  function CountSoon(ds: seq<Dated>): nat
  {
    if |ds| == 0 then 0 else CountSoon(ds[..|ds| - 1]) + (if 0 <= ds[|ds| - 1].daysLeft <= SoonDays then 1 else 0)
  }

  function CountLater(ds: seq<Dated>): nat
  {
    if |ds| == 0 then 0 else CountLater(ds[..|ds| - 1]) + (if ds[|ds| - 1].daysLeft > SoonDays then 1 else 0)
  }

  function CountExpired(ds: seq<Dated>): nat
  {
    if |ds| == 0 then 0 else CountExpired(ds[..|ds| - 1]) + (if ds[|ds| - 1].daysLeft < 0 then 1 else 0)
  }

  /** Every record lands in exactly one status bucket, and the active ones are the soon ones
      and the later ones. */
  lemma {:induction false} StatusPartition(ds: seq<Dated>)
    ensures CountLater(ds) + CountSoon(ds) + CountExpired(ds) == |ds|
    ensures CountActive(ds) == CountLater(ds) + CountSoon(ds)
  {
    if |ds| > 0 {
      StatusPartition(ds[..|ds| - 1]);
    }
  }

  /** An entry of `expiring_soon`; `description` is always empty, the records having none. */
  datatype SoonEntry = SoonEntry(id: string, name: Option<string>, description: string, expiryDate: string, daysLeft: int)

  function SoonList(subs: seq<Subscription>, ds: seq<Dated>): seq<SoonEntry>
    requires |subs| == |ds|
  {
    if |ds| == 0 then []
    else
      var n := |ds| - 1;
      SoonList(subs[..n], ds[..n])
      + (if 0 <= ds[n].daysLeft <= SoonDays then [SoonEntry(subs[n].id, subs[n].name, "", ds[n].expiry, ds[n].daysLeft)] else [])
  }

  lemma {:induction false} SoonListLength(subs: seq<Subscription>, ds: seq<Dated>)
    requires |subs| == |ds|
    ensures |SoonList(subs, ds)| == CountSoon(ds)
    ensures forall e :: e in SoonList(subs, ds) ==> 0 <= e.daysLeft <= SoonDays
  {
    if |ds| > 0 {
      SoonListLength(subs[..|ds| - 1], ds[..|ds| - 1]);
    }
  }

  /** The counters of the dashboard loop: `active_count`, the three `status_data` values
      and the `expiring_soon` list (whose length is `expiring_soon_count`). */
  datatype Counters = Counters(active: nat, soon: nat, later: nat, expired: nat, soonList: seq<SoonEntry>)

  function CountersOf(subs: seq<Subscription>, ds: seq<Dated>): Counters
    requires |subs| == |ds|
  {
    Counters(CountActive(ds), CountSoon(ds), CountLater(ds), CountExpired(ds), SoonList(subs, ds))
  }

  /** What one more dated record does to the counters. */
  function Count(c: Counters, s: Subscription, d: Dated): Counters
  {
    if d.daysLeft >= 0 then
      if d.daysLeft <= SoonDays then
        c.(active := c.active + 1, soon := c.soon + 1,
           soonList := c.soonList + [SoonEntry(s.id, s.name, "", d.expiry, d.daysLeft)])
      else c.(active := c.active + 1, later := c.later + 1)
    else c.(expired := c.expired + 1)
  }

  lemma CountersSnoc(subs: seq<Subscription>, ds: seq<Dated>, s: Subscription, d: Dated)
    requires |subs| == |ds|
    ensures CountersOf(subs + [s], ds + [d]) == Count(CountersOf(subs, ds), s, d)
  {
    assert (ds + [d])[..|ds|] == ds;
    assert (subs + [s])[..|subs|] == subs;
  }

  /** The integer parts of `stats`, with `status_data` as three values. */
  datatype Dashboard = Dashboard(
    totalCount: nat,
    activeCount: nat,
    expiringSoonCount: nat,
    expiringSoon: seq<SoonEntry>,
    statusActive: nat,
    statusSoon: nat,
    statusExpired: nat,
    trendLabels: seq<string>)

  lemma TakeOneMore<T>(s: seq<T>, i: nat)
    requires i < |s|
    ensures s[..i + 1] == s[..i] + [s[i]]
  {
  }

  /** The loop of lines 93-173: survey the records in order, counting each into its bucket. */
  method Tally(subs: seq<Subscription>, today: Date) returns (r: Result<Counters, string>)
    ensures r.Err? <==> Survey(subs, today).Err?
    ensures r.Err? ==> r.error == Survey(subs, today).error
    ensures r.Ok? ==> |Survey(subs, today).value| == |subs| && r.value == CountersOf(subs, Survey(subs, today).value)
  {
    var c := Counters(0, 0, 0, 0, []);
    ghost var ds: seq<Dated> := [];
    var i := 0;
    while i < |subs|
      invariant 0 <= i <= |subs| && |ds| == i
      invariant Survey(subs[..i], today) == Ok(ds)
      invariant c == CountersOf(subs[..i], ds)
    {
      var d := DateOf(subs[i], today);
      SurveySnoc(subs, i, today);
      if d.Err? {
        SurveyFailurePersists(subs, i + 1, today);
        return Err(d.error);
      }
      CountersSnoc(subs[..i], ds, subs[i], d.value);
      TakeOneMore(subs, i);
      c := Count(c, subs[i], d.value);
      ds := ds + [d.value];
      i := i + 1;
    }
    assert subs[..i] == subs;
    r := Ok(c);
  }

  /** `dashboard()` (lines 44-203) without the costs. */
  method BuildDashboard(subs: seq<Subscription>, today: Date) returns (r: Result<Dashboard, string>)
    requires ValidDate(today)
    ensures r.Err? <==> Survey(subs, today).Err?
    ensures r.Err? ==> r.error == Survey(subs, today).error
    ensures r.Ok? ==>
      var ds := Survey(subs, today).value;
      && |ds| == |subs|
      && r.value.totalCount == |subs|
      && r.value.activeCount == CountActive(ds)
      && r.value.expiringSoonCount == CountSoon(ds) == r.value.statusSoon
      && r.value.expiringSoon == SoonList(subs, ds)
      && r.value.statusActive == CountLater(ds)
      && r.value.statusExpired == CountExpired(ds)
    ensures r.Ok? ==>
      && r.value.statusActive + r.value.statusSoon + r.value.statusExpired == r.value.totalCount
      && r.value.activeCount == r.value.statusActive + r.value.statusSoon
      && |r.value.expiringSoon| == r.value.expiringSoonCount
      && |r.value.trendLabels| == 12
    ensures r.Ok? ==> forall i :: 0 <= i < 12 ==> r.value.trendLabels[i] == TrendLabel(today.year, today.month, i)
    ensures r.Ok? ==> forall i, j :: 0 <= i < j < 12 ==> r.value.trendLabels[i] != r.value.trendLabels[j]
  {
    var labels := TrendLabels(today);
    var tally := Tally(subs, today);
    if tally.Err? {
      return Err(tally.error);
    }
    var c := tally.value;
    ghost var ds := Survey(subs, today).value;
    StatusPartition(ds);
    SoonListLength(subs, ds);
    r := Ok(Dashboard(|subs|, c.active, c.soon, c.soonList, c.later, c.soon, c.expired, labels));
  }
}
