/** The subscription service (app/services/subscription_service.py) over the JSON file of
    saved records, held here as a sequence. Every operation starts by loading the file,
    which passes each saved dictionary through `from_dict`, and the mutating ones write the
    loaded list back with their change. */
module SubscriptionStore {
  import opened Wrappers
  import opened Text
  import opened Calendar
  import opened Subscriptions

  const NameRequired: string := "名称不能为空"
  const StartRequired: string := "开始日期不能为空"
  const NotFound: string := "订阅不存在"
  const CreateFailed: string := "创建订阅失败: "
  const UpdateFailed: string := "更新订阅失败: "
  const OtherType: string := "其他"
  const NoPaymentMethod: string := "未指定"

  /** The JSON body of a create or update request; None is an absent key. */
  datatype Request = Request(
    name: Option<string>,
    customType: Option<string>,
    notes: Option<string>,
    startDate: Option<string>,
    periodValue: Option<int>,
    periodUnit: Option<string>,
    reminderDays: Option<int>,
    isActive: Option<bool>,
    amount: Option<real>,
    paymentMethod: Option<string>,
    recurring: Option<bool>)

  predicate Truthy(x: Option<string>)
  {
    x.Some? && x.value != ""
  }

  /** The fields a reload never has to invent: a saved record always carries them. */
  predicate Identified(s: Subscription)
  {
    s.id != "" && s.createdAt != "" && s.updatedAt != ""
  }

  /** Loading one saved record: `from_dict(saved.to_dict())`. */
  function Reload(s: Subscription): (r: Subscription)
    requires Identified(s)
    ensures Normal(r) && Identified(r)
    ensures Normal(s) ==> r == s
    ensures r.id == s.id && r.name == s.name && r.startDate == s.startDate && r.expiryDate == s.expiryDate
  {
    New(ToDict(s), "", "")
  }

  function LoadAll(xs: seq<Subscription>): (r: seq<Subscription>)
    requires forall i :: 0 <= i < |xs| ==> Identified(xs[i])
    ensures |r| == |xs| && forall i :: 0 <= i < |xs| ==> r[i] == Reload(xs[i])
  {
    seq(|xs|, i requires 0 <= i < |xs| => Reload(xs[i]))
  }

  /** The first position holding `id`. */
  function FindId(xs: seq<Subscription>, id: string): (r: Option<nat>)
    ensures r.Some? ==> r.value < |xs| && xs[r.value].id == id
    ensures r.Some? ==> forall j :: 0 <= j < r.value ==> xs[j].id != id
    ensures r.None? <==> forall j :: 0 <= j < |xs| ==> xs[j].id != id
  {
    if |xs| == 0 then None
    else if xs[0].id == id then Some(0)
    else
      match FindId(xs[1..], id)
      case None => None
      case Some(j) => Some(j + 1)
  }

  /** `[s for s in xs if s.id != id]` */
  function Without(xs: seq<Subscription>, id: string): (r: seq<Subscription>)
    ensures |r| <= |xs|
    ensures forall s :: s in r <==> s in xs && s.id != id
  {
    if |xs| == 0 then []
    else (if xs[0].id == id then [] else [xs[0]]) + Without(xs[1..], id)
  }

  /** Filtering distributes over concatenation, so the records it keeps stay in their order. */
  lemma {:induction false} WithoutAppend(xs: seq<Subscription>, ys: seq<Subscription>, id: string)
    ensures Without(xs + ys, id) == Without(xs, id) + Without(ys, id)
    decreases |xs|
  {
    if |xs| > 0 {
      assert (xs + ys)[1..] == xs[1..] + ys;
      WithoutAppend(xs[1..], ys, id);
    } else {
      assert xs + ys == ys;
    }
  }

  /** Filtering removes something exactly when some record has the id, and otherwise keeps
      the list as it is. */
  lemma {:induction false} WithoutShrinks(xs: seq<Subscription>, id: string)
    ensures |Without(xs, id)| == |xs| <==> forall j :: 0 <= j < |xs| ==> xs[j].id != id
    ensures (forall j :: 0 <= j < |xs| ==> xs[j].id != id) ==> Without(xs, id) == xs
  {
    if |xs| > 0 {
      WithoutShrinks(xs[1..], id);
      assert forall j :: 1 <= j < |xs| ==> xs[j] == xs[1..][j - 1];
      if forall j :: 0 <= j < |xs| ==> xs[j].id != id {
        assert [xs[0]] + xs[1..] == xs;
      }
    }
  }

  /** The record create_subscription builds (lines 45-57), before its expiry is computed. */
  function Draft(data: Request, freshId: string, nowText: string): (s: Subscription)
    ensures s.id == freshId && s.name == data.name && s.startDate == data.startDate
    ensures s.expiryDate.None?
  {
    New(Fields(
          id := None,
          name := data.name,
          customType := data.customType,
          notes := data.notes,
          startDate := data.startDate,
          expiryDate := None,
          periodValue := Some(data.periodValue.GetOr(DefaultPeriodValue)),
          periodUnit := Some(data.periodUnit.GetOr(DefaultPeriodUnit)),
          reminderDays := Some(data.reminderDays.GetOr(DefaultReminderDays)),
          isActive := Some(data.isActive.GetOr(true)),
          amount := Some(data.amount.GetOr(0.0)),
          paymentMethod := Some(data.paymentMethod.GetOr("")),
          recurring := Some(data.recurring.GetOr(true)),
          createdAt := None,
          updatedAt := None),
        freshId, nowText)
  }

  /** Lines 90-114 on the matching record: name always, custom type, notes and start date
      falling back on the current value, and each of the other seven fields only when its
      key is present. */
  function Patched(s: Subscription, data: Request): (r: Subscription)
    ensures r.id == s.id && r.createdAt == s.createdAt && r.expiryDate == s.expiryDate
    ensures r.name == data.name
    ensures data.periodValue.None? ==> r.periodValue == s.periodValue
    ensures data.periodUnit.None? ==> r.periodUnit == s.periodUnit
    ensures data.reminderDays.None? ==> r.reminderDays == s.reminderDays
    ensures data.isActive.None? ==> r.isActive == s.isActive
    ensures data.amount.None? ==> r.amount == s.amount
    ensures data.paymentMethod.None? ==> r.paymentMethod == s.paymentMethod
    ensures data.recurring.None? ==> r.recurring == s.recurring
    ensures data.startDate.None? ==> r.startDate == s.startDate
  {
    s.(name := data.name,
       customType := data.customType.GetOr(s.customType),
       notes := data.notes.GetOr(s.notes),
       startDate := if data.startDate.Some? then data.startDate else s.startDate,
       periodValue := data.periodValue.GetOr(s.periodValue),
       periodUnit := data.periodUnit.GetOr(s.periodUnit),
       reminderDays := data.reminderDays.GetOr(s.reminderDays),
       isActive := data.isActive.GetOr(s.isActive),
       amount := data.amount.GetOr(s.amount),
       paymentMethod := data.paymentMethod.GetOr(s.paymentMethod),
       recurring := data.recurring.GetOr(s.recurring))
  }

  /** Lines 116-120: the expiry recalculated whenever the patched record has a start date,
      then the update time; or the message of the exception the calculation raised. */
  function Revised(s: Subscription, data: Request, now: DateTime): (r: Result<Subscription, string>)
    requires ValidDateTime(now)
    ensures r.Ok? ==> r.value == Patched(s, data).(expiryDate := r.value.expiryDate, updatedAt := FormatIso(now))
    ensures r.Ok? && !Truthy(Patched(s, data).startDate) ==> r.value.expiryDate == s.expiryDate
    ensures Truthy(Patched(s, data).startDate) ==>
      match ExpiryOf(Patched(s, data), now)
      case Expires(iso) => r.Ok? && r.value.expiryDate == Some(iso)
      case Raises(m) => r == Err(m)
      case NoStart => false
  {
    var p := Patched(s, data);
    if !Truthy(p.startDate) then Ok(p.(updatedAt := FormatIso(now)))
    else if ExpiryOf(p, now).Raises? then Err(ExpiryOf(p, now).error)
    else Ok(p.(expiryDate := Some(ExpiryOf(p, now).iso), updatedAt := FormatIso(now)))
  }

  /** An update may set a period count of zero: line 96 converts it without the `or 1` of the
      constructor. A recurring monthly plan started in the past then stalls the written loop for
      ever, while the model's calculation stops at the first period (see Findings). */
  lemma ZeroPeriodUpdateHangs(s: Subscription, data: Request, fuel: nat)
    requires data.periodValue == Some(0) && data.periodUnit == Some("month") && data.recurring == Some(true)
    requires data.startDate == Some(FormatIso(Midnight(Date(2024, 1, 1))))
    ensures var p := Patched(s, data);
      var start := Midnight(Date(2024, 1, 1));
      var now := Midnight(Date(2024, 6, 1));
      && p.periodValue == 0 && p.recurring
      && ParseStored(p.startDate.value) == Ok(start)
      && Step(p.periodUnit, p.periodValue, start) == Ok(start)
      && LoopAsWritten(p.periodUnit, p.periodValue, p.recurring, now, start, fuel) == None
      && ExpiryOf(p, now) == Expires(FormatIso(start))
  {
    var start := Midnight(Date(2024, 1, 1));
    var now := Midnight(Date(2024, 6, 1));
    ParseStoredFormatIso(start);
    ZeroPeriodStalls("month", Date(2024, 1, 1));
    assert Less(start, now);
    StalledLoopNeverExits("month", 0, now, start, fuel);
  }

  /** The file after `update_subscription(id, data)`: the first match replaced by its revision,
      and nothing written on any error. */
  function AfterUpdate(saved: seq<Subscription>, id: string, data: Request, now: DateTime): (r: seq<Subscription>)
    requires forall i :: 0 <= i < |saved| ==> Identified(saved[i])
    requires ValidDateTime(now)
    ensures forall i :: 0 <= i < |r| ==> Identified(r[i])
    ensures |r| == |saved|
  {
    var xs := LoadAll(saved);
    match FindId(xs, id)
    case None => saved
    case Some(i) =>
      if !Truthy(data.name) then saved
      else match Revised(xs[i], data, now)
        case Err(_) => saved
        case Ok(u) => xs[i := u]
  }

  // ---------------------------------------------------------------------------
  // Statistics: first-seen counters
  // ---------------------------------------------------------------------------

  function Sum(entries: seq<(string, nat)>): nat
  {
    if |entries| == 0 then 0 else entries[0].1 + Sum(entries[1..])
  }

  /** The position of `key` among the counters. */
  function KeyIndex(entries: seq<(string, nat)>, key: string): (r: Option<nat>)
    ensures r.Some? ==> r.value < |entries| && entries[r.value].0 == key
    ensures r.Some? ==> forall q :: 0 <= q < r.value ==> entries[q].0 != key
    ensures r.None? <==> forall p :: 0 <= p < |entries| ==> entries[p].0 != key
  {
    if |entries| == 0 then None
    else if entries[0].0 == key then Some(0)
    else
      match KeyIndex(entries[1..], key)
      case None => None
      case Some(p) => Some(p + 1)
  }

  /** `stats[key] += 1` on an existing key, `stats[key] = 1` on a new one, which a Python
      dict places after the keys it already has. */
  function Bump(entries: seq<(string, nat)>, key: string): seq<(string, nat)>
  {
    match KeyIndex(entries, key)
    case Some(p) => entries[p := (key, entries[p].1 + 1)]
    case None => entries + [(key, 1)]
  }

  /** The counter dict after counting every key, in insertion order. */
  function Counts(labels: seq<string>): seq<(string, nat)>
  {
    if |labels| == 0 then [] else Bump(Counts(labels[..|labels| - 1]), labels[|labels| - 1])
  }

  lemma {:induction false} SumUpdate(entries: seq<(string, nat)>, p: nat, e: (string, nat))
    requires p < |entries|
    ensures Sum(entries[p := e]) == Sum(entries) - entries[p].1 + e.1
  {
    if p > 0 {
      assert entries[p := e][1..] == entries[1..][p - 1 := e];
      SumUpdate(entries[1..], p - 1, e);
    } else {
      assert entries[p := e][1..] == entries[1..];
    }
  }

  lemma {:induction false} SumSnoc(entries: seq<(string, nat)>, e: (string, nat))
    ensures Sum(entries + [e]) == Sum(entries) + e.1
  {
    if |entries| > 0 {
      assert (entries + [e])[1..] == entries[1..] + [e];
      SumSnoc(entries[1..], e);
    }
  }

  predicate DistinctKeys(entries: seq<(string, nat)>)
  {
    forall p, q :: 0 <= p < q < |entries| ==> entries[p].0 != entries[q].0
  }

  /** The last label either bumps the counter it already has or adds one at the end. */
  lemma CountsSnoc(labels: seq<string>)
    requires |labels| > 0
    ensures var init, last := labels[..|labels| - 1], labels[|labels| - 1];
      labels == init + [last]
      && Counts(labels) == Bump(Counts(init), last)
  {
  }

  lemma {:induction false} CountsSum(labels: seq<string>)
    ensures Sum(Counts(labels)) == |labels|
  {
    if |labels| > 0 {
      var init, last := labels[..|labels| - 1], labels[|labels| - 1];
      CountsSum(init);
      var before := Counts(init);
      match KeyIndex(before, last)
      case Some(p) => SumUpdate(before, p, (last, before[p].1 + 1));
      case None => SumSnoc(before, (last, 1));
    }
  }

  lemma {:induction false} CountsKeys(labels: seq<string>)
    ensures forall x :: x in labels <==> exists p :: 0 <= p < |Counts(labels)| && Counts(labels)[p].0 == x
  {
    if |labels| > 0 {
      var init, last := labels[..|labels| - 1], labels[|labels| - 1];
      CountsSnoc(labels);
      CountsKeys(init);
      var before := Counts(init);
      var after := Counts(labels);
      forall x
        ensures x in labels <==> exists q :: 0 <= q < |after| && after[q].0 == x
      {
        match KeyIndex(before, last)
        case Some(p) =>
          assert after == before[p := (last, before[p].1 + 1)];
          if x in init {
            var q :| 0 <= q < |before| && before[q].0 == x;
            assert after[q].0 == x;
          }
          if x == last {
            assert after[p].0 == x;
          }
        case None =>
          assert after == before + [(last, 1)];
          if x == last {
            assert after[|before|].0 == x;
          } else if x in init {
            var q :| 0 <= q < |before| && before[q].0 == x;
            assert after[q].0 == x;
          } else {
            assert forall q :: 0 <= q < |after| ==> after[q].0 != x;
          }
      }
    }
  }

  lemma {:induction false} CountsDistinct(labels: seq<string>)
    ensures DistinctKeys(Counts(labels))
  {
    if |labels| > 0 {
      var init, last := labels[..|labels| - 1], labels[|labels| - 1];
      CountsSnoc(labels);
      CountsDistinct(init);
    }
  }

  lemma {:induction false} CountsMultiplicity(labels: seq<string>)
    ensures forall p :: 0 <= p < |Counts(labels)| ==> Counts(labels)[p].1 == multiset(labels)[Counts(labels)[p].0]
  {
    if |labels| > 0 {
      var init, last := labels[..|labels| - 1], labels[|labels| - 1];
      CountsSnoc(labels);
      CountsMultiplicity(init);
      CountsDistinct(init);
      var before := Counts(init);
      assert multiset(labels) == multiset(init) + multiset{last};
      match KeyIndex(before, last)
      case Some(p) =>
      case None =>
        CountsKeys(init);
        assert last !in init;
    }
  }

  /** The counters of `type_stats` and `payment_stats`: one per distinct key, each holding
      how often its key occurs, adding up to the number of labels. */
  lemma CountsMeaning(labels: seq<string>)
    ensures Sum(Counts(labels)) == |labels|
    ensures DistinctKeys(Counts(labels))
    ensures forall p :: 0 <= p < |Counts(labels)| ==> Counts(labels)[p].1 == multiset(labels)[Counts(labels)[p].0]
    ensures forall x :: x in labels <==> exists p :: 0 <= p < |Counts(labels)| && Counts(labels)[p].0 == x
  {
    CountsSum(labels);
    CountsDistinct(labels);
    CountsMultiplicity(labels);
    CountsKeys(labels);
  }

  // ---------------------------------------------------------------------------
  // Statistics: expiry buckets
  // ---------------------------------------------------------------------------

  datatype Buckets = Buckets(soon: nat, normal: nat, expired: nat)

  /** Lines 228-238 over the active records, in order: the remaining days of each put it in
      one bucket; the first record whose expiry text does not parse raises. */
  function ExpiryBuckets(xs: seq<Subscription>, now: DateTime): Result<Buckets, string>
  {
    if |xs| == 0 then Ok(Buckets(0, 0, 0))
    else if !xs[0].isActive then ExpiryBuckets(xs[1..], now)
    else
      match DaysRemaining(xs[0], now)
      case Err(m) => Err(m)
      case Ok(days) =>
        match ExpiryBuckets(xs[1..], now)
        case Err(m) => Err(m)
        case Ok(b) =>
          if days < 0 then Ok(b.(expired := b.expired + 1))
          else if days <= xs[0].reminderDays then Ok(b.(soon := b.soon + 1))
          else Ok(b.(normal := b.normal + 1))
  }

  function ActiveCount(xs: seq<Subscription>): nat
  {
    if |xs| == 0 then 0 else (if xs[0].isActive then 1 else 0) + ActiveCount(xs[1..])
  }

  /** Every active record lands in exactly one bucket. */
  lemma {:induction false} BucketsCoverActive(xs: seq<Subscription>, now: DateTime)
    requires ExpiryBuckets(xs, now).Ok?
    ensures var b := ExpiryBuckets(xs, now).value; b.soon + b.normal + b.expired == ActiveCount(xs)
  {
    if |xs| > 0 {
      BucketsCoverActive(xs[1..], now);
    }
  }

  function TypeLabels(xs: seq<Subscription>): (r: seq<string>)
    ensures |r| == |xs|
  {
    seq(|xs|, i requires 0 <= i < |xs| => if xs[i].customType != "" then xs[i].customType else OtherType)
  }

  function PaymentLabels(xs: seq<Subscription>): (r: seq<string>)
    ensures |r| == |xs|
  {
    seq(|xs|, i requires 0 <= i < |xs| => if xs[i].paymentMethod != "" then xs[i].paymentMethod else NoPaymentMethod)
  }

  /** The integer parts of the statistics: the type and payment-method counters, the expiry
      buckets, and the two totals. */
  datatype Statistics = Statistics(
    typeCounts: seq<(string, nat)>,
    paymentCounts: seq<(string, nat)>,
    expiry: Buckets,
    totalCount: nat,
    activeCount: nat)

  /** One counting loop of lines 190-196 and 219-224. */
  method Tally(labels: seq<string>) returns (entries: seq<(string, nat)>)
    ensures entries == Counts(labels)
  {
    entries := [];
    var i := 0;
    while i < |labels|
      invariant 0 <= i <= |labels|
      invariant entries == Counts(labels[..i])
    {
      assert labels[..i + 1][..i] == labels[..i];
      assert Counts(labels[..i + 1]) == Bump(entries, labels[i]);
      match KeyIndex(entries, labels[i]) {
        case Some(p) =>
          entries := entries[p := (labels[i], entries[p].1 + 1)];
        case None =>
          entries := entries + [(labels[i], 1)];
      }
      i := i + 1;
    }
    assert labels[..i] == labels;
  }

  /** A bucket count `acc` added to a result that may be an exception. */
  function Plus(r: Result<Buckets, string>, acc: Buckets): Result<Buckets, string>
  {
    match r
    case Err(m) => Err(m)
    case Ok(b) => Ok(Buckets(b.soon + acc.soon, b.normal + acc.normal, b.expired + acc.expired))
  }

  /** `acc` with the bucket of a record `days` from expiry, reminded `reminderDays` ahead,
      counted once more. */
  function Tick(acc: Buckets, days: int, reminderDays: int): (next: Buckets)
    ensures next.soon + next.normal + next.expired == acc.soon + acc.normal + acc.expired + 1
  {
    if days < 0 then acc.(expired := acc.expired + 1)
    else if days <= reminderDays then acc.(soon := acc.soon + 1)
    else acc.(normal := acc.normal + 1)
  }

  lemma BucketsStep(ys: seq<Subscription>, now: DateTime, acc: Buckets)
    requires |ys| > 0
    ensures !ys[0].isActive ==> Plus(ExpiryBuckets(ys, now), acc) == Plus(ExpiryBuckets(ys[1..], now), acc)
    ensures ys[0].isActive && DaysRemaining(ys[0], now).Err? ==>
      Plus(ExpiryBuckets(ys, now), acc) == Err(DaysRemaining(ys[0], now).error)
    ensures ys[0].isActive && DaysRemaining(ys[0], now).Ok? ==>
      Plus(ExpiryBuckets(ys, now), acc)
      == Plus(ExpiryBuckets(ys[1..], now), Tick(acc, DaysRemaining(ys[0], now).value, ys[0].reminderDays))
  {
  }

  /** The I/O-free checks of lines 228-238: the same buckets as ExpiryBuckets, by a loop. */
  method CountBuckets(xs: seq<Subscription>, now: DateTime) returns (r: Result<Buckets, string>)
    ensures r == ExpiryBuckets(xs, now)
  {
    var acc := Buckets(0, 0, 0);
    var i := 0;
    assert Plus(ExpiryBuckets(xs, now), acc) == ExpiryBuckets(xs, now);
    while i < |xs|
      invariant 0 <= i <= |xs|
      invariant ExpiryBuckets(xs, now) == Plus(ExpiryBuckets(xs[i..], now), acc)
    {
      BucketsStep(xs[i..], now, acc);
      assert xs[i..][1..] == xs[i + 1..];
      if xs[i].isActive {
        var days := DaysRemaining(xs[i], now);
        if days.Err? {
          return Err(days.error);
        }
        if days.value < 0 {
          acc := acc.(expired := acc.expired + 1);
        } else if days.value <= xs[i].reminderDays {
          acc := acc.(soon := acc.soon + 1);
        } else {
          acc := acc.(normal := acc.normal + 1);
        }
      }
      i := i + 1;
    }
    r := Ok(acc);
  }

  class SubscriptionStore {
    /** The records of the JSON file, as written by the last save. */
    var saved: seq<Subscription>

    predicate Valid()
      reads this
    {
      forall i :: 0 <= i < |saved| ==> Identified(saved[i])
    }

    /** No file yet: `get_all_subscriptions()` is empty. */
    constructor()
      ensures Valid() && saved == []
    {
      saved := [];
    }

    /** `get_all_subscriptions()` */
    function Loaded(): (r: seq<Subscription>)
      reads this
      requires Valid()
      ensures forall i :: 0 <= i < |r| ==> Normal(r[i]) && Identified(r[i])
      ensures |r| == |saved|
    {
      LoadAll(saved)
    }

    /** `get_subscription(id)` (lines 29-35): the first loaded record with that id. */
    function GetSubscription(id: string): (r: Option<Subscription>)
      reads this
      requires Valid()
      ensures r.None? <==> forall j :: 0 <= j < |Loaded()| ==> Loaded()[j].id != id
      ensures r.Some? ==> r.value.id == id && r.value in Loaded()
      ensures r.Some? ==> exists i :: 0 <= i < |Loaded()| && Loaded()[i] == r.value
                                     && forall j :: 0 <= j < i ==> Loaded()[j].id != id
    {
      match FindId(Loaded(), id)
      case None => None
      case Some(i) => Some(Loaded()[i])
    }

    /** The loop of lines 83-84 and 154-155: the first position holding `id`. */
    static method Locate(xs: seq<Subscription>, id: string) returns (r: Option<nat>)
      ensures r == FindId(xs, id)
    {
      var i := 0;
      while i < |xs| && xs[i].id != id
        invariant 0 <= i <= |xs|
        invariant forall j :: 0 <= j < i ==> xs[j].id != id
      {
        i := i + 1;
      }
      if i < |xs| {
        r := Some(i);
      } else {
        r := None;
      }
    }

    /** `create_subscription(data)` (lines 37-75). */
    method CreateSubscription(data: Request, freshId: string, now: DateTime) returns (r: Result<Subscription, string>)
      requires Valid() && freshId != "" && ValidDateTime(now)
      modifies this
      ensures Valid()
      ensures !Truthy(data.name) ==> r == Err(NameRequired) && saved == old(saved)
      ensures Truthy(data.name) && !Truthy(data.startDate) ==> r == Err(StartRequired) && saved == old(saved)
      ensures Truthy(data.name) && Truthy(data.startDate) ==>
        var draft := Draft(data, freshId, FormatIso(now));
        match ExpiryOf(draft, now)
        case Raises(m) => r == Err(CreateFailed + m) && saved == old(saved)
        case Expires(iso) => r == Ok(draft.(expiryDate := Some(iso))) && saved == old(Loaded()) + [r.value]
        case NoStart => false
      ensures r.Ok? ==> Normal(r.value) && r.value.id == freshId
    {
      if !Truthy(data.name) {
        return Err(NameRequired);
      }
      var draft := Draft(data, freshId, FormatIso(now));
      if !Truthy(draft.startDate) {
        return Err(StartRequired);
      }
      var expiry := CalculateExpiryDate(draft, now);
      if expiry.Raises? {
        return Err(CreateFailed + expiry.error);
      }
      var created := draft.(expiryDate := if expiry.Expires? then Some(expiry.iso) else None);
      saved := Loaded() + [created];
      r := Ok(created);
    }

    /** `update_subscription(id, data)` (lines 77-130). */
    method UpdateSubscription(id: string, data: Request, now: DateTime) returns (r: Result<Subscription, string>)
      requires Valid() && ValidDateTime(now)
      modifies this
      ensures Valid()
      ensures FindId(old(Loaded()), id).None? ==> r == Err(NotFound) && saved == old(saved)
      ensures FindId(old(Loaded()), id).Some? ==>
        var i := FindId(old(Loaded()), id).value;
        if !Truthy(data.name) then r == Err(NameRequired) && saved == old(saved)
        else match Revised(old(Loaded())[i], data, now)
          case Err(m) => r == Err(UpdateFailed + m) && saved == old(saved)
          case Ok(u) => r == Ok(u) && saved == old(Loaded())[i := u]
      ensures saved == AfterUpdate(old(saved), id, data, now)
    {
      var xs := Loaded();
      var found := Locate(xs, id);
      if found.None? {
        return Err(NotFound);
      }
      var i := found.value;
      if !Truthy(data.name) {
        return Err(NameRequired);
      }
      var patched := Patched(xs[i], data);
      if Truthy(patched.startDate) {
        var expiry := CalculateExpiryDate(patched, now);
        if expiry.Raises? {
          return Err(UpdateFailed + expiry.error);
        }
        if expiry.Expires? {
          patched := patched.(expiryDate := Some(expiry.iso));
        }
      }
      patched := patched.(updatedAt := FormatIso(now));
      saved := xs[i := patched];
      r := Ok(patched);
    }

    /** `delete_subscription(id)` (lines 132-147). */
    method DeleteSubscription(id: string) returns (r: Result<(), string>)
      requires Valid()
      modifies this
      ensures Valid()
      ensures (forall j :: 0 <= j < |old(Loaded())| ==> old(Loaded())[j].id != id) ==>
        r == Err(NotFound) && saved == old(saved)
      ensures (exists j :: 0 <= j < |old(Loaded())| && old(Loaded())[j].id == id) ==>
        r == Ok(()) && saved == Without(old(Loaded()), id)
    {
      var xs := Loaded();
      var kept := Without(xs, id);
      WithoutShrinks(xs, id);
      if |kept| == |xs| {
        return Err(NotFound);
      }
      saved := kept;
      r := Ok(());
    }

    /** `toggle_subscription_status(id, is_active)` (lines 149-167). */
    method ToggleSubscriptionStatus(id: string, isActive: bool, now: DateTime) returns (r: Result<Subscription, string>)
      requires Valid() && ValidDateTime(now)
      modifies this
      ensures Valid()
      ensures FindId(old(Loaded()), id).None? ==> r == Err(NotFound) && saved == old(saved)
      ensures FindId(old(Loaded()), id).Some? ==>
        var i := FindId(old(Loaded()), id).value;
        var u := old(Loaded())[i].(isActive := isActive, updatedAt := FormatIso(now));
        r == Ok(u) && saved == old(Loaded())[i := u]
    {
      var xs := Loaded();
      var found := Locate(xs, id);
      if found.None? {
        return Err(NotFound);
      }
      var i := found.value;
      var u := xs[i].(isActive := isActive, updatedAt := FormatIso(now));
      saved := xs[i := u];
      r := Ok(u);
    }

    /** The integer parts of `get_subscription_statistics()` (lines 184-252). */
    method GetStatistics(now: DateTime) returns (r: Result<Statistics, string>)
      requires Valid()
      ensures r.Err? <==> ExpiryBuckets(Loaded(), now).Err?
      ensures r.Ok? ==>
        && r.value.typeCounts == Counts(TypeLabels(Loaded()))
        && r.value.paymentCounts == Counts(PaymentLabels(Loaded()))
        && r.value.expiry == ExpiryBuckets(Loaded(), now).value
        && r.value.totalCount == |Loaded()|
        && r.value.activeCount == ActiveCount(Loaded())
      ensures r.Ok? ==>
        && Sum(r.value.typeCounts) == r.value.totalCount
        && Sum(r.value.paymentCounts) == r.value.totalCount
        && r.value.expiry.soon + r.value.expiry.normal + r.value.expiry.expired == r.value.activeCount
    {
      var xs := Loaded();
      var types := Tally(TypeLabels(xs));
      var payments := Tally(PaymentLabels(xs));
      var buckets := CountBuckets(xs, now);
      if buckets.Err? {
        return Err(buckets.error);
      }
      CountsMeaning(TypeLabels(xs));
      CountsMeaning(PaymentLabels(xs));
      BucketsCoverActive(xs, now);
      r := Ok(Statistics(types, payments, buckets.value, |xs|, ActiveCount(xs)));
    }
  }
}
