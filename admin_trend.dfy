/** The month axis of the dashboard's trend (app/routes/admin.py, lines 82-90): the current
    month and the eleven after it, each labelled `YYYY-MM`. */
module AdminTrend {
  import opened Text
  import opened Calendar

  /** Month `i` of the trend, counting from the current one. */
  function TrendMonth(year: int, month: int, i: int): (ym: (int, int))
    ensures 1 <= ym.1 <= 12
  {
    (year + (month + i - 1) / 12, (month + i - 1) % 12 + 1)
  }

  /** `f"{year}-{month:02d}"` */
  function MonthLabel(year: int, month: nat): string
  {
    IntToString(year) + "-" + Pad2(month)
  }

  /** The trend starts at the current month and each month is followed by the next one. */
  lemma TrendConsecutive(year: int, month: int, i: int)
    requires 1 <= month <= 12 && i >= 0
    ensures TrendMonth(year, month, 0) == (year, month)
    ensures var (y, m) := TrendMonth(year, month, i);
      TrendMonth(year, month, i + 1) == if m == 12 then (y + 1, 1) else (y, m + 1)
  {
    var n := month + i - 1;
    assert n + 1 == (n / 12) * 12 + n % 12 + 1;
    if n % 12 == 11 {
      assert (n + 1) / 12 == n / 12 + 1 && (n + 1) % 12 == 0;
    } else {
      assert (n + 1) / 12 == n / 12 && (n + 1) % 12 == n % 12 + 1;
    }
  }

  /** Twelve consecutive months are twelve different months. */
  lemma TrendMonthsDistinct(year: int, month: int, i: int, j: int)
    requires 1 <= month <= 12 && 0 <= i < j < 12
    ensures TrendMonth(year, month, i) != TrendMonth(year, month, j)
  {
    var a, b := month + i - 1, month + j - 1;
    assert a == (a / 12) * 12 + a % 12 && b == (b / 12) * 12 + b % 12;
    assert 0 < b - a < 12;
  }

  /** The text before the '-' of a label is the year; after it, the two-digit month. */
  lemma MonthLabelParts(year: nat, month: nat)
    requires month < 100
    ensures var l := MonthLabel(year, month);
      |l| >= 4 && Split(l, '-') == [NatToString(year), Pad2(month)]
  {
    var y, m := NatToString(year), Pad2(month);
    assert '-' !in y by {
      forall k | 0 <= k < |y| ensures y[k] != '-' {
        assert IsDigit(y[k]);
      }
    }
    Pad2Value(month);
    assert '-' !in m by {
      forall k | 0 <= k < |m| ensures m[k] != '-' {
        assert IsDigit(m[k]);
      }
    }
    assert MonthLabel(year, month) == y + ['-'] + m;
    SplitAfterPiece(y, '-', m);
    SplitNoSeparator(m, '-');
  }

  /** Different months get different labels, so the twelve keys of `monthly_expenses` are
      twelve different keys. */
  lemma MonthLabelInjective(y1: nat, m1: nat, y2: nat, m2: nat)
    requires m1 < 100 && m2 < 100
    requires MonthLabel(y1, m1) == MonthLabel(y2, m2)
    ensures y1 == y2 && m1 == m2
  {
    MonthLabelParts(y1, m1);
    MonthLabelParts(y2, m2);
    assert NatToString(y1) == NatToString(y2) && Pad2(m1) == Pad2(m2);
    DigitsOfNat(y1);
    DigitsOfNat(y2);
    Pad2Value(m1);
    Pad2Value(m2);
  }

  /** Label `i` of the trend. */
  function TrendLabel(year: int, month: int, i: int): string
  {
    MonthLabel(TrendMonth(year, month, i).0, TrendMonth(year, month, i).1)
  }

  /** The twelve labels are twelve different texts. */
  lemma TrendLabelsDistinct(year: int, month: int, i: int, j: int)
    requires year >= 1 && 1 <= month <= 12 && 0 <= i < j < 12
    ensures TrendLabel(year, month, i) != TrendLabel(year, month, j)
  {
    var (y1, m1) := TrendMonth(year, month, i);
    var (y2, m2) := TrendMonth(year, month, j);
    TrendMonthsDistinct(year, month, i, j);
    assert y1 >= 0 && y2 >= 0;
    if TrendLabel(year, month, i) == TrendLabel(year, month, j) {
      MonthLabelInjective(y1, m1, y2, m2);
    }
  }

  /** The first `n` labels of the trend. */
  function TrendPrefix(year: int, month: int, n: nat): (ls: seq<string>)
    ensures |ls| == n
  {
    if n == 0 then [] else TrendPrefix(year, month, n - 1) + [TrendLabel(year, month, n - 1)]
  }

  lemma {:induction false} TrendPrefixAt(year: int, month: int, n: nat, k: nat)
    requires k < n
    ensures TrendPrefix(year, month, n)[k] == TrendLabel(year, month, k)
  {
    SnocAt(TrendPrefix(year, month, n - 1), TrendLabel(year, month, n - 1), k);
    if k < n - 1 {
      TrendPrefixAt(year, month, n - 1, k);
    }
  }

  lemma SnocAt<T>(s: seq<T>, x: T, k: nat)
    requires k <= |s|
    ensures (s + [x])[k] == if k < |s| then s[k] else x
  {
  }

  /** The label loop of lines 85-90. */
  method TrendLabels(today: Date) returns (labels: seq<string>)
    requires 1 <= today.month <= 12 && today.year >= 1
    ensures |labels| == 12
    ensures forall i :: 0 <= i < 12 ==> labels[i] == TrendLabel(today.year, today.month, i)
    ensures forall i, j :: 0 <= i < j < 12 ==> labels[i] != labels[j]
  {
    labels := [];
    var i := 0;
    while i < 12
      invariant 0 <= i <= 12
      invariant labels == TrendPrefix(today.year, today.month, i)
    {
      var (year, monthIdx) := TrendMonth(today.year, today.month, i);
      labels := labels + [MonthLabel(year, monthIdx)];
      i := i + 1;
    }
    forall i | 0 <= i < 12
      ensures labels[i] == TrendLabel(today.year, today.month, i)
    {
      TrendPrefixAt(today.year, today.month, 12, i);
    }
    forall i, j | 0 <= i < j < 12
      ensures labels[i] != labels[j]
    {
      TrendLabelsDistinct(today.year, today.month, i, j);
    }
  }
}
