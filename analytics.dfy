/** The order metrics of analysis/metrics.py and their older copies in analysis/utils.py,
    over the rows `load_order_data` returns. Money stays in integer minor units (the
    source divides by 100 into floats), a missing value (NaN, NaT) is `None`, and a
    timestamp is a naive count of seconds since 1970-01-01 00:00. */
module Analytics {
  import opened Wrappers

  // ---------------------------------------------------------------- calendar

  type Instant = int

  const SecondsPerDay := 86400

  /** `dt.date`, as a day number. */
  function Day(t: Instant): int
  {
    t / SecondsPerDay
  }

  function SecondOfDay(t: Instant): (s: nat)
    ensures s < SecondsPerDay
  {
    t % SecondsPerDay
  }

  /** `dt.dayofweek`: Monday is 0, and 1970-01-01 was a Thursday. */
  function DayOfWeek(t: Instant): (d: nat)
    ensures d < 7
  {
    (Day(t) + 3) % 7
  }

  /** `dt.hour * 60 + dt.minute`. */
  function MinuteOfDay(t: Instant): (m: nat)
    ensures m < 1440
  {
    SecondOfDay(t) / 3600 * 60 + SecondOfDay(t) / 60 % 60
  }

  // ---------------------------------------------------------------- rows

  /** One row of the frame the metrics read, with the columns they use. */
  datatype SaleRow = SaleRow(orderId: Option<int>, itemQuantity: Option<int>, itemPrice: Option<int>,
                             itemCost: Option<int>, modifierPrice: Option<int>, modifierQuantity: Option<int>,
                             placed: Option<Instant>, updated: Option<Instant>,
                             startPrepping: Option<Instant>, prepareFor: Option<Instant>)

  datatype TimeColumn = Placed | Updated | StartPrepping | PrepareFor

  function At(r: SaleRow, col: TimeColumn): Option<Instant>
  {
    match col
    case Placed => r.placed
    case Updated => r.updated
    case StartPrepping => r.startPrepping
    case PrepareFor => r.prepareFor
  }

  /** What the metrics raise: the `ValueError` the code raises itself, `pd.cut` refusing bin edges
      that do not strictly increase (a `ValueError` with pandas's own message), and the
      `TypeError` of iterating `None` or of calendar arithmetic on NaT. */
  datatype PyError = ValueError(message: string) | BadBins | TypeError

  // ---------------------------------------------------------------- split_weekdays_and_weekends

  /** `df[df[time_col].dt.dayofweek < 5]`. A missing timestamp compares false. */
  function Weekdays(rows: seq<SaleRow>, col: TimeColumn): (r: seq<SaleRow>)
    ensures forall x :: x in r ==> At(x, col).Some? && DayOfWeek(At(x, col).value) < 5
  {
    if rows == [] then []
    else
      var t := At(rows[0], col);
      (if t.Some? && DayOfWeek(t.value) < 5 then [rows[0]] else []) + Weekdays(rows[1..], col)
  }

  /** `df[df[time_col].dt.dayofweek >= 5]`. */
  function Weekend(rows: seq<SaleRow>, col: TimeColumn): (r: seq<SaleRow>)
    ensures forall x :: x in r ==> At(x, col).Some? && DayOfWeek(At(x, col).value) >= 5
  {
    if rows == [] then []
    else
      var t := At(rows[0], col);
      (if t.Some? && DayOfWeek(t.value) >= 5 then [rows[0]] else []) + Weekend(rows[1..], col)
  }

  /** The rows with no timestamp in `col`. */
  function Undated(rows: seq<SaleRow>, col: TimeColumn): (r: seq<SaleRow>)
    ensures forall x :: x in r ==> At(x, col).None?
  {
    if rows == [] then []
    else (if At(rows[0], col).None? then [rows[0]] else []) + Undated(rows[1..], col)
  }

  function SplitWeekdaysAndWeekends(rows: seq<SaleRow>, col: TimeColumn): (r: (seq<SaleRow>, seq<SaleRow>))
    ensures r.0 == Weekdays(rows, col) && r.1 == Weekend(rows, col)
  {
    (Weekdays(rows, col), Weekend(rows, col))
  }

  /** Every dated row lands in exactly one of the two parts, and a row with no timestamp in
      neither. */
  lemma {:induction false} SplitPartition(rows: seq<SaleRow>, col: TimeColumn)
    ensures var (weekdays, weekend) := SplitWeekdaysAndWeekends(rows, col);
      multiset(weekdays) + multiset(weekend) + multiset(Undated(rows, col)) == multiset(rows)
  {
    if rows != [] {
      SplitPartition(rows[1..], col);
      SplitStep(rows, col);
    }
  }

  /** Boolean indexing keeps row order: filtering a concatenation is the concatenation of
      the filtered parts, so each part lists its rows in the frame's order. */
  lemma {:induction false} SplitKeepsOrder(a: seq<SaleRow>, b: seq<SaleRow>, col: TimeColumn)
    ensures Weekdays(a + b, col) == Weekdays(a, col) + Weekdays(b, col)
    ensures Weekend(a + b, col) == Weekend(a, col) + Weekend(b, col)
  {
    WeekdaysAppend(a, b, col);
    WeekendAppend(a, b, col);
  }

  lemma {:induction false} WeekdaysAppend(a: seq<SaleRow>, b: seq<SaleRow>, col: TimeColumn)
    ensures Weekdays(a + b, col) == Weekdays(a, col) + Weekdays(b, col)
  {
    if a == [] {
      assert a + b == b;
    } else {
      var ab := a + b;
      assert ab[0] == a[0] && ab[1..] == a[1..] + b;
      var t := At(a[0], col);
      var head: seq<SaleRow> := if t.Some? && DayOfWeek(t.value) < 5 then [a[0]] else [];
      calc {
        Weekdays(ab, col);
        head + Weekdays(a[1..] + b, col);
        { WeekdaysAppend(a[1..], b, col); }
        head + (Weekdays(a[1..], col) + Weekdays(b, col));
        (head + Weekdays(a[1..], col)) + Weekdays(b, col);
        Weekdays(a, col) + Weekdays(b, col);
      }
    }
  }

  lemma {:induction false} WeekendAppend(a: seq<SaleRow>, b: seq<SaleRow>, col: TimeColumn)
    ensures Weekend(a + b, col) == Weekend(a, col) + Weekend(b, col)
  {
    if a == [] {
      assert a + b == b;
    } else {
      var ab := a + b;
      assert ab[0] == a[0] && ab[1..] == a[1..] + b;
      var t := At(a[0], col);
      var head: seq<SaleRow> := if t.Some? && DayOfWeek(t.value) >= 5 then [a[0]] else [];
      calc {
        Weekend(ab, col);
        head + Weekend(a[1..] + b, col);
        { WeekendAppend(a[1..], b, col); }
        head + (Weekend(a[1..], col) + Weekend(b, col));
        (head + Weekend(a[1..], col)) + Weekend(b, col);
        Weekend(a, col) + Weekend(b, col);
      }
    }
  }

  /** What the first row adds to each part. */
  lemma SplitStep(rows: seq<SaleRow>, col: TimeColumn)
    requires rows != []
    ensures var x, rest, t := rows[0], rows[1..], At(rows[0], col);
      && multiset(rows) == multiset{x} + multiset(rest)
      && multiset(Weekdays(rows, col)) ==
           (if t.Some? && DayOfWeek(t.value) < 5 then multiset{x} else multiset{}) + multiset(Weekdays(rest, col))
      && multiset(Weekend(rows, col)) ==
           (if t.Some? && DayOfWeek(t.value) >= 5 then multiset{x} else multiset{}) + multiset(Weekend(rest, col))
      && multiset(Undated(rows, col)) ==
           (if t.None? then multiset{x} else multiset{}) + multiset(Undated(rest, col))
  {
    assert rows == [rows[0]] + rows[1..];
  }

  // ---------------------------------------------------------------- calculate_revenue

  /** `fillna(0)`. */
  function Fill(v: Option<int>): int
  {
    if v.Some? then v.value else 0
  }

  /** `order_value` of a row after `fillna(0)`, in minor units. */
  function RowValue(r: SaleRow): int
  {
    Fill(r.itemPrice) * Fill(r.itemQuantity) + Fill(r.modifierPrice) * Fill(r.modifierQuantity)
  }

  /** The sum of `order_value` over the rows of order `id` (after `fillna(0)`). */
  function OrderTotal(rows: seq<SaleRow>, id: int): int
  {
    if rows == [] then 0
    else (if Fill(rows[0].orderId) == id then RowValue(rows[0]) else 0) + OrderTotal(rows[1..], id)
  }

  datatype RevenueRow = RevenueRow(orderId: int, itemQuantity: int, itemPrice: int, modifierPrice: int,
                                   modifierQuantity: int, placed: Instant, orderValue: int, revenue: int)

  /** `calculate_revenue`: the six selected columns of a copy with every NaN and NaT as 0
      (a missing placement time becomes instant 0, 1970-01-01 00:00), each row's
      `order_value`, and on every row the `revenue` of its whole order. */
  function CalculateRevenue(rows: seq<SaleRow>): (r: seq<RevenueRow>)
    ensures |r| == |rows|
    ensures forall i :: 0 <= i < |rows| ==>
      && r[i].orderId == Fill(rows[i].orderId) && r[i].itemQuantity == Fill(rows[i].itemQuantity)
      && r[i].itemPrice == Fill(rows[i].itemPrice) && r[i].modifierPrice == Fill(rows[i].modifierPrice)
      && r[i].modifierQuantity == Fill(rows[i].modifierQuantity) && r[i].placed == Fill(rows[i].placed)
      && r[i].orderValue == RowValue(rows[i])
      && r[i].revenue == OrderTotal(rows, r[i].orderId)
  {
    seq(|rows|, i requires 0 <= i < |rows| =>
      var x := rows[i];
      RevenueRow(Fill(x.orderId), Fill(x.itemQuantity), Fill(x.itemPrice), Fill(x.modifierPrice),
                 Fill(x.modifierQuantity), Fill(x.placed), RowValue(x), OrderTotal(rows, Fill(x.orderId))))
  }

  /** Order totals add up over any split of the rows. */
  lemma {:induction false} OrderTotalAppend(a: seq<SaleRow>, b: seq<SaleRow>, id: int)
    ensures OrderTotal(a + b, id) == OrderTotal(a, id) + OrderTotal(b, id)
  {
    if a != [] {
      OrderTotalAppend(a[1..], b, id);
      assert (a + b)[0] == a[0] && (a + b)[1..] == a[1..] + b;
    } else {
      assert a + b == b;
    }
  }

  /** With no negative prices or quantities, an order's revenue is at least the value of each
      of its rows, and equals it when the row is the order's only one. */
  lemma {:induction false} RevenueCoversRow(rows: seq<SaleRow>, i: nat)
    requires i < |rows|
    requires forall j :: 0 <= j < |rows| ==> RowValue(rows[j]) >= 0
    ensures OrderTotal(rows, Fill(rows[i].orderId)) >= RowValue(rows[i])
    ensures (forall j :: 0 <= j < |rows| && j != i ==> Fill(rows[j].orderId) != Fill(rows[i].orderId)) ==>
              OrderTotal(rows, Fill(rows[i].orderId)) == RowValue(rows[i])
  {
    var id := Fill(rows[i].orderId);
    OrderTotalAppend(rows[..i], rows[i..], id);
    OrderTotalAppend([rows[i]], rows[i + 1..], id);
    assert rows == rows[..i] + rows[i..];
    assert rows[i..] == [rows[i]] + rows[i + 1..];
    OrderTotalNonNegative(rows[..i], id);
    OrderTotalNonNegative(rows[i + 1..], id);
    if forall j :: 0 <= j < |rows| && j != i ==> Fill(rows[j].orderId) != id {
      OrderTotalNone(rows[..i], id);
      OrderTotalNone(rows[i + 1..], id);
    }
  }

  lemma {:induction false} OrderTotalNonNegative(rows: seq<SaleRow>, id: int)
    requires forall j :: 0 <= j < |rows| ==> RowValue(rows[j]) >= 0
    ensures OrderTotal(rows, id) >= 0
  {
    if rows != [] {
      OrderTotalNonNegative(rows[1..], id);
    }
  }

  lemma {:induction false} OrderTotalNone(rows: seq<SaleRow>, id: int)
    requires forall j :: 0 <= j < |rows| ==> Fill(rows[j].orderId) != id
    ensures OrderTotal(rows, id) == 0
  {
    if rows != [] {
      OrderTotalNone(rows[1..], id);
    }
  }

  // ---------------------------------------------------------------- interval index

  /** Python's `//`: the floor of the quotient, for either sign of the divisor. */
  function FloorDiv(a: int, b: int): (q: int)
    requires b != 0
    ensures b > 0 ==> q * b <= a < (q + 1) * b
    ensures b < 0 ==> (q + 1) * b < a <= q * b
  {
    if b > 0 then a / b else (-a) / (-b)
  }

  /** `(dt.hour * 60 + dt.minute) // interval`. */
  function IntervalIndex(t: Instant, interval: int): (k: int)
    requires interval != 0
    ensures interval > 0 ==> 0 <= k <= 1439 / interval
    ensures interval > 0 ==> k * interval <= MinuteOfDay(t) < (k + 1) * interval
  {
    var k := FloorDiv(MinuteOfDay(t), interval);
    if interval > 0 then
      IndexBounds(MinuteOfDay(t), interval, k); k
    else k
  }

  lemma IndexBounds(m: nat, d: int, k: int)
    requires m <= 1439 && d > 0
    requires k * d <= m < (k + 1) * d
    ensures 0 <= k <= 1439 / d
  {
    MulMono(k, 1439 / d + 1, d);
    MulMono(0, k + 1, d);
  }

  /** Multiplying by a non-negative factor keeps the order. */
  lemma MulMono(x: int, y: int, d: int)
    ensures x >= y && d >= 0 ==> x * d >= y * d
  {
    if x >= y && d >= 0 {
      assert x * d - y * d == (x - y) * d;
    }
  }

  // ---------------------------------------------------------------- day periods

  /** A time of day in whole seconds after midnight: what `dt.time` and a parsed bin edge hold. */
  type TimeOfDay = s: int | 0 <= s < SecondsPerDay

  /** Strictly increasing edges, at least one. */
  predicate StrictBins(b: seq<int>)
  {
    |b| >= 1 && forall i, j :: 0 <= i < j < |b| ==> b[i] < b[j]
  }

  /** Bin edges `pd.cut` accepts: they must not decrease (else "bins must increase
      monotonically"), and a repeated edge is refused as not unique unless there are exactly
      two edges, so `[t, t]` is accepted as one empty-looking bin. */
  predicate ValidBins(b: seq<int>)
  {
    StrictBins(b) || (|b| == 2 && b[0] == b[1])
  }

  /** `pd.cut(.., bins=b)`: bin k is `(b[k], b[k+1]]`. The left-closed call passes
      `right=False, include_lowest=True`: bin k is `[b[k], b[k+1])`, and a time equal to the
      lowest edge is put in bin 0 in any case. */
  predicate InBin(b: seq<int>, k: nat, s: int, right: bool)
    requires k + 1 < |b|
  {
    if right then b[k] < s <= b[k + 1] else b[k] <= s < b[k + 1] || (k == 0 && s == b[0])
  }

  /** The bin a second of the day falls in, searching from bin `k`. */
  function FindBin(b: seq<int>, s: int, right: bool, k: nat): (r: Option<nat>)
    ensures r.Some? ==> k <= r.value && r.value + 1 < |b| && InBin(b, r.value, s, right)
    ensures r.None? ==> forall j :: k <= j && j + 1 < |b| ==> !InBin(b, j, s, right)
    decreases |b| - k
  {
    if k + 1 >= |b| then None
    else if InBin(b, k, s, right) then Some(k)
    else FindBin(b, s, right, k + 1)
  }

  /** The bin of a row's placement time; NaT falls in none. */
  function RowBin(b: seq<int>, r: SaleRow, right: bool): Option<nat>
  {
    if r.placed.None? then None else FindBin(b, SecondOfDay(r.placed.value), right, 0)
  }

  /** Bins of strictly increasing edges do not overlap. */
  lemma BinUnique(b: seq<int>, s: int, right: bool, j: nat, k: nat)
    requires ValidBins(b) && j + 1 < |b| && k + 1 < |b|
    requires InBin(b, j, s, right) && InBin(b, k, s, right)
    ensures j == k
  {
  }

  /** The bin `pd.cut` gives a row is the one bin holding its time. */
  lemma RowBinExact(b: seq<int>, r: SaleRow, right: bool, k: nat)
    requires ValidBins(b) && k + 1 < |b|
    ensures RowBin(b, r, right) == Some(k) <==> r.placed.Some? && InBin(b, k, SecondOfDay(r.placed.value), right)
  {
    if r.placed.Some? && InBin(b, k, SecondOfDay(r.placed.value), right) {
      var f := FindBin(b, SecondOfDay(r.placed.value), right, 0);
      BinUnique(b, SecondOfDay(r.placed.value), right, f.value, k);
    }
  }

  /** The bins together cover exactly the span between the outer edges: `(b[0], b[n-1]]`, or
      `[b[0], b[n-1])` and the lowest edge itself when left-closed. */
  lemma {:induction false} FindBinCovers(b: seq<int>, s: int, right: bool, k: nat)
    requires ValidBins(b) && k < |b|
    ensures FindBin(b, s, right, k).Some? <==>
      if right then b[k] < s <= b[|b| - 1] else b[k] <= s < b[|b| - 1] || (k == 0 && |b| >= 2 && s == b[0])
    decreases |b| - k
  {
    if k + 1 < |b| && !InBin(b, k, s, right) {
      FindBinCovers(b, s, right, k + 1);
    }
  }

  // ---------------------------------------------------------------- interval labels

  function Digit(n: nat): char
    requires n < 10
  {
    "0123456789"[n]
  }

  function Pad2(n: nat): string
    requires n < 100
  {
    [Digit(n / 10), Digit(n % 10)]
  }

  /** `str(time)` of a whole-second `datetime.time`: `HH:MM:SS`. */
  function TimeText(s: TimeOfDay): (t: string)
    ensures |t| == 8
  {
    Pad2(s / 3600) + ":" + Pad2(s / 60 % 60) + ":" + Pad2(s % 60)
  }

  function DigitValue(c: char): int
  {
    c as int - '0' as int
  }

  /** Reads back an `HH:MM:SS` text. */
  function ReadTimeText(t: string): int
    requires |t| == 8
  {
    (DigitValue(t[0]) * 10 + DigitValue(t[1])) * 3600 + (DigitValue(t[3]) * 10 + DigitValue(t[4])) * 60
      + DigitValue(t[6]) * 10 + DigitValue(t[7])
  }

  /** The text of a time of day determines it. */
  lemma TimeTextRoundTrip(s: TimeOfDay)
    ensures ReadTimeText(TimeText(s)) == s
  {
    var t := TimeText(s);
    Pad2RoundTrip(s / 3600);
    Pad2RoundTrip(s / 60 % 60);
    Pad2RoundTrip(s % 60);
    assert t[0..2] == Pad2(s / 3600) && t[3..5] == Pad2(s / 60 % 60) && t[6..8] == Pad2(s % 60);
    ClockSplit(s);
  }

  /** Hours, minutes and seconds put back together. */
  lemma ClockSplit(s: nat)
    ensures s == s / 3600 * 3600 + s / 60 % 60 * 60 + s % 60
  {
    var h, r := s / 3600, s % 3600;
    assert s / 60 == h * 60 + r / 60;
    assert s / 60 % 60 == r / 60;
    assert s % 60 == r % 60;
  }

  lemma Pad2RoundTrip(n: nat)
    requires n < 100
    ensures DigitValue(Pad2(n)[0]) * 10 + DigitValue(Pad2(n)[1]) == n
  {
    DigitRoundTrip(n / 10);
    DigitRoundTrip(n % 10);
  }

  lemma DigitRoundTrip(d: nat)
    requires d < 10
    ensures DigitValue(Digit(d)) == d
  {
  }

  /** `f"{time_intervals[i]} to {time_intervals[i+1]}"`. */
  function Label(b: seq<TimeOfDay>, k: nat): string
    requires k + 1 < |b|
  {
    TimeText(b[k]) + " to " + TimeText(b[k + 1])
  }

  /** `n` edges give `n - 1` labels, one per bin. */
  function IntervalLabels(b: seq<TimeOfDay>): (labels: seq<string>)
    requires |b| >= 1
    ensures |labels| == |b| - 1
    ensures forall k :: 0 <= k < |labels| ==> labels[k] == Label(b, k)
  {
    seq(|b| - 1, k requires 0 <= k < |b| - 1 => Label(b, k))
  }

  /** Each label starts with the text of its bin's lower edge, so valid edges give distinct
      labels (which `pd.cut` needs of its `labels`). */
  lemma LabelsDistinct(b: seq<TimeOfDay>, j: nat, k: nat)
    requires ValidBins(b) && j + 1 < |b| && k + 1 < |b| && j != k
    ensures IntervalLabels(b)[j] != IntervalLabels(b)[k]
  {
    assert Label(b, j)[..8] == TimeText(b[j]);
    assert Label(b, k)[..8] == TimeText(b[k]);
    TimeTextRoundTrip(b[j]);
    TimeTextRoundTrip(b[k]);
  }

  // ---------------------------------------------------------------- sums per day period

  /** `order_value` before any `fillna`: NaN when any of its four columns is. */
  function RawValue(r: SaleRow): (v: Option<int>)
    ensures v.Some? <==> r.itemPrice.Some? && r.itemQuantity.Some? && r.modifierPrice.Some? && r.modifierQuantity.Some?
    ensures v.Some? ==> v.value == RowValue(r)
  {
    if r.itemPrice.None? || r.itemQuantity.None? || r.modifierPrice.None? || r.modifierQuantity.None? then None
    else Some(r.itemPrice.value * r.itemQuantity.value + r.modifierPrice.value * r.modifierQuantity.value)
  }

  /** `order_value - item_fractional_cost`: the cost once per row, whatever the quantity. */
  function RawProfit(r: SaleRow): (v: Option<int>)
    ensures v.Some? <==> RawValue(r).Some? && r.itemCost.Some?
    ensures v.Some? ==> v.value == RowValue(r) - r.itemCost.value
  {
    if RawValue(r).None? || r.itemCost.None? then None else Some(RawValue(r).value - r.itemCost.value)
  }

  /** What a day-period sum adds up: the value or profit as the code computes them, or with
      missing columns read as 0 as `calculate_revenue` does. */
  datatype Measure = Value | Profit | FilledValue | FilledProfit

  function RowMeasure(r: SaleRow, m: Measure): Option<int>
  {
    match m
    case Value => RawValue(r)
    case Profit => RawProfit(r)
    case FilledValue => Some(RowValue(r))
    case FilledProfit => Some(RowValue(r) - Fill(r.itemCost))
  }

  /** What one row adds to the sum of bin k: `sum()` skips NaN. */
  function Contribution(r: SaleRow, b: seq<int>, k: nat, m: Measure): int
  {
    if RowBin(b, r, true) == Some(k) && RowMeasure(r, m).Some? then RowMeasure(r, m).value else 0
  }

  /** `groupby("interval_label")[col].sum()` for bin k of the right-closed cut. */
  function BinSum(rows: seq<SaleRow>, b: seq<int>, k: nat, m: Measure): int
  {
    if rows == [] then 0 else Contribution(rows[0], b, k, m) + BinSum(rows[1..], b, k, m)
  }

  /** The bins from k on that hold at least one row: `observed=True` keeps only these. */
  function ObservedFrom(rows: seq<SaleRow>, b: seq<int>, right: bool, k: nat): (ks: seq<nat>)
    ensures forall i :: 0 <= i < |ks| ==> k <= ks[i] && ks[i] + 1 < |b|
    ensures forall i, j :: 0 <= i < j < |ks| ==> ks[i] < ks[j]
    decreases |b| - k
  {
    if k + 1 >= |b| then []
    else (if exists r :: r in rows && RowBin(b, r, right) == Some(k) then [k] else []) + ObservedFrom(rows, b, right, k + 1)
  }

  /** A bin is listed exactly when some row falls in it. */
  lemma {:induction false} ObservedExact(rows: seq<SaleRow>, b: seq<int>, right: bool, k: nat, j: nat)
    ensures j in ObservedFrom(rows, b, right, k) <==>
      k <= j && j + 1 < |b| && exists r :: r in rows && RowBin(b, r, right) == Some(j)
    decreases |b| - k
  {
    if k + 1 < |b| {
      ObservedExact(rows, b, right, k + 1, j);
      var here := exists r :: r in rows && RowBin(b, r, right) == Some(k);
      assert ObservedFrom(rows, b, right, k) == (if here then [k] else []) + ObservedFrom(rows, b, right, k + 1);
    }
  }

  /** A bin no row falls in sums to 0, so leaving it out loses nothing. */
  lemma {:induction false} UnobservedSumsZero(rows: seq<SaleRow>, b: seq<int>, k: nat, m: Measure)
    requires forall r :: r in rows ==> RowBin(b, r, true) != Some(k)
    ensures BinSum(rows, b, k, m) == 0
  {
    if rows != [] {
      UnobservedSumsZero(rows[1..], b, k, m);
    }
  }

  /** The sum over the first `k` bins. */
  function BinsTotal(rows: seq<SaleRow>, b: seq<int>, m: Measure, k: nat): int
  {
    if k == 0 then 0 else BinsTotal(rows, b, m, k - 1) + BinSum(rows, b, k - 1, m)
  }

  /** What a row adds over all bins: its measure, when it falls in a bin and is not NaN. */
  function Binned(r: SaleRow, b: seq<int>, m: Measure): int
  {
    if RowBin(b, r, true).Some? && RowMeasure(r, m).Some? then RowMeasure(r, m).value else 0
  }

  function BinnedTotal(rows: seq<SaleRow>, b: seq<int>, m: Measure): int
  {
    if rows == [] then 0 else Binned(rows[0], b, m) + BinnedTotal(rows[1..], b, m)
  }

  /** What one row adds to the first `k` bins. */
  function ContributionsUpTo(r: SaleRow, b: seq<int>, m: Measure, k: nat): int
  {
    if k == 0 then 0 else ContributionsUpTo(r, b, m, k - 1) + Contribution(r, b, k - 1, m)
  }

  lemma {:induction false} ContributionsUpToBin(r: SaleRow, b: seq<int>, m: Measure, k: nat)
    ensures ContributionsUpTo(r, b, m, k) ==
      if RowBin(b, r, true).Some? && RowBin(b, r, true).value < k then Binned(r, b, m) else 0
  {
    if k > 0 {
      ContributionsUpToBin(r, b, m, k - 1);
    }
  }

  lemma {:induction false} BinsTotalEmpty(b: seq<int>, m: Measure, k: nat)
    ensures BinsTotal([], b, m, k) == 0
  {
    if k > 0 {
      BinsTotalEmpty(b, m, k - 1);
    }
  }

  lemma {:induction false} BinsTotalCons(rows: seq<SaleRow>, b: seq<int>, m: Measure, k: nat)
    requires rows != []
    ensures BinsTotal(rows, b, m, k) == ContributionsUpTo(rows[0], b, m, k) + BinsTotal(rows[1..], b, m, k)
  {
    if k > 0 {
      BinsTotalCons(rows, b, m, k - 1);
    }
  }

  /** The per-bin sums together account for every row that falls in a bin, each once: nothing
      is counted twice and only NaN values and rows outside the outer edges are left out. */
  lemma {:induction false} BinsTotalIsBinnedTotal(rows: seq<SaleRow>, b: seq<int>, m: Measure)
    requires |b| >= 1
    ensures BinsTotal(rows, b, m, |b| - 1) == BinnedTotal(rows, b, m)
  {
    if rows == [] {
      BinsTotalEmpty(b, m, |b| - 1);
    } else {
      BinsTotalIsBinnedTotal(rows[1..], b, m);
      BinsTotalCons(rows, b, m, |b| - 1);
      ContributionsUpToBin(rows[0], b, m, |b| - 1);
    }
  }

  /** As written, a row whose modifier columns are NULL (an item ordered without modifiers, as
      `load_order_data` returns it) adds nothing to its day period's revenue. */
  lemma UnmodifiedItemDropped()
    ensures var x := SaleRow(Some(1), Some(1), Some(500), Some(10), None, None, Some(43200), None, None, None);
      var b: seq<TimeOfDay> := [0, 50400];
      && RowValue(x) == 500
      && RevenueByDayPeriod([x], b) == Ok([(Label(b, 0), 0)])
  {
    var x := SaleRow(Some(1), Some(1), Some(500), Some(10), None, None, Some(43200), None, None, None);
    var b: seq<TimeOfDay> := [0, 50400];
    assert RowBin(b, x, true) == Some(0);
    assert exists r :: r in [x] && RowBin(b, r, true) == Some(0);
    assert ObservedFrom([x], b, true, 1) == [];
    assert ObservedFrom([x], b, true, 0) == [0];
    assert BinSum([x], b, 0, Value) == 0;
    assert Labelled([x], b, [0], Value) == [(Label(b, 0), 0)];
    assert DayPeriodSums([x], b, Value).value == [(Label(b, 0), 0)];
  }

  /** Read with NULL as 0, as `calculate_revenue` does, every row in a bin adds its whole
      `order_value`, so the per-bin revenue adds up to the value of all the binned rows. */
  lemma FilledRevenueCountsEveryRow(rows: seq<SaleRow>, b: seq<TimeOfDay>, x: SaleRow, k: nat)
    requires ValidBins(b) && x in rows && RowBin(b, x, true) == Some(k)
    ensures Contribution(x, b, k, FilledValue) == Binned(x, b, FilledValue) == RowValue(x)
    ensures BinsTotal(rows, b, FilledValue, |b| - 1) == BinnedTotal(rows, b, FilledValue)
    ensures (Label(b, k), BinSum(rows, b, k, FilledValue)) in DayPeriodSums(rows, b, FilledValue).value
  {
    BinsTotalIsBinnedTotal(rows, b, FilledValue);
    DayPeriodComplete(rows, b, FilledValue, x, k);
  }

  /** Where no column is NULL the two readings agree. */
  lemma {:induction false} FilledAgreesOnCompleteRows(rows: seq<SaleRow>, b: seq<int>, k: nat)
    requires forall x :: x in rows ==> RawValue(x).Some?
    ensures BinSum(rows, b, k, Value) == BinSum(rows, b, k, FilledValue)
  {
    if rows != [] {
      FilledAgreesOnCompleteRows(rows[1..], b, k);
    }
  }

  /** The labelled per-bin sums of the observed bins; `pd.cut` raises on bad edges. */
  function DayPeriodSums(rows: seq<SaleRow>, b: seq<TimeOfDay>, m: Measure): (r: Result<seq<(string, int)>, PyError>)
    ensures r.Err? <==> !ValidBins(b)
    ensures r.Err? ==> r.error == BadBins
  {
    if !ValidBins(b) then Err(BadBins)
    else
      Ok(Labelled(rows, b, ObservedFrom(rows, b, true, 0), m))
  }

  /** The label and the sum of each bin of `ks`, in order. */
  function Labelled(rows: seq<SaleRow>, b: seq<TimeOfDay>, ks: seq<nat>, m: Measure): (r: seq<(string, int)>)
    requires forall i :: 0 <= i < |ks| ==> ks[i] + 1 < |b|
    ensures |r| == |ks|
    decreases |ks|
  {
    if ks == [] then [] else [(Label(b, ks[0]), BinSum(rows, b, ks[0], m))] + Labelled(rows, b, ks[1..], m)
  }

  lemma {:induction false} LabelledAt(rows: seq<SaleRow>, b: seq<TimeOfDay>, ks: seq<nat>, m: Measure, i: nat)
    requires forall j :: 0 <= j < |ks| ==> ks[j] + 1 < |b|
    requires i < |ks|
    ensures Labelled(rows, b, ks, m)[i] == (Label(b, ks[i]), BinSum(rows, b, ks[i], m))
    decreases i
  {
    if i > 0 {
      LabelledAt(rows, b, ks[1..], m, i - 1);
    }
  }

  /** Each entry of a day-period result is the label and the sum of one bin some row falls in. */
  lemma DayPeriodEntries(rows: seq<SaleRow>, b: seq<TimeOfDay>, m: Measure, i: nat)
    requires ValidBins(b)
    requires i < |DayPeriodSums(rows, b, m).value|
    ensures exists k: nat, x :: k + 1 < |b| && DayPeriodSums(rows, b, m).value[i] == (Label(b, k), BinSum(rows, b, k, m))
                               && x in rows && RowBin(b, x, true) == Some(k)
  {
    var ks := ObservedFrom(rows, b, true, 0);
    ObservedExact(rows, b, true, 0, ks[i]);
    LabelledAt(rows, b, ks, m, i);
  }

  /** Every bin some row falls in has an entry. */
  lemma DayPeriodComplete(rows: seq<SaleRow>, b: seq<TimeOfDay>, m: Measure, x: SaleRow, k: nat)
    requires ValidBins(b)
    requires x in rows && RowBin(b, x, true) == Some(k)
    ensures (Label(b, k), BinSum(rows, b, k, m)) in DayPeriodSums(rows, b, m).value
  {
    var ks := ObservedFrom(rows, b, true, 0);
    ObservedExact(rows, b, true, 0, k);
    var i :| 0 <= i < |ks| && ks[i] == k;
    LabelledAt(rows, b, ks, m, i);
    assert DayPeriodSums(rows, b, m).value[i] == (Label(b, k), BinSum(rows, b, k, m));
  }

  /** `calculate_revenue_by_day_period`: the right-closed cut of the placement times, and the
      sum of `order_value` over each bin some row falls in. */
  function RevenueByDayPeriod(rows: seq<SaleRow>, b: seq<TimeOfDay>): (r: Result<seq<(string, int)>, PyError>)
    ensures r.Err? <==> !ValidBins(b)
    ensures r.Err? ==> r.error == BadBins
  {
    DayPeriodSums(rows, b, Value)
  }

  /** `calculate_profit_by_day_period`: as above, summing `order_value - item_fractional_cost`. */
  function ProfitByDayPeriod(rows: seq<SaleRow>, b: seq<TimeOfDay>): (r: Result<seq<(string, int)>, PyError>)
    ensures r.Err? <==> !ValidBins(b)
    ensures r.Err? ==> r.error == BadBins
  {
    DayPeriodSums(rows, b, Profit)
  }

  const NoIntervals := ValueError("Please provide time intervals.")

  /** The older copies in analysis/utils.py refuse a missing `time_intervals` first. */
  function UtilsRevenueByDayPeriod(rows: seq<SaleRow>, b: Option<seq<TimeOfDay>>): (r: Result<seq<(string, int)>, PyError>)
    ensures b.None? ==> r == Err(NoIntervals)
    ensures b.Some? ==> r == RevenueByDayPeriod(rows, b.value)
  {
    if b.None? then Err(NoIntervals) else RevenueByDayPeriod(rows, b.value)
  }

  function UtilsProfitByDayPeriod(rows: seq<SaleRow>, b: Option<seq<TimeOfDay>>): (r: Result<seq<(string, int)>, PyError>)
    ensures b.None? ==> r == Err(NoIntervals)
    ensures b.Some? ==> r == ProfitByDayPeriod(rows, b.value)
  {
    if b.None? then Err(NoIntervals) else ProfitByDayPeriod(rows, b.value)
  }

  /** `groupby(..).size()` for bin k of the left-closed cut. */
  function BinCount(rows: seq<SaleRow>, b: seq<int>, k: nat): nat
  {
    if rows == [] then 0
    else (if RowBin(b, rows[0], false) == Some(k) then 1 else 0) + BinCount(rows[1..], b, k)
  }

  /** `calculate_orders_by_day_period`: the left-closed cut, and the number of rows (not of
      distinct orders) per bin, empty bins included. */
  function OrdersByDayPeriod(rows: seq<SaleRow>, b: seq<TimeOfDay>): (r: Result<seq<(string, nat)>, PyError>)
    ensures r.Err? <==> !ValidBins(b)
    ensures r.Ok? ==> |r.value| == |b| - 1 && forall k :: 0 <= k < |r.value| ==>
      r.value[k] == (IntervalLabels(b)[k], BinCount(rows, b, k))
  {
    if !ValidBins(b) then Err(BadBins)
    else Ok(seq(|b| - 1, k requires 0 <= k < |b| - 1 => (Label(b, k), BinCount(rows, b, k))))
  }

  /** The rows placed exactly at second `t` of their day. */
  function AtTime(rows: seq<SaleRow>, t: int): nat
  {
    if rows == [] then 0
    else (if rows[0].placed.Some? && SecondOfDay(rows[0].placed.value) == t then 1 else 0) + AtTime(rows[1..], t)
  }

  /** Left-closed with `include_lowest`, the one bin of `[t, t]` holds exactly the times at `t`. */
  lemma {:induction false} EqualEdgesCount(rows: seq<SaleRow>, t: TimeOfDay)
    ensures BinCount(rows, [t, t], 0) == AtTime(rows, t)
  {
    if rows != [] {
      EqualEdgesCount(rows[1..], t);
    }
  }

  /** Two equal edges `[t, t]` pass `pd.cut`'s checks, and the right-closed sums have no
      entry: no time lies in `(t, t]`. */
  lemma EqualEdgesSums(rows: seq<SaleRow>, t: TimeOfDay, m: Measure)
    ensures DayPeriodSums(rows, [t, t], m) == Ok([])
  {
    var b: seq<TimeOfDay> := [t, t];
    assert ValidBins(b);
    var ks := ObservedFrom(rows, b, true, 0);
    if ks != [] {
      assert ks[0] == 0;
      ObservedExact(rows, b, true, 0, 0);
      var r :| r in rows && RowBin(b, r, true) == Some(0);
      RowBinExact(b, r, true, 0);
      assert false;
    }
  }

  /** With `[t, t]` the left-closed count has the one entry "t to t", counting the rows
      placed exactly at `t`. */
  lemma EqualEdgesOrders(rows: seq<SaleRow>, t: TimeOfDay)
    ensures OrdersByDayPeriod(rows, [t, t]) == Ok([(Label([t, t], 0), AtTime(rows, t))])
  {
    var b: seq<TimeOfDay> := [t, t];
    assert ValidBins(b);
    EqualEdgesCount(rows, t);
    var r := OrdersByDayPeriod(rows, b);
    assert |r.value| == 1 && r.value[0] == (Label(b, 0), BinCount(rows, b, 0));
    assert r.value == [(Label(b, 0), AtTime(rows, t))];
  }

  // ---------------------------------------------------------------- profits over periods

  /** `timedelta(weeks=3)`, in seconds. */
  const PeriodSpan := 21 * SecondsPerDay

  /** The placement times the rows hold, in row order (`min` and `max` skip NaT). */
  function Placements(rows: seq<SaleRow>): (ts: seq<Instant>)
    ensures forall t :: t in ts ==> exists x :: x in rows && x.placed == Some(t)
  {
    if rows == [] then []
    else (if rows[0].placed.Some? then [rows[0].placed.value] else []) + Placements(rows[1..])
  }

  lemma {:induction false} PlacementsComplete(rows: seq<SaleRow>, x: SaleRow)
    requires x in rows && x.placed.Some?
    ensures x.placed.value in Placements(rows)
  {
    if rows[0] != x {
      PlacementsComplete(rows[1..], x);
    }
  }

  function Earliest(ts: seq<int>): (m: int)
    requires ts != []
    ensures m in ts && forall t :: t in ts ==> m <= t
  {
    if |ts| == 1 then ts[0]
    else
      var rest := Earliest(ts[1..]);
      assert forall t :: t in ts ==> t == ts[0] || t in ts[1..];
      if ts[0] <= rest then ts[0] else rest
  }

  function Latest(ts: seq<int>): (m: int)
    requires ts != []
    ensures m in ts && forall t :: t in ts ==> t <= m
  {
    if |ts| == 1 then ts[0]
    else
      var rest := Latest(ts[1..]);
      assert forall t :: t in ts ==> t == ts[0] || t in ts[1..];
      if ts[0] >= rest then ts[0] else rest
  }

  /** The span of a frame: its earliest and latest placement time, and `total_days // 21`. */
  datatype Span = Span(start: Instant, end: Instant, periods: nat)

  /** `None` when the frame holds no placement time: `min()` is then NaT and the `range` over
      the NaT day count raises. */
  function SpanOf(rows: seq<SaleRow>): (sp: Option<Span>)
    ensures sp.None? <==> Placements(rows) == []
    ensures sp.Some? ==>
      sp.value.start <= sp.value.end && sp.value.periods == (sp.value.end - sp.value.start) / SecondsPerDay / 21
  {
    var ts := Placements(rows);
    if ts == [] then None
    else
      var start, end := Earliest(ts), Latest(ts);
      Some(Span(start, end, (end - start) / SecondsPerDay / 21))
  }

  /** Every placement time lies between the span's ends. */
  lemma SpanBounds(rows: seq<SaleRow>, x: SaleRow)
    requires x in rows && x.placed.Some?
    ensures SpanOf(rows).Some?
    ensures SpanOf(rows).value.start <= x.placed.value <= SpanOf(rows).value.end
  {
    PlacementsComplete(rows, x);
  }

  function WindowStart(sp: Span, p: nat): Instant
  {
    sp.start + p * PeriodSpan
  }

  /** `min(period_start + timedelta(weeks=3), end_date)`. */
  function WindowEnd(sp: Span, p: nat): Instant
  {
    if WindowStart(sp, p) + PeriodSpan <= sp.end then WindowStart(sp, p) + PeriodSpan else sp.end
  }

  /** `period_start <= t < period_end`; `closed` also takes `t == period_end`. */
  predicate InWindow(t: Instant, lo: Instant, hi: Instant, closed: bool)
  {
    lo <= t < hi || (closed && t == hi)
  }

  function WindowRows(rows: seq<SaleRow>, lo: Instant, hi: Instant, closed: bool): (w: seq<SaleRow>)
    ensures forall x :: x in w <==> x in rows && x.placed.Some? && InWindow(x.placed.value, lo, hi, closed)
  {
    if rows == [] then []
    else
      var x := rows[0];
      (if x.placed.Some? && InWindow(x.placed.value, lo, hi, closed) then [x] else [])
        + WindowRows(rows[1..], lo, hi, closed)
  }

  /** The rows of window p. As written every window is right-open; `fixed` closes the last one,
      so that the latest orders are in it. */
  function Window(rows: seq<SaleRow>, sp: Span, p: nat, fixed: bool): seq<SaleRow>
  {
    WindowRows(rows, WindowStart(sp, p), WindowEnd(sp, p), fixed && p == sp.periods)
  }

  /** The days the rows were placed on: `dt.date.nunique()` is its size. */
  function OrderDays(rows: seq<SaleRow>): set<int>
  {
    if rows == [] then {}
    else (if rows[0].placed.Some? then {Day(rows[0].placed.value)} else {}) + OrderDays(rows[1..])
  }

  lemma {:induction false} OrderDaysExact(rows: seq<SaleRow>, d: int)
    ensures d in OrderDays(rows) <==> exists x :: x in rows && x.placed.Some? && Day(x.placed.value) == d
  {
    if rows != [] {
      OrderDaysExact(rows[1..], d);
      assert forall x :: x in rows <==> x == rows[0] || x in rows[1..];
    }
  }

  /** The window a placement time belongs to: the 21-day step after the start it is in, the
      last window taking everything up to the end. */
  function WindowIndex(sp: Span, t: Instant): nat
  {
    var q := (t - sp.start) / PeriodSpan;
    if q < 0 then 0 else if q <= sp.periods then q else sp.periods
  }

  /** The windows tile the span: window p starts 21 days after window p - 1, and the last
      one reaches the latest placement time. */
  lemma LastWindowReachesEnd(sp: Span)
    requires sp.start <= sp.end && sp.periods == (sp.end - sp.start) / SecondsPerDay / 21
    ensures WindowStart(sp, sp.periods) <= sp.end
    ensures WindowEnd(sp, sp.periods) == sp.end
    ensures sp.periods == (sp.end - sp.start) / PeriodSpan
  {
    var d := sp.end - sp.start;
    assert d / SecondsPerDay / 21 == d / PeriodSpan;
  }

  /** As written: a row placed before the latest placement time is in exactly the window of its
      21-day step, and a row placed at the latest time is in none. */
  lemma WindowsMissEnd(rows: seq<SaleRow>, x: SaleRow, p: nat)
    requires x in rows && x.placed.Some? && SpanOf(rows).Some? && p <= SpanOf(rows).value.periods
    ensures x in Window(rows, SpanOf(rows).value, p, false) <==>
      x.placed.value < SpanOf(rows).value.end && p == WindowIndex(SpanOf(rows).value, x.placed.value)
  {
    SpanBounds(rows, x);
    LastWindowReachesEnd(SpanOf(rows).value);
  }

  /** With the last window closed, every row that has a placement time is in exactly one
      window. */
  lemma WindowsCover(rows: seq<SaleRow>, x: SaleRow, p: nat)
    requires x in rows && x.placed.Some? && SpanOf(rows).Some? && p <= SpanOf(rows).value.periods
    ensures x in Window(rows, SpanOf(rows).value, p, true) <==> p == WindowIndex(SpanOf(rows).value, x.placed.value)
  {
    SpanBounds(rows, x);
    LastWindowReachesEnd(SpanOf(rows).value);
  }

  /** A window that passes the five-day test: its `Period` number and its labelled sums. */
  datatype PeriodResult = PeriodResult(period: nat, sums: seq<(string, int)>)

  /** `calculate_profit_by_day_period` on one window. With no `time_intervals` the metrics
      version raises `TypeError` on iterating `None`; the utils version raises its own
      `ValueError`. */
  function PeriodProfit(w: seq<SaleRow>, b: Option<seq<TimeOfDay>>, m: Measure, utils: bool): (r: Result<seq<(string, int)>, PyError>)
    ensures r.Err? <==> b.None? || !ValidBins(b.value)
    ensures r.Err? ==> r.error == PeriodError(b, utils)
  {
    if b.None? then Err(PeriodError(b, utils)) else DayPeriodSums(w, b.value, m)
  }

  /** What a window's profit call raises, whatever its rows: the missing-edges error of
      the version, or `pd.cut`'s complaint about the edges. */
  function PeriodError(b: Option<seq<TimeOfDay>>, utils: bool): PyError
  {
    if b.Some? then BadBins else if utils then NoIntervals else TypeError
  }

  /** The rows of one window, and `unique_order_days`: how many distinct days they were placed on. */
  datatype PeriodWindow = PeriodWindow(rows: seq<SaleRow>, days: nat)

  function MakeWindow(rows: seq<SaleRow>, sp: Span, p: nat, fixed: bool): PeriodWindow
  {
    var w := Window(rows, sp, p, fixed);
    PeriodWindow(w, |OrderDays(w)|)
  }

  /** Every window, in order. */
  function Windows(rows: seq<SaleRow>, sp: Span, fixed: bool): (ws: seq<PeriodWindow>)
    ensures |ws| == sp.periods + 1
  {
    seq(sp.periods + 1, p requires 0 <= p <= sp.periods => MakeWindow(rows, sp, p, fixed))
  }

  /** Window p holds the rows placed in its span, and the number of days they were placed on. */
  lemma WindowsAt(rows: seq<SaleRow>, sp: Span, fixed: bool, p: nat)
    requires p <= sp.periods
    ensures Windows(rows, sp, fixed)[p].rows == Window(rows, sp, p, fixed)
    ensures Windows(rows, sp, fixed)[p].days == |OrderDays(Window(rows, sp, p, fixed))|
  {
  }

  /** The five-day test of `calculate_profits_over_periods`. */
  predicate Qualifies(w: PeriodWindow)
  {
    w.days >= 5
  }

  /** The results from window p on. */
  function PeriodsFrom(ws: seq<PeriodWindow>, b: Option<seq<TimeOfDay>>, m: Measure, utils: bool, p: nat)
    : Result<seq<PeriodResult>, PyError>
    requires p <= |ws|
    decreases |ws| - p
  {
    if p == |ws| then Ok([])
    else if !Qualifies(ws[p]) then PeriodsFrom(ws, b, m, utils, p + 1)
    else
      match PeriodProfit(ws[p].rows, b, m, utils)
      case Err(e) => Err(e)
      case Ok(sums) => Prefixed([PeriodResult(p + 1, sums)], PeriodsFrom(ws, b, m, utils, p + 1))
  }

  /** `xs` ahead of a successful result; an error passes through. */
  function Prefixed<T, E>(xs: seq<T>, r: Result<seq<T>, E>): Result<seq<T>, E>
  {
    if r.Ok? then Ok(xs + r.value) else r
  }

  /** `calculate_profits_over_periods`: one result per 21-day window that has orders on at
      least five distinct days, with `m` summed per day period. */
  function ProfitsOverPeriods(rows: seq<SaleRow>, b: Option<seq<TimeOfDay>>, m: Measure, utils: bool, fixed: bool)
    : (r: Result<seq<PeriodResult>, PyError>)
    ensures SpanOf(rows).None? ==> r == Err(TypeError)
  {
    match SpanOf(rows)
    case None => Err(TypeError)
    case Some(sp) => PeriodsFrom(Windows(rows, sp, fixed), b, m, utils, 0)
  }

  /** The windows from p on that pass the five-day test. */
  function QualifyingFrom(ws: seq<PeriodWindow>, p: nat): (qs: seq<nat>)
    requires p <= |ws|
    ensures forall i :: 0 <= i < |qs| ==> p <= qs[i] < |ws| && Qualifies(ws[qs[i]])
    ensures forall i, j :: 0 <= i < j < |qs| ==> qs[i] < qs[j]
    decreases |ws| - p
  {
    if p == |ws| then []
    else (if Qualifies(ws[p]) then [p] else []) + QualifyingFrom(ws, p + 1)
  }

  /** A window is listed exactly when it passes the five-day test. */
  lemma {:induction false} QualifyingExact(ws: seq<PeriodWindow>, p: nat, q: nat)
    requires p <= |ws|
    ensures q in QualifyingFrom(ws, p) <==> p <= q < |ws| && Qualifies(ws[q])
    decreases |ws| - p
  {
    if p < |ws| {
      QualifyingExact(ws, p + 1, q);
    }
  }

  /** The call fails exactly when some window qualifies and the edges are missing or refused,
      and then with the error of the first such window; with no qualifying window the result is
      empty. */
  lemma {:induction false} PeriodsFromFails(ws: seq<PeriodWindow>, b: Option<seq<TimeOfDay>>, m: Measure, utils: bool, p: nat)
    requires p <= |ws|
    ensures var r := PeriodsFrom(ws, b, m, utils, p);
      && (r.Err? <==> QualifyingFrom(ws, p) != [] && (b.None? || !ValidBins(b.value)))
      && (r.Err? ==> r.error == PeriodError(b, utils))
      && (QualifyingFrom(ws, p) == [] ==> r == Ok([]))
    decreases |ws| - p
  {
    if p < |ws| {
      PeriodsFromFails(ws, b, m, utils, p + 1);
      if Qualifies(ws[p]) {
        PeriodsFromAt(ws, b, m, utils, p);
      } else {
        PeriodsFromSkip(ws, b, m, utils, p);
      }
    }
  }

  /** The result of window `q`: its 1-based period number and its day-period sums. */
  function Numbered(ws: seq<PeriodWindow>, q: nat, b: seq<TimeOfDay>, m: Measure, utils: bool): PeriodResult
    requires q < |ws| && ValidBins(b)
  {
    PeriodResult(q + 1, PeriodProfit(ws[q].rows, Some(b), m, utils).value)
  }

  /** The results of the windows `qs`, in order. */
  function Expected(ws: seq<PeriodWindow>, qs: seq<nat>, b: seq<TimeOfDay>, m: Measure, utils: bool): (r: seq<PeriodResult>)
    requires ValidBins(b) && forall i :: 0 <= i < |qs| ==> qs[i] < |ws|
    ensures |r| == |qs|
    decreases |qs|
  {
    if qs == [] then [] else [Numbered(ws, qs[0], b, m, utils)] + Expected(ws, qs[1..], b, m, utils)
  }

  lemma {:induction false} ExpectedAt(ws: seq<PeriodWindow>, qs: seq<nat>, b: seq<TimeOfDay>, m: Measure, utils: bool, i: nat)
    requires ValidBins(b) && forall j :: 0 <= j < |qs| ==> qs[j] < |ws|
    requires i < |qs|
    ensures Expected(ws, qs, b, m, utils)[i] == Numbered(ws, qs[i], b, m, utils)
    decreases i
  {
    if i > 0 {
      ExpectedAt(ws, qs[1..], b, m, utils, i - 1);
    }
  }

  /** A window that fails the five-day test adds nothing. */
  lemma PeriodsFromSkip(ws: seq<PeriodWindow>, b: Option<seq<TimeOfDay>>, m: Measure, utils: bool, p: nat)
    requires p < |ws| && !Qualifies(ws[p])
    ensures PeriodsFrom(ws, b, m, utils, p) == PeriodsFrom(ws, b, m, utils, p + 1)
    ensures QualifyingFrom(ws, p) == QualifyingFrom(ws, p + 1)
  {
    assert QualifyingFrom(ws, p) == [] + QualifyingFrom(ws, p + 1);
  }

  /** A window that passes it is listed, and its sums come first or its error ends the call. */
  lemma PeriodsFromAt(ws: seq<PeriodWindow>, b: Option<seq<TimeOfDay>>, m: Measure, utils: bool, p: nat)
    requires p < |ws| && Qualifies(ws[p])
    ensures QualifyingFrom(ws, p) == [p] + QualifyingFrom(ws, p + 1)
    ensures var r := PeriodProfit(ws[p].rows, b, m, utils);
            PeriodsFrom(ws, b, m, utils, p)
            == if r.Err? then Err(r.error) else Prefixed([PeriodResult(p + 1, r.value)], PeriodsFrom(ws, b, m, utils, p + 1))
  {
  }

  /** A window that passes it comes first, with its own sums. */
  lemma PeriodsFromTake(ws: seq<PeriodWindow>, b: seq<TimeOfDay>, m: Measure, utils: bool, p: nat)
    requires ValidBins(b) && p < |ws| && Qualifies(ws[p])
    requires PeriodsFrom(ws, Some(b), m, utils, p + 1).Ok?
    ensures PeriodsFrom(ws, Some(b), m, utils, p)
            == Ok([Numbered(ws, p, b, m, utils)] + PeriodsFrom(ws, Some(b), m, utils, p + 1).value)
    ensures QualifyingFrom(ws, p) == [p] + QualifyingFrom(ws, p + 1)
  {
  }

  /** With edges `pd.cut` accepts the call succeeds, and the results are those of the
      qualifying windows, in order. */
  lemma {:induction false} PeriodsFromResults(ws: seq<PeriodWindow>, b: seq<TimeOfDay>, m: Measure, utils: bool, p: nat)
    requires ValidBins(b) && p <= |ws|
    ensures var r := PeriodsFrom(ws, Some(b), m, utils, p);
      r.Ok? && r.value == Expected(ws, QualifyingFrom(ws, p), b, m, utils)
    decreases |ws| - p
  {
    if p < |ws| {
      PeriodsFromResults(ws, b, m, utils, p + 1);
      if Qualifies(ws[p]) {
        PeriodsFromTake(ws, b, m, utils, p);
        var qs := QualifyingFrom(ws, p + 1);
        assert ([p] + qs)[0] == p && ([p] + qs)[1..] == qs;
      } else {
        PeriodsFromSkip(ws, Some(b), m, utils, p);
      }
    }
  }

  /** The whole call on a frame with a placement time: one result per window with at least
      five order days, in order, and an error exactly when such a window exists and the edges
      are missing or refused. (With no placement time it raises `TypeError`.) */
  lemma ProfitsOverPeriodsOutcome(rows: seq<SaleRow>, sp: Span, b: Option<seq<TimeOfDay>>, m: Measure, utils: bool, fixed: bool)
    requires SpanOf(rows) == Some(sp)
    ensures var r, ws := ProfitsOverPeriods(rows, b, m, utils, fixed), Windows(rows, sp, fixed);
      var qs := QualifyingFrom(ws, 0);
      && (r.Err? <==> qs != [] && (b.None? || !ValidBins(b.value)))
      && (r.Ok? ==> |r.value| == |qs| && forall i :: 0 <= i < |qs| ==>
            && ws[qs[i]].days >= 5
            && r.value[i] == PeriodResult(qs[i] + 1, PeriodProfit(ws[qs[i]].rows, b, m, utils).value))
  {
    var ws := Windows(rows, sp, fixed);
    assert ProfitsOverPeriods(rows, b, m, utils, fixed) == PeriodsFrom(ws, b, m, utils, 0);
    PeriodsFromFails(ws, b, m, utils, 0);
    if b.Some? && ValidBins(b.value) {
      assert b == Some(b.value);
      PeriodsFromResults(ws, b.value, m, utils, 0);
      var qs := QualifyingFrom(ws, 0);
      forall i | 0 <= i < |qs|
        ensures ProfitsOverPeriods(rows, b, m, utils, fixed).value[i] == Numbered(ws, qs[i], b.value, m, utils)
      {
        ExpectedAt(ws, qs, b.value, m, utils, i);
      }
    }
  }

  // ---------------------------------------------------------------- menu matrix

  /** A number that may be NaN (`None`); every comparison with NaN is false. */
  type Num = Option<real>

  predicate AtLeast(x: Num, y: Num)
  {
    x.Some? && y.Some? && x.value >= y.value
  }

  predicate Below(x: Num, y: Num)
  {
    x.Some? && y.Some? && x.value < y.value
  }

  datatype Category = Star | Puzzle | CashCow | Dud

  /** `categorize_item`, with the two medians as parameters. */
  function Categorize(popularity: Num, profitability: Num, popularityThreshold: Num, profitabilityThreshold: Num): (r: Category)
    ensures r == Star || r == Puzzle ==> AtLeast(profitability, profitabilityThreshold)
    ensures r == Star || r == CashCow ==> AtLeast(popularity, popularityThreshold)
  {
    if AtLeast(popularity, popularityThreshold) && AtLeast(profitability, profitabilityThreshold) then Star
    else if Below(popularity, popularityThreshold) && AtLeast(profitability, profitabilityThreshold) then Puzzle
    else if AtLeast(popularity, popularityThreshold) && Below(profitability, profitabilityThreshold) then CashCow
    else Dud
  }

  /** With every number defined the four categories are the four quadrants. */
  lemma CategorizeQuadrants(pop: real, prof: real, popT: real, profT: real)
    ensures var c := Categorize(Some(pop), Some(prof), Some(popT), Some(profT));
      && (c == Star <==> pop >= popT && prof >= profT)
      && (c == Puzzle <==> pop < popT && prof >= profT)
      && (c == CashCow <==> pop >= popT && prof < profT)
      && (c == Dud <==> pop < popT && prof < profT)
  {
  }

  /** A NaN anywhere (a margin of an item with no revenue, say) makes every comparison false,
      so the item is a Dud. */
  lemma CategorizeUndefined(pop: Num, prof: Num, popT: Num, profT: Num)
    requires pop.None? || prof.None? || popT.None? || profT.None?
    ensures Categorize(pop, prof, popT, profT) == Dud
  {
  }
}
