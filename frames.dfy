/** The DataFrame the metrics of analysis/metrics.py and analysis/utils.py are handed: they add
    helper columns to it in place, and `calculate_profits_over_periods` sorts it in place. */
module Frames {
  import opened Wrappers
  import opened Analytics

  /** A value of a helper column: a number or an interval label, NaN as `None`. */
  datatype Cell = Number(n: Option<int>) | Text(t: Option<string>)

  /** One row: the columns the metrics read, and the helper columns written so far. */
  datatype Row = Row(sale: SaleRow, extra: map<string, Cell>)

  function SalesOf(rows: seq<Row>): (s: seq<SaleRow>)
    ensures |s| == |rows| && forall i :: 0 <= i < |rows| ==> s[i] == rows[i].sale
  {
    seq(|rows|, i requires 0 <= i < |rows| => rows[i].sale)
  }

  /** `df[name] = cells`: every row gets the cell of its position, nothing else changes. */
  function WithColumn(rows: seq<Row>, name: string, cells: seq<Cell>): (r: seq<Row>)
    requires |cells| == |rows|
    ensures |r| == |rows| && SalesOf(r) == SalesOf(rows)
    ensures forall i :: 0 <= i < |rows| ==> name in r[i].extra && r[i].extra[name] == cells[i]
    ensures forall i, other :: 0 <= i < |rows| && other != name && other in rows[i].extra ==>
      other in r[i].extra && r[i].extra[other] == rows[i].extra[other]
  {
    seq(|rows|, i requires 0 <= i < |rows| => Row(rows[i].sale, rows[i].extra[name := cells[i]]))
  }

  /** The `interval_index` column: NaN for NaT, and for an interval of 0 (where the
      division gives NaN or infinity). */
  function IntervalCells(sales: seq<SaleRow>, interval: int): (cells: seq<Cell>)
    ensures |cells| == |sales|
    ensures forall i :: 0 <= i < |sales| ==>
      cells[i] == Number(if sales[i].placed.None? || interval == 0 then None
                         else Some(IntervalIndex(sales[i].placed.value, interval)))
  {
    seq(|sales|, i requires 0 <= i < |sales| =>
      Number(if sales[i].placed.None? || interval == 0 then None else Some(IntervalIndex(sales[i].placed.value, interval))))
  }

  /** The `order_value` column, before any `fillna`. */
  function ValueCells(sales: seq<SaleRow>): (cells: seq<Cell>)
    ensures |cells| == |sales| && forall i :: 0 <= i < |sales| ==> cells[i] == Number(RawValue(sales[i]))
  {
    seq(|sales|, i requires 0 <= i < |sales| => Number(RawValue(sales[i])))
  }

  /** The `profit` column. */
  function ProfitCells(sales: seq<SaleRow>): (cells: seq<Cell>)
    ensures |cells| == |sales| && forall i :: 0 <= i < |sales| ==> cells[i] == Number(RawProfit(sales[i]))
  {
    seq(|sales|, i requires 0 <= i < |sales| => Number(RawProfit(sales[i])))
  }

  /** The label `pd.cut` gives one row; NaN outside every bin. */
  function LabelOf(b: seq<TimeOfDay>, x: SaleRow, right: bool): Option<string>
  {
    match RowBin(b, x, right)
    case Some(k) => Some(Label(b, k))
    case None => None
  }

  /** The `interval_label` column. */
  function LabelCells(sales: seq<SaleRow>, b: seq<TimeOfDay>, right: bool): (cells: seq<Cell>)
    ensures |cells| == |sales| && forall i :: 0 <= i < |sales| ==> cells[i] == Text(LabelOf(b, sales[i], right))
  {
    seq(|sales|, i requires 0 <= i < |sales| => Text(LabelOf(b, sales[i], right)))
  }

  /** With valid edges a row is labelled with bin k exactly when its time is in bin k. */
  lemma LabelExact(b: seq<TimeOfDay>, x: SaleRow, right: bool, k: nat)
    requires ValidBins(b) && k + 1 < |b|
    ensures LabelOf(b, x, right) == Some(Label(b, k)) <==>
      x.placed.Some? && InBin(b, k, SecondOfDay(x.placed.value), right)
  {
    RowBinExact(b, x, right, k);
    if RowBin(b, x, right).Some? && RowBin(b, x, right).value != k {
      LabelsDistinct(b, RowBin(b, x, right).value, k);
    }
  }

  /** `sort_values(by="order_placed_timestamp")`: ascending, NaT last. */
  predicate PlacedBefore(x: SaleRow, y: SaleRow)
  {
    y.placed.None? || (x.placed.Some? && x.placed.value <= y.placed.value)
  }

  predicate SortedByPlaced(rows: seq<Row>)
  {
    forall i, j :: 0 <= i < j < |rows| ==> PlacedBefore(rows[i].sale, rows[j].sale)
  }

  /** Putting `x` where the rows placed no later than it end keeps the rows sorted. */
  lemma InsertSorted(s: seq<Row>, x: Row, j: nat)
    requires SortedByPlaced(s) && j <= |s|
    requires forall k :: 0 <= k < j ==> PlacedBefore(s[k].sale, x.sale)
    requires j < |s| ==> !PlacedBefore(s[j].sale, x.sale)
    ensures SortedByPlaced(s[..j] + [x] + s[j..])
  {
    var r := s[..j] + [x] + s[j..];
    forall a, c | 0 <= a < c < |r|
      ensures PlacedBefore(r[a].sale, r[c].sale)
    {
      if c < j {
        assert r[a] == s[a] && r[c] == s[c];
      } else if c == j {
        assert r[a] == s[a] && r[c] == x;
      } else if a == j {
        assert r[a] == x && r[c] == s[c - 1];
        assert c - 1 == j || PlacedBefore(s[j].sale, s[c - 1].sale);
      } else if a < j {
        assert r[a] == s[a] && r[c] == s[c - 1];
      } else {
        assert r[a] == s[a - 1] && r[c] == s[c - 1];
      }
    }
  }

  /** Puts `x` into a sorted sequence after every row not placed later than it. */
  method InsertByPlaced(s: seq<Row>, x: Row) returns (r: seq<Row>)
    requires SortedByPlaced(s)
    ensures SortedByPlaced(r)
    ensures multiset(r) == multiset(s) + multiset{x}
  {
    var j := 0;
    while j < |s| && PlacedBefore(s[j].sale, x.sale)
      invariant 0 <= j <= |s|
      invariant forall k :: 0 <= k < j ==> PlacedBefore(s[k].sale, x.sale)
    {
      j := j + 1;
    }
    InsertSorted(s, x, j);
    r := s[..j] + [x] + s[j..];
    assert s == s[..j] + s[j..];
  }

  lemma PrefixedNothing<T, E>(r: Result<seq<T>, E>)
    ensures Prefixed([], r) == r
  {
    if r.Ok? {
      assert [] + r.value == r.value;
    }
  }

  lemma PrefixedStep<T, E>(done: seq<T>, x: T, rest: Result<seq<T>, E>)
    ensures Prefixed(done, Prefixed([x], rest)) == Prefixed(done + [x], rest)
  {
    if rest.Ok? {
      assert done + ([x] + rest.value) == done + [x] + rest.value;
    }
  }

  /** What window `p` adds to the walk: nothing below five order days, else its error or
      its sums. */
  lemma WalkStep(sales: seq<SaleRow>, sp: Span, b: Option<seq<TimeOfDay>>, utils: bool, p: nat)
    requires p <= sp.periods
    ensures var ws := Windows(sales, sp, false);
            var w := WindowRows(sales, WindowStart(sp, p), WindowEnd(sp, p), false);
            var sums := PeriodProfit(w, b, Profit, utils);
            PeriodsFrom(ws, b, Profit, utils, p)
            == if |OrderDays(w)| < 5 then PeriodsFrom(ws, b, Profit, utils, p + 1)
               else if sums.Err? then Err(sums.error)
               else Prefixed([PeriodResult(p + 1, sums.value)], PeriodsFrom(ws, b, Profit, utils, p + 1))
  {
    var ws := Windows(sales, sp, false);
    WindowsAt(sales, sp, false, p);
    if Qualifies(ws[p]) {
      PeriodsFromAt(ws, b, Profit, utils, p);
    } else {
      PeriodsFromSkip(ws, b, Profit, utils, p);
    }
  }

  /** The loop of `calculate_profits_over_periods` over windows 0 to `total_days // 21`. */
  method WalkPeriods(sales: seq<SaleRow>, sp: Span, b: Option<seq<TimeOfDay>>, utils: bool)
    returns (r: Result<seq<PeriodResult>, PyError>)
    ensures r == PeriodsFrom(Windows(sales, sp, false), b, Profit, utils, 0)
  {
    ghost var ws := Windows(sales, sp, false);
    var results: seq<PeriodResult> := [];
    PrefixedNothing(PeriodsFrom(ws, b, Profit, utils, 0));
    for p := 0 to sp.periods + 1
      invariant PeriodsFrom(ws, b, Profit, utils, 0) == Prefixed(results, PeriodsFrom(ws, b, Profit, utils, p))
    {
      var window := WindowRows(sales, WindowStart(sp, p), WindowEnd(sp, p), false);
      var days := |OrderDays(window)|;
      WalkStep(sales, sp, b, utils, p);
      if days >= 5 {
        var sums := PeriodProfit(window, b, Profit, utils);
        if sums.Err? {
          return Err(sums.error);
        }
        PrefixedStep(results, PeriodResult(p + 1, sums.value), PeriodsFrom(ws, b, Profit, utils, p + 1));
        results := results + [PeriodResult(p + 1, sums.value)];
      }
    }
    assert results + [] == results;
    r := Ok(results);
  }

  class Frame {
    var rows: seq<Row>

    /** A frame of the given rows, with no helper column yet. */
    constructor (sales: seq<SaleRow>)
      ensures SalesOf(rows) == sales
      ensures forall i :: 0 <= i < |rows| ==> rows[i].extra == map[]
    {
      rows := seq(|sales|, i requires 0 <= i < |sales| => Row(sales[i], map[]));
    }

    function Sales(): seq<SaleRow>
      reads this
    {
      SalesOf(rows)
    }

    /** The per-interval metrics first add `interval_index` to the caller's frame. */
    method AddIntervalIndex(interval: int)
      modifies this
      ensures rows == WithColumn(old(rows), "interval_index", IntervalCells(old(Sales()), interval))
    {
      rows := WithColumn(rows, "interval_index", IntervalCells(Sales(), interval));
    }

    /** `calculate_revenue_by_day_period`: writes `order_value`, then (if `pd.cut` takes the
        edges) `interval_label`, into the caller's frame. */
    method RevenueByDayPeriod(b: seq<TimeOfDay>) returns (r: Result<seq<(string, int)>, PyError>)
      modifies this
      ensures r == Analytics.RevenueByDayPeriod(old(Sales()), b)
      ensures var valued := WithColumn(old(rows), "order_value", ValueCells(old(Sales())));
        rows == if r.Ok? then WithColumn(valued, "interval_label", LabelCells(old(Sales()), b, true)) else valued
    {
      var sales := Sales();
      rows := WithColumn(rows, "order_value", ValueCells(sales));
      if !ValidBins(b) {
        return Err(BadBins);
      }
      rows := WithColumn(rows, "interval_label", LabelCells(sales, b, true));
      r := DayPeriodSums(sales, b, Value);
    }

    /** `calculate_profit_by_day_period`: writes `order_value` and `profit`, then
        `interval_label`. */
    method ProfitByDayPeriod(b: seq<TimeOfDay>) returns (r: Result<seq<(string, int)>, PyError>)
      modifies this
      ensures r == Analytics.ProfitByDayPeriod(old(Sales()), b)
      ensures var costed := WithColumn(WithColumn(old(rows), "order_value", ValueCells(old(Sales()))),
                                       "profit", ProfitCells(old(Sales())));
        rows == if r.Ok? then WithColumn(costed, "interval_label", LabelCells(old(Sales()), b, true)) else costed
    {
      var sales := Sales();
      rows := WithColumn(rows, "order_value", ValueCells(sales));
      rows := WithColumn(rows, "profit", ProfitCells(sales));
      if !ValidBins(b) {
        return Err(BadBins);
      }
      rows := WithColumn(rows, "interval_label", LabelCells(sales, b, true));
      r := DayPeriodSums(sales, b, Profit);
    }

    /** The utils copy: a missing `time_intervals` is refused before anything is written. */
    method UtilsRevenueByDayPeriod(b: Option<seq<TimeOfDay>>) returns (r: Result<seq<(string, int)>, PyError>)
      modifies this
      ensures r == Analytics.UtilsRevenueByDayPeriod(old(Sales()), b)
      ensures b.None? ==> rows == old(rows)
      ensures Sales() == old(Sales())
    {
      if b.None? {
        return Err(NoIntervals);
      }
      r := RevenueByDayPeriod(b.value);
    }

    method UtilsProfitByDayPeriod(b: Option<seq<TimeOfDay>>) returns (r: Result<seq<(string, int)>, PyError>)
      modifies this
      ensures r == Analytics.UtilsProfitByDayPeriod(old(Sales()), b)
      ensures b.None? ==> rows == old(rows)
      ensures Sales() == old(Sales())
    {
      if b.None? {
        return Err(NoIntervals);
      }
      r := ProfitByDayPeriod(b.value);
    }

    /** `calculate_orders_by_day_period`: writes the left-closed `interval_label`. */
    method OrdersByDayPeriod(b: seq<TimeOfDay>) returns (r: Result<seq<(string, nat)>, PyError>)
      modifies this
      ensures r == Analytics.OrdersByDayPeriod(old(Sales()), b)
      ensures rows == if r.Ok? then WithColumn(old(rows), "interval_label", LabelCells(old(Sales()), b, false)) else old(rows)
    {
      if !ValidBins(b) {
        return Err(BadBins);
      }
      var sales := Sales();
      rows := WithColumn(rows, "interval_label", LabelCells(sales, b, false));
      r := Analytics.OrdersByDayPeriod(sales, b);
    }

    /** `df.sort_values(by=ORDER_TIMESTAMP, inplace=True)`, by insertion. */
    method SortByPlaced()
      modifies this
      ensures SortedByPlaced(rows)
      ensures multiset(rows) == multiset(old(rows))
    {
      var unsorted := rows;
      var sorted: seq<Row> := [];
      for i := 0 to |unsorted|
        invariant SortedByPlaced(sorted)
        invariant multiset(sorted) == multiset(unsorted[..i])
      {
        sorted := InsertByPlaced(sorted, unsorted[i]);
        assert unsorted[..i + 1] == unsorted[..i] + [unsorted[i]];
      }
      assert unsorted[..|unsorted|] == unsorted;
      rows := sorted;
    }

    /** `calculate_profits_over_periods`: sorts the caller's frame, then walks the 21-day
        windows from the earliest placement time, keeping the profit per day period of each
        window with orders on at least five days. */
    method ProfitsOverPeriods(b: Option<seq<TimeOfDay>>, utils: bool) returns (r: Result<seq<PeriodResult>, PyError>)
      modifies this
      ensures SortedByPlaced(rows) && multiset(rows) == multiset(old(rows))
      ensures r == Analytics.ProfitsOverPeriods(Sales(), b, Profit, utils, false)
    {
      SortByPlaced();
      var sales := Sales();
      var span := SpanOf(sales);
      if span.None? {
        return Err(TypeError);
      }
      r := WalkPeriods(sales, span.value, b, utils);
    }
  }
}
