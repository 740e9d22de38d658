/**
 * The aggregations behind the charts: `end_of_month`, the monthly spending
 * totals of `monthsum_update`, the category totals of the pie chart, and the
 * series of the line chart.
 */
module Aggregation {
  import opened Wrappers
  import opened Dates
  import opened Sequences
  import opened Ledger
  import opened Filters

  /** What a chart callback hands to the plotting layer. */
  datatype Figure =
    | Placeholder(title: string)
    | Series(points: seq<(Date, int)>)

  /** `end_of_month`: one month-end anchor per row, in row order. */
  method EndOfMonth(rows: seq<Transaction>) returns (dates: seq<Date>)
    ensures |dates| == |rows|
    ensures forall i :: 0 <= i < |rows| ==> dates[i] == MonthEnd(rows[i].date)
  {
    dates := [];
    for i := 0 to |rows|
      invariant |dates| == i
      invariant forall k :: 0 <= k < i ==> dates[k] == MonthEnd(rows[k].date)
    {
      var year := rows[i].date.year;
      var month := rows[i].date.month;
      if month in ThirtyOneDayMonths {
        dates := dates + [Date(year, month, 31)];
      } else if month in ThirtyDayMonths {
        dates := dates + [Date(year, month, 30)];
      } else {
        dates := dates + [Date(year, month, 28)];
      }
    }
  }

  /** Each row's amount at the month-end anchor of its date. */
  function AnchoredAmounts(rows: seq<Transaction>): (pairs: seq<(Date, int)>)
    ensures |pairs| == |rows|
    ensures forall i :: 0 <= i < |rows| ==> pairs[i] == (MonthEnd(rows[i].date), rows[i].amount)
  {
    seq(|rows|, i requires 0 <= i < |rows| => (MonthEnd(rows[i].date), rows[i].amount))
  }

  /** The sum of the amounts of the rows dated in the given year and month. */
  function MonthSpending(rows: seq<Transaction>, year: int, month: Month): int {
    if rows == [] then 0
    else
      (if rows[0].date.year == year && rows[0].date.month == month then rows[0].amount else 0)
      + MonthSpending(rows[1..], year, month)
  }

  function Amounts(rows: seq<Transaction>): int {
    if rows == [] then 0 else rows[0].amount + Amounts(rows[1..])
  }

  lemma {:induction false} AnchoredSums(rows: seq<Transaction>, d: Date)
    ensures SumAt(AnchoredAmounts(rows), MonthEnd(d)) == MonthSpending(rows, d.year, d.month)
    ensures Total(AnchoredAmounts(rows)) == Amounts(rows)
  {
    if rows != [] {
      assert AnchoredAmounts(rows)[1..] == AnchoredAmounts(rows[1..]);
      AnchoredSums(rows[1..], d);
      SameMonthEndIffSameMonth(rows[0].date, d);
    }
  }

  /**
   * `groupby('Month/Year').sum('amount')` over the anchored rows: one bucket
   * per month present, ascending by anchor, holding that month's spending.
   */
  function MonthlyTotals(rows: seq<Transaction>): (buckets: seq<(Date, int)>)
    ensures forall i, j :: 0 <= i < j < |buckets| ==> DateLt(buckets[i].0, buckets[j].0)
    ensures forall i :: 0 <= i < |rows| ==> MonthEnd(rows[i].date) in Keys(buckets)
    ensures forall i :: 0 <= i < |buckets| ==>
      exists k :: 0 <= k < |rows| && buckets[i].0 == MonthEnd(rows[k].date)
    ensures forall i :: 0 <= i < |buckets| ==>
      buckets[i].1 == MonthSpending(rows, buckets[i].0.year, buckets[i].0.month)
    ensures Total(buckets) == Amounts(rows)
  {
    OrdinalInjective();
    var pairs := AnchoredAmounts(rows);
    var buckets := GroupSorted(pairs, Ordinal);
    AscendingIsDistinct(Keys(buckets), Ordinal);
    forall i | 0 <= i < |rows| ensures MonthEnd(rows[i].date) in Keys(buckets) {
      assert Keys(pairs)[i] == MonthEnd(rows[i].date);
    }
    forall i | 0 <= i < |buckets|
      ensures exists k :: 0 <= k < |rows| && buckets[i].0 == MonthEnd(rows[k].date)
      ensures buckets[i].1 == MonthSpending(rows, buckets[i].0.year, buckets[i].0.month)
    {
      assert Keys(buckets)[i] == buckets[i].0;
      assert buckets[i].0 in Keys(pairs);
      var k :| 0 <= k < |pairs| && Keys(pairs)[k] == buckets[i].0;
      assert buckets[i].0 == MonthEnd(rows[k].date);
      SumAtDistinct(buckets, i);
      AnchoredSums(rows, rows[k].date);
    }
    AnchoredSums(rows, Date(0, 1, 1));
    buckets
  }

  /** Every row lands in exactly one monthly bucket. */
  lemma MonthlyBucketsPartition(rows: seq<Transaction>, r: nat)
    requires r < |rows|
    ensures exists i :: 0 <= i < |MonthlyTotals(rows)| && MonthlyTotals(rows)[i].0 == MonthEnd(rows[r].date)
    ensures forall i, j ::
              0 <= i < |MonthlyTotals(rows)| && 0 <= j < |MonthlyTotals(rows)|
              && MonthlyTotals(rows)[i].0 == MonthEnd(rows[r].date)
              && MonthlyTotals(rows)[j].0 == MonthEnd(rows[r].date)
              ==> i == j
  {
    var b := MonthlyTotals(rows);
    var i :| 0 <= i < |Keys(b)| && Keys(b)[i] == MonthEnd(rows[r].date);
    assert b[i].0 == MonthEnd(rows[r].date);
  }

  /** Each row's amount paired with its category. */
  function CategoryAmounts(rows: seq<Transaction>): (pairs: seq<(string, int)>)
    ensures |pairs| == |rows|
    ensures forall i :: 0 <= i < |rows| ==> pairs[i] == (rows[i].category, rows[i].amount)
  {
    seq(|rows|, i requires 0 <= i < |rows| => (rows[i].category, rows[i].amount))
  }

  /** The sum of the amounts of the rows in category c. */
  function CategorySpending(rows: seq<Transaction>, c: string): int {
    if rows == [] then 0
    else (if rows[0].category == c then rows[0].amount else 0) + CategorySpending(rows[1..], c)
  }

  lemma {:induction false} CategorySums(rows: seq<Transaction>, c: string)
    ensures SumAt(CategoryAmounts(rows), c) == CategorySpending(rows, c)
    ensures Total(CategoryAmounts(rows)) == Amounts(rows)
  {
    if rows != [] {
      assert CategoryAmounts(rows)[1..] == CategoryAmounts(rows[1..]);
      CategorySums(rows[1..], c);
    }
  }

  /**
   * The pie chart's slices: one per category present, in the order of the
   * category list, each the category's spending.
   */
  function CategoryTotals(rows: seq<Transaction>): (slices: seq<(string, int)>)
    ensures Keys(slices) == Categories(rows)
    ensures forall i :: 0 <= i < |slices| ==> slices[i].1 == CategorySpending(rows, slices[i].0)
    ensures Total(slices) == Amounts(rows)
  {
    var pairs := CategoryAmounts(rows);
    assert Keys(pairs) == CategoryColumn(rows);
    var slices := GroupFirstSeen(pairs);
    forall i | 0 <= i < |slices| ensures slices[i].1 == CategorySpending(rows, slices[i].0) {
      SumAtDistinct(slices, i);
      CategorySums(rows, slices[i].0);
    }
    CategorySums(rows, "");
    slices
  }

  /** The pie chart and the monthly chart account for the same total spending. */
  lemma CategoryAndMonthlyTotalsAgree(rows: seq<Transaction>)
    ensures Total(CategoryTotals(rows)) == Total(MonthlyTotals(rows))
  {
  }

  /** `piechart_update`: the year and month steps on the unsorted store, then the category slices. */
  method PiechartUpdate(store: seq<Transaction>, year: Option<int>, month: Option<string>)
    returns (slices: seq<(string, int)>)
    ensures slices == CategoryTotals(Where(store, YearMonthChain(year, month)))
    ensures Selectable(year, month) ==> forall c :: c in Keys(slices) <==>
      exists t :: t in store && InYearMonth(year, month, t) && t.category == c
  {
    var rows := ApplyChain(store, YearMonthChain(year, month));
    slices := CategoryTotals(rows);
    if Selectable(year, month) {
      forall c ensures c in Keys(slices) <==> exists t :: t in store && InYearMonth(year, month, t) && t.category == c {
        if c in Keys(slices) {
          var t :| t in rows && t.category == c;
          WhereCounts(store, YearMonthChain(year, month), t);
          YearMonthChainMeaning(year, month, t);
        }
        if exists t :: t in store && InYearMonth(year, month, t) && t.category == c {
          var t :| t in store && InYearMonth(year, month, t) && t.category == c;
          WhereCounts(store, YearMonthChain(year, month), t);
          YearMonthChainMeaning(year, month, t);
        }
      }
    }
  }

  /**
   * `monthsum_update`: the store sorted and filtered; the placeholder
   * when nothing is left, otherwise the monthly totals of what is left.
   */
  method MonthsumUpdate(store: seq<Transaction>, start: Option<Date>, end: Option<Date>,
                        category: Option<string>, year: Option<int>)
    returns (fig: Figure)
    ensures var rows := Where(SortByDate(store), MonthSumChain(start, end, category, year));
      fig == if rows == [] then Placeholder("Total Spending per Month") else Series(MonthlyTotals(rows))
  {
    var rows := ApplyChain(SortByDate(store), MonthSumChain(start, end, category, year));
    if |rows| == 0 {
      return Placeholder("Total Spending per Month");
    }
    var anchors := EndOfMonth(rows);
    var pairs := seq(|rows|, i requires 0 <= i < |rows| => (anchors[i], rows[i].amount));
    assert pairs == AnchoredAmounts(rows);
    OrdinalInjective();
    fig := Series(GroupSorted(pairs, Ordinal));
  }

  /** The monthly chart's total is the spending of exactly the matching transactions. */
  lemma MonthsumTotal(store: seq<Transaction>, start: Option<Date>, end: Option<Date>,
                      category: Option<string>, year: Option<int>)
    ensures var rows := Where(SortByDate(store), MonthSumChain(start, end, category, year));
      && (forall t :: t in rows <==> t in store && InRange(start, end, category, t) && (year.Some? ==> t.year == year.value))
      && Total(MonthlyTotals(rows)) == Amounts(rows)
  {
    var sorted := SortByDate(store);
    forall t ensures t in Where(sorted, MonthSumChain(start, end, category, year)) <==>
      t in store && InRange(start, end, category, t) && (year.Some? ==> t.year == year.value) {
      WhereCounts(sorted, MonthSumChain(start, end, category, year), t);
      MonthSumChainMeaning(start, end, category, year, t);
      assert t in sorted <==> t in multiset(store);
    }
  }

  /**
   * `linechart_update`: the table's rows as (date, amount) points, or the
   * placeholder titled "Overall" when no row matches.
   */
  method LinechartUpdate(store: seq<Transaction>, q: Query) returns (fig: Figure)
    ensures var rows := Where(SortByDate(store), TableChain(q));
      && (rows == [] ==> fig == Placeholder("Overall"))
      && (rows != [] ==>
            && fig.Series?
            && |fig.points| == |rows|
            && forall i :: 0 <= i < |rows| ==> fig.points[i] == (rows[i].date, rows[i].amount))
  {
    var rows := TableFilter(store, q);
    if |rows| == 0 {
      return Placeholder("Overall");
    }
    var points := seq(|rows|, i requires 0 <= i < |rows| => (rows[i].date, rows[i].amount));
    fig := Series(points);
  }
}
