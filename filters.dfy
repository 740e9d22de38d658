/**
 * The filter engine of the dashboard callbacks: each callback narrows the
 * store through a chain of `df = df[condition]` steps chosen by which of
 * its inputs are set.
 */
module Filters {
  import opened Wrappers
  import opened Dates
  import opened Sequences
  import opened Ledger

  /** The condition of one filtering step. */
  datatype Pred =
    | CategoryIs(category: string)
    | OnOrAfter(start: Date)
    | OnOrBefore(end: Date)
    | Between(start: Date, end: Date)
    | YearIs(year: int)
    | MonthIs(monthName: string)
    | YearAndMonth(year: int, monthName: string)

  predicate Holds(p: Pred, t: Transaction) {
    match p
    case CategoryIs(c) => t.category == c
    case OnOrAfter(d) => DateLe(d, t.date)
    case OnOrBefore(d) => DateLe(t.date, d)
    case Between(a, b) => DateLe(a, t.date) && DateLe(t.date, b)
    case YearIs(y) => t.year == y
    case MonthIs(m) => t.monthName == m
    case YearAndMonth(y, m) => t.year == y && t.monthName == m
  }

  predicate AllHold(ps: seq<Pred>, t: Transaction) {
    forall i :: 0 <= i < |ps| ==> Holds(ps[i], t)
  }

  /** The rows of s that satisfy every condition in ps, in their order in s. */
  function Where(s: seq<Transaction>, ps: seq<Pred>): (r: seq<Transaction>)
    ensures |r| <= |s|
    ensures forall i :: 0 <= i < |r| ==> AllHold(ps, r[i])
  {
    if s == [] then []
    else Where(s[..|s| - 1], ps) + (if AllHold(ps, s[|s| - 1]) then [s[|s| - 1]] else [])
  }

  lemma AllHoldConcat(ps: seq<Pred>, qs: seq<Pred>, t: Transaction)
    ensures AllHold(ps + qs, t) <==> AllHold(ps, t) && AllHold(qs, t)
  {
    if AllHold(ps, t) && AllHold(qs, t) {
      forall i | 0 <= i < |ps + qs| ensures Holds((ps + qs)[i], t) {
        if i >= |ps| {
          assert (ps + qs)[i] == qs[i - |ps|];
        }
      }
    }
    if AllHold(ps + qs, t) {
      forall i | 0 <= i < |ps| ensures Holds(ps[i], t) {
        assert (ps + qs)[i] == ps[i];
      }
      forall i | 0 <= i < |qs| ensures Holds(qs[i], t) {
        assert (ps + qs)[|ps| + i] == qs[i];
      }
    }
  }

  /** Filtering distributes over concatenation: the kept rows stay in their order. */
  lemma {:induction false} WhereConcat(a: seq<Transaction>, b: seq<Transaction>, ps: seq<Pred>)
    ensures Where(a + b, ps) == Where(a, ps) + Where(b, ps)
  {
    if b != [] {
      var b' := b[..|b| - 1];
      assert (a + b)[..|a + b| - 1] == a + b';
      WhereConcat(a, b', ps);
    } else {
      assert a + b == a;
    }
  }

  /** A row is kept exactly when it is in s and satisfies every condition, with its multiplicity. */
  lemma {:induction false} WhereCounts(s: seq<Transaction>, ps: seq<Pred>, t: Transaction)
    ensures multiset(Where(s, ps))[t] == if AllHold(ps, t) then multiset(s)[t] else 0
    ensures t in Where(s, ps) <==> t in s && AllHold(ps, t)
  {
    if s != [] {
      var p := s[..|s| - 1];
      assert s == p + [s[|s| - 1]];
      WhereCounts(p, ps, t);
    }
  }

  /** With no conditions the input comes back whole. */
  lemma {:induction false} WhereNoConditions(s: seq<Transaction>)
    ensures Where(s, []) == s
  {
    if s != [] {
      WhereNoConditions(s[..|s| - 1]);
      assert s == s[..|s| - 1] + [s[|s| - 1]];
    }
  }

  /** Filtering by ps and then by qs is filtering by both at once. */
  lemma {:induction false} WhereThenWhere(s: seq<Transaction>, ps: seq<Pred>, qs: seq<Pred>)
    ensures Where(Where(s, ps), qs) == Where(s, ps + qs)
  {
    if s != [] {
      var p := s[..|s| - 1];
      var x := s[|s| - 1];
      WhereThenWhere(p, ps, qs);
      AllHoldConcat(ps, qs, x);
      var tail := if AllHold(ps, x) then [x] else [];
      WhereConcat(Where(p, ps), tail, qs);
      if AllHold(ps, x) {
        assert Where([x], qs) == Where([], qs) + (if AllHold(qs, x) then [x] else []);
      }
    }
  }

  /** A condition implied by the others removes nothing. */
  lemma {:induction false} ImpliedConditionIsRedundant(s: seq<Transaction>, ps: seq<Pred>, p: Pred)
    requires forall t :: AllHold(ps, t) ==> Holds(p, t)
    ensures Where(s, ps + [p]) == Where(s, ps)
  {
    if s != [] {
      ImpliedConditionIsRedundant(s[..|s| - 1], ps, p);
      AllHoldConcat(ps, [p], s[|s| - 1]);
    }
  }

  /** Filtering twice by the same conditions is filtering once. */
  lemma {:induction false} WhereIdempotent(s: seq<Transaction>, ps: seq<Pred>)
    ensures Where(Where(s, ps), ps) == Where(s, ps)
  {
    WhereThenWhere(s, ps, ps);
    forall t ensures AllHold(ps + ps, t) <==> AllHold(ps, t) {
      AllHoldConcat(ps, ps, t);
    }
    WhereIsConjunction(s, ps + ps, ps);
  }

  /** Filtering depends only on which rows the conditions accept. */
  lemma {:induction false} WhereIsConjunction(s: seq<Transaction>, ps: seq<Pred>, qs: seq<Pred>)
    requires forall t :: AllHold(ps, t) <==> AllHold(qs, t)
    ensures Where(s, ps) == Where(s, qs)
  {
    if s != [] {
      WhereIsConjunction(s[..|s| - 1], ps, qs);
    }
  }

  /** The joint start/end step after the two separate ones is redundant. */
  lemma RepeatedRangeIsRedundant(s: seq<Transaction>, ps: seq<Pred>, start: Date, end: Date)
    ensures Where(s, ps + [OnOrAfter(start), OnOrBefore(end), Between(start, end)])
         == Where(s, ps + [OnOrAfter(start), OnOrBefore(end)])
  {
    var qs := ps + [OnOrAfter(start), OnOrBefore(end)];
    assert qs + [Between(start, end)] == ps + [OnOrAfter(start), OnOrBefore(end), Between(start, end)];
    forall t | AllHold(qs, t) ensures Holds(Between(start, end), t) {
      assert qs[|ps|] == OnOrAfter(start) && qs[|ps| + 1] == OnOrBefore(end);
    }
    ImpliedConditionIsRedundant(s, qs, Between(start, end));
  }

  /** Filtering keeps date order. */
  lemma {:induction false} WhereKeepsDateOrder(s: seq<Transaction>, ps: seq<Pred>)
    requires SortedByDate(s)
    ensures SortedByDate(Where(s, ps))
  {
    if s != [] {
      var p := s[..|s| - 1];
      var x := s[|s| - 1];
      assert SortedByDate(p);
      WhereKeepsDateOrder(p, ps);
      forall t | t in Where(p, ps) ensures DateLe(t.date, x.date) {
        WhereCounts(p, ps, t);
      }
    }
  }

  /** One filtering step `df = df[condition]`. */
  method Keep(rows: seq<Transaction>, p: Pred) returns (kept: seq<Transaction>)
    ensures kept == Where(rows, [p])
  {
    kept := [];
    for i := 0 to |rows|
      invariant kept == Where(rows[..i], [p])
    {
      assert rows[..i + 1][..i] == rows[..i] && rows[..i + 1][i] == rows[i];
      assert AllHold([p], rows[i]) <==> Holds(p, rows[i]) by {
        assert [p][0] == p;
      }
      if Holds(p, rows[i]) {
        kept := kept + [rows[i]];
      }
    }
    assert rows[..|rows|] == rows;
  }

  /** A callback's chain of filtering steps, applied one after another. */
  method ApplyChain(rows: seq<Transaction>, chain: seq<Pred>) returns (r: seq<Transaction>)
    ensures r == Where(rows, chain)
  {
    r := rows;
    WhereNoConditions(rows);
    for k := 0 to |chain|
      invariant r == Where(rows, chain[..k])
    {
      r := Keep(r, chain[k]);
      WhereThenWhere(rows, chain[..k], [chain[k]]);
      assert chain[..k + 1] == chain[..k] + [chain[k]];
    }
    assert chain[..|chain|] == chain;
  }

  /** The inputs of the table and line-chart callbacks; None is an unset input. */
  datatype Query = Query(
    start: Option<Date>,
    end: Option<Date>,
    category: Option<string>,
    year: Option<int>,
    month: Option<string>)

  const NoQuery := Query(None, None, None, None, None)

  /** The category and date-range steps, including the repeated joint range step. */
  function RangeChain(start: Option<Date>, end: Option<Date>, category: Option<string>): (ps: seq<Pred>)
    ensures |ps| <= 4
    ensures ps == [] <==> start.None? && end.None? && category.None?
  {
    (if category.Some? then [CategoryIs(category.value)] else [])
    + (if start.Some? then [OnOrAfter(start.value)] else [])
    + (if end.Some? then [OnOrBefore(end.value)] else [])
    + (if start.Some? && end.Some? then [Between(start.value, end.value)] else [])
  }

  /** Python truth of an optional year: set and not 0. */
  predicate TruthyYear(year: Option<int>) {
    year.Some? && year.value != 0
  }

  /** Python truth of an optional month name: set and not empty. */
  predicate TruthyMonth(month: Option<string>) {
    month.Some? && month.value != ""
  }

  /**
   * The year and month steps: the year alone, the month alone, or both
   * together when both are truthy.
   */
  function YearMonthChain(year: Option<int>, month: Option<string>): (ps: seq<Pred>)
    ensures |ps| <= 1
    ensures Selectable(year, month) ==> (ps == [] <==> year.None? && month.None?)
  {
    (if year.Some? && month.None? then [YearIs(year.value)] else [])
    + (if year.None? && month.Some? then [MonthIs(month.value)] else [])
    + (if TruthyMonth(month) && TruthyYear(year) then [YearAndMonth(year.value, month.value)] else [])
  }

  /** The step chain of `datatable_update` and `linechart_update`. */
  function TableChain(q: Query): (ps: seq<Pred>)
    ensures |ps| <= 5
    ensures q == NoQuery ==> ps == []
  {
    RangeChain(q.start, q.end, q.category) + YearMonthChain(q.year, q.month)
  }

  /** The step chain of `monthsum_update`, which has no month input. */
  function MonthSumChain(start: Option<Date>, end: Option<Date>, category: Option<string>, year: Option<int>): (ps: seq<Pred>)
    ensures |ps| <= 5
    ensures ps == [] <==> start.None? && end.None? && category.None? && year.None?
  {
    RangeChain(start, end, category) + (if year.Some? then [YearIs(year.value)] else [])
  }

  /** The intended category and date-range constraint: each set input must hold. */
  predicate InRange(start: Option<Date>, end: Option<Date>, category: Option<string>, t: Transaction) {
    && (category.Some? ==> t.category == category.value)
    && (start.Some? ==> DateLe(start.value, t.date))
    && (end.Some? ==> DateLe(t.date, end.value))
  }

  /** The intended year and month constraint: each set input must hold. */
  predicate InYearMonth(year: Option<int>, month: Option<string>, t: Transaction) {
    && (year.Some? ==> t.year == year.value)
    && (month.Some? ==> t.monthName == month.value)
  }

  predicate Matches(q: Query, t: Transaction) {
    InRange(q.start, q.end, q.category, t) && InYearMonth(q.year, q.month, t)
  }

  /** Year and month inputs as the dropdowns offer them: a real year and a month name. */
  predicate Selectable(year: Option<int>, month: Option<string>) {
    (year.Some? ==> year.value != 0) && (month.Some? ==> month.value != "")
  }

  lemma OptionalStep(b: bool, p: Pred, t: Transaction)
    ensures AllHold(if b then [p] else [], t) <==> (b ==> Holds(p, t))
  {
    if b {
      assert [p][0] == p;
    }
  }

  /** The category and range steps keep exactly the rows meeting every set bound. */
  lemma RangeChainMeaning(start: Option<Date>, end: Option<Date>, category: Option<string>, t: Transaction)
    ensures AllHold(RangeChain(start, end, category), t) <==> InRange(start, end, category, t)
  {
    var c := if category.Some? then [CategoryIs(category.value)] else [];
    var a := if start.Some? then [OnOrAfter(start.value)] else [];
    var e := if end.Some? then [OnOrBefore(end.value)] else [];
    var both := if start.Some? && end.Some? then [Between(start.value, end.value)] else [];
    AllHoldConcat(c + a + e, both, t);
    AllHoldConcat(c + a, e, t);
    AllHoldConcat(c, a, t);
    if category.Some? {
      OptionalStep(true, CategoryIs(category.value), t);
    }
    if start.Some? {
      OptionalStep(true, OnOrAfter(start.value), t);
    }
    if start.Some? && end.Some? {
      assert both == [Between(start.value, end.value)];
      OptionalStep(true, Between(start.value, end.value), t);
    }
    if end.Some? {
      OptionalStep(true, OnOrBefore(end.value), t);
    }
  }

  /**
   * The year and month steps keep exactly the rows of the set year and month,
   * as long as those inputs are values the dropdowns offer.
   */
  lemma YearMonthChainMeaning(year: Option<int>, month: Option<string>, t: Transaction)
    requires Selectable(year, month)
    ensures AllHold(YearMonthChain(year, month), t) <==> InYearMonth(year, month, t)
  {
    if year.Some? && month.Some? {
      assert YearMonthChain(year, month) == [YearAndMonth(year.value, month.value)];
      OptionalStep(true, YearAndMonth(year.value, month.value), t);
    } else if year.Some? {
      assert YearMonthChain(year, month) == [YearIs(year.value)];
      OptionalStep(true, YearIs(year.value), t);
    } else if month.Some? {
      assert YearMonthChain(year, month) == [MonthIs(month.value)];
      OptionalStep(true, MonthIs(month.value), t);
    } else {
      assert YearMonthChain(year, month) == [];
    }
  }

  /**
   * Python truthiness: a year of 0 or an empty month name, set together with
   * the other input, switches off both the year and the month step.
   */
  lemma FalsyYearOrMonthSkipsBoth()
    ensures YearMonthChain(Some(0), Some("March")) == []
    ensures YearMonthChain(Some(2023), Some("")) == []
  {
  }

  /** The table chain is the conjunction of every set input. */
  lemma TableChainMeaning(q: Query, t: Transaction)
    requires Selectable(q.year, q.month)
    ensures AllHold(TableChain(q), t) <==> Matches(q, t)
  {
    AllHoldConcat(RangeChain(q.start, q.end, q.category), YearMonthChain(q.year, q.month), t);
    RangeChainMeaning(q.start, q.end, q.category, t);
    YearMonthChainMeaning(q.year, q.month, t);
  }

  /** The monthly-sum chain is the conjunction of its set inputs; a year of 0 is an ordinary year here. */
  lemma MonthSumChainMeaning(start: Option<Date>, end: Option<Date>, category: Option<string>, year: Option<int>, t: Transaction)
    ensures AllHold(MonthSumChain(start, end, category, year), t) <==>
      InRange(start, end, category, t) && (year.Some? ==> t.year == year.value)
  {
    AllHoldConcat(RangeChain(start, end, category), if year.Some? then [YearIs(year.value)] else [], t);
    RangeChainMeaning(start, end, category, t);
    if year.Some? {
      OptionalStep(true, YearIs(year.value), t);
    }
  }

  /**
   * The filtering shared by `datatable_update` and `linechart_update`: the
   * store sorted by date, then narrowed step by step.
   */
  method TableFilter(store: seq<Transaction>, q: Query) returns (rows: seq<Transaction>)
    ensures rows == Where(SortByDate(store), TableChain(q))
    ensures SortedByDate(rows)
    ensures Selectable(q.year, q.month) ==> forall t :: t in rows <==> t in store && Matches(q, t)
    ensures q == NoQuery ==> rows == SortByDate(store)
  {
    var sorted := SortByDate(store);
    rows := ApplyChain(sorted, TableChain(q));
    WhereKeepsDateOrder(sorted, TableChain(q));
    if Selectable(q.year, q.month) {
      forall t ensures t in rows <==> t in store && Matches(q, t) {
        WhereCounts(sorted, TableChain(q), t);
        TableChainMeaning(q, t);
        assert t in sorted <==> t in multiset(store);
      }
    }
    if q == NoQuery {
      assert TableChain(q) == [];
      WhereNoConditions(sorted);
    }
  }

  /** `datatable_update`: the filtered rows sorted once more by date, which leaves them as they are. */
  method DatatableUpdate(store: seq<Transaction>, q: Query) returns (table: seq<Transaction>)
    ensures table == Where(SortByDate(store), TableChain(q))
  {
    var rows := TableFilter(store, q);
    table := SortByDate(rows);
    SortByDateOfSorted(rows);
  }

  /** Running the table filter on its own result gives that result again. */
  lemma TableFilterIdempotent(store: seq<Transaction>, q: Query)
    ensures Where(SortByDate(Where(SortByDate(store), TableChain(q))), TableChain(q))
         == Where(SortByDate(store), TableChain(q))
  {
    var once := Where(SortByDate(store), TableChain(q));
    WhereKeepsDateOrder(SortByDate(store), TableChain(q));
    SortByDateOfSorted(once);
    WhereIdempotent(SortByDate(store), TableChain(q));
  }
}
