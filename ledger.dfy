/**
 * The card-ledger normaliser (`get_credit_data`) and the transaction store
 * built from the two card ledgers, with its distinct years and categories.
 */
module Ledger {
  import opened Wrappers
  import opened Dates
  import opened Sequences

  /**
   * One row of a card-ledger export with its two dates already split into
   * fields. The amount is in cents; the ledger writes purchases as negative
   * amounts and payments or returns as positive ones.
   */
  datatype RawRow = RawRow(
    transactionDate: Date,
    postDate: Date,
    description: string,
    category: string,
    kind: string,
    amount: int)

  /**
   * A canonical transaction: a purchase with its amount made non-negative
   * and its year, month and month name derived from its transaction date.
   */
  datatype Transaction = Transaction(
    date: Date,
    description: string,
    category: string,
    kind: string,
    amount: int,
    year: int,
    month: Month,
    monthName: string)

  /** A date column held a triple that is not a calendar date. */
  datatype LedgerError = ParseError

  /** The year, month and month name are those of the transaction's own date. */
  predicate Derived(t: Transaction) {
    t.year == t.date.year && t.month == t.date.month && t.monthName == MonthName(t.date.month)
  }

  /** Both date columns of every row parse as calendar dates. */
  predicate Parsed(rows: seq<RawRow>) {
    forall i :: 0 <= i < |rows| ==> ValidDate(rows[i].transactionDate) && ValidDate(rows[i].postDate)
  }

  predicate SortedByDate(ts: seq<Transaction>) {
    forall i, j :: 0 <= i < j < |ts| ==> DateLe(ts[i].date, ts[j].date)
  }

  /** The sort key of `sort_values('transaction_date')`. */
  function DateKey(t: Transaction): int {
    Ordinal(t.date)
  }

  lemma SortedByDateKey(ts: seq<Transaction>)
    ensures SortedByDate(ts) <==> SortedBy(ts, DateKey)
  {
  }

  /** Ordinal tells dates apart, so it can key sorted groupings of dates. */
  lemma OrdinalInjective()
    ensures Injective(Ordinal)
  {
    forall a: Date, b: Date ensures Ordinal(a) == Ordinal(b) ==> a == b {
      OrdinalIsChronological(a, b);
    }
  }

  /** `sort_values('transaction_date')`: ascending by date, a permutation of its input. */
  function SortByDate(ts: seq<Transaction>): (r: seq<Transaction>)
    ensures SortedByDate(r)
    ensures multiset(r) == multiset(ts) && |r| == |ts|
  {
    var r := SortBy(ts, DateKey);
    SortedByDateKey(r);
    r
  }

  /** Sorting rows already in date order returns them unchanged. */
  lemma SortByDateOfSorted(ts: seq<Transaction>)
    requires SortedByDate(ts)
    ensures SortByDate(ts) == ts
  {
    SortedByDateKey(ts);
    SortSortedIsIdentity(ts, DateKey);
  }

  /** The transaction a retained row becomes: amount negated, dates derived, post date dropped. */
  function ToTransaction(r: RawRow): (t: Transaction)
    ensures Derived(t)
    ensures t.date == r.transactionDate && t.amount == -r.amount
    ensures t.description == r.description && t.category == r.category && t.kind == r.kind
  {
    var d := r.transactionDate;
    Transaction(d, r.description, r.category, r.kind, -r.amount, d.year, d.month, MonthName(d.month))
  }

  /** Some row with amount at most zero becomes t. */
  ghost predicate ProducedBy(rows: seq<RawRow>, t: Transaction) {
    exists i :: 0 <= i < |rows| && rows[i].amount <= 0 && t == ToTransaction(rows[i])
  }

  lemma ProducedBySplit(rows: seq<RawRow>, t: Transaction)
    requires rows != []
    ensures ProducedBy(rows, t) <==>
      (rows[0].amount <= 0 && t == ToTransaction(rows[0])) || ProducedBy(rows[1..], t)
  {
    if ProducedBy(rows, t) {
      var i :| 0 <= i < |rows| && rows[i].amount <= 0 && t == ToTransaction(rows[i]);
      if i > 0 {
        assert rows[1..][i - 1] == rows[i];
      }
    }
    if ProducedBy(rows[1..], t) {
      var i :| 0 <= i < |rows[1..]| && rows[1..][i].amount <= 0 && t == ToTransaction(rows[1..][i]);
      assert rows[i + 1] == rows[1..][i];
    }
  }

  /** The rows with amount at most zero, as transactions, in input order. */
  function Debits(rows: seq<RawRow>): (ts: seq<Transaction>)
    ensures |ts| <= |rows|
    ensures forall t :: t in ts ==> t.amount >= 0 && Derived(t)
    ensures forall t :: t in ts <==> ProducedBy(rows, t)
  {
    if rows == [] then []
    else
      var rest := Debits(rows[1..]);
      forall t ensures ProducedBy(rows, t) <==>
        (rows[0].amount <= 0 && t == ToTransaction(rows[0])) || ProducedBy(rows[1..], t) {
        ProducedBySplit(rows, t);
      }
      (if rows[0].amount <= 0 then [ToTransaction(rows[0])] else []) + rest
  }

  /** A single row: a purchase becomes one transaction, anything else none. */
  lemma DebitsOfRow(r: RawRow)
    ensures Debits([r]) == if r.amount <= 0 then [ToTransaction(r)] else []
  {
    assert [r][1..] == [];
  }

  /**
   * Debits works row by row: the debits of two blocks of rows are the debits
   * of the first followed by those of the second. With DebitsOfRow this fixes
   * the result completely, so every row is kept once each, duplicates included.
   */
  lemma {:induction false} DebitsConcat(a: seq<RawRow>, b: seq<RawRow>)
    ensures Debits(a + b) == Debits(a) + Debits(b)
  {
    if a == [] {
      assert a + b == b;
    } else {
      var x, tail := a[0], a[1..];
      assert a == [x] + tail;
      assert a + b == [x] + (tail + b);
      DebitsCons(x, tail);
      DebitsCons(x, tail + b);
      DebitsConcat(tail, b);
    }
  }

  lemma DebitsCons(x: RawRow, rest: seq<RawRow>)
    ensures Debits([x] + rest) == (if x.amount <= 0 then [ToTransaction(x)] else []) + Debits(rest)
  {
    assert ([x] + rest)[0] == x;
    assert ([x] + rest)[1..] == rest;
  }

  /** Two identical purchases stay two transactions. */
  lemma DuplicatePurchasesAreKept(r: RawRow)
    requires r.amount <= 0
    ensures Debits([r, r]) == [ToTransaction(r), ToTransaction(r)]
  {
    assert [r, r] == [r] + [r];
    DebitsConcat([r], [r]);
    DebitsOfRow(r);
  }

  /**
   * `get_credit_data`: fails when a date does not parse; otherwise keeps the
   * purchases, negates their amounts, derives year, month and month name,
   * and sorts by transaction date.
   */
  function Normalise(rows: seq<RawRow>): (r: Result<seq<Transaction>, LedgerError>)
    ensures r.Err? <==> !Parsed(rows)
    ensures r.Ok? ==> SortedByDate(r.value)
    ensures r.Ok? ==> multiset(r.value) == multiset(Debits(rows)) && |r.value| == |Debits(rows)|
    ensures r.Ok? ==> forall t :: t in r.value ==> t.amount >= 0 && Derived(t)
  {
    if !Parsed(rows) then Err(ParseError)
    else
      var sorted := SortByDate(Debits(rows));
      assert forall t :: t in sorted ==> t in multiset(Debits(rows));
      Ok(sorted)
  }

  /**
   * A transaction is in the normalised ledger exactly when some row with
   * amount at most zero produces it; rows with positive amounts produce none.
   */
  lemma NormaliseKeepsExactlyDebits(rows: seq<RawRow>, t: Transaction)
    requires Parsed(rows)
    ensures Normalise(rows).Ok?
    ensures t in Normalise(rows).value <==>
      exists i :: 0 <= i < |rows| && rows[i].amount <= 0 && t == ToTransaction(rows[i])
  {
    var out := Normalise(rows).value;
    assert t in out <==> t in multiset(out);
    assert t in Debits(rows) <==> t in multiset(Debits(rows));
    assert t in Debits(rows) <==> ProducedBy(rows, t);
  }

  /** A zero amount is kept: normalised amounts are non-negative, not strictly positive. */
  lemma ZeroAmountIsKept(d: Date)
    requires ValidDate(d)
    ensures Normalise([RawRow(d, d, "refund", "Shopping", "Sale", 0)]).Ok?
    ensures Normalise([RawRow(d, d, "refund", "Shopping", "Sale", 0)]).value[0].amount == 0
  {
    var rows := [RawRow(d, d, "refund", "Shopping", "Sale", 0)];
    assert Debits(rows) == [ToTransaction(rows[0])];
    SortByDateOfSorted(Debits(rows));
  }

  /**
   * The store: the two normalised card ledgers concatenated, each keeping
   * its own date order; the concatenation as a whole is not re-sorted.
   */
  function LoadTransactions(flex: seq<RawRow>, unlimited: seq<RawRow>): (r: Result<seq<Transaction>, LedgerError>)
    ensures r.Ok? <==> Parsed(flex) && Parsed(unlimited)
    ensures r.Ok? ==> |r.value| == |Debits(flex)| + |Debits(unlimited)|
    ensures r.Ok? ==> SortedByDate(r.value[..|Debits(flex)|]) && SortedByDate(r.value[|Debits(flex)|..])
    ensures r.Ok? ==> multiset(r.value[..|Debits(flex)|]) == multiset(Debits(flex))
    ensures r.Ok? ==> multiset(r.value[|Debits(flex)|..]) == multiset(Debits(unlimited))
    ensures r.Ok? ==> multiset(r.value) == multiset(Debits(flex)) + multiset(Debits(unlimited))
    ensures r.Ok? ==> forall t :: t in r.value ==> t.amount >= 0 && Derived(t)
  {
    match Normalise(flex)
    case Err(e) => Err(e)
    case Ok(a) =>
      match Normalise(unlimited)
      case Err(e) => Err(e)
      case Ok(b) =>
        assert (a + b)[..|a|] == a && (a + b)[|a|..] == b;
        assert forall t :: t in a + b ==> t in a || t in b;
        Ok(a + b)
  }

  function YearColumn(ts: seq<Transaction>): (ys: seq<int>)
    ensures |ys| == |ts| && forall i :: 0 <= i < |ts| ==> ys[i] == ts[i].year
  {
    seq(|ts|, i requires 0 <= i < |ts| => ts[i].year)
  }

  function CategoryColumn(ts: seq<Transaction>): (cs: seq<string>)
    ensures |cs| == |ts| && forall i :: 0 <= i < |ts| ==> cs[i] == ts[i].category
  {
    seq(|ts|, i requires 0 <= i < |ts| => ts[i].category)
  }

  function YearKey(y: int): int {
    y
  }

  /** `sorted(pd.unique(...))` of the years: strictly ascending, exactly the years present. */
  function Years(ts: seq<Transaction>): (ys: seq<int>)
    ensures forall i, j :: 0 <= i < j < |ys| ==> ys[i] < ys[j]
    ensures forall y :: y in ys <==> exists t :: t in ts && t.year == y
  {
    assert Injective(YearKey);
    var ys := SortedUnique(YearColumn(ts), YearKey);
    assert forall y :: y in YearColumn(ts) <==> exists t :: t in ts && t.year == y by {
      forall y | y in YearColumn(ts) ensures exists t :: t in ts && t.year == y {
        var i :| 0 <= i < |ts| && YearColumn(ts)[i] == y;
        assert ts[i] in ts;
      }
    }
    ys
  }

  /**
   * `pd.unique` of the categories: each category present once, listed in the
   * order in which its first transaction appears.
   */
  function Categories(ts: seq<Transaction>): (cs: seq<string>)
    ensures Distinct(cs)
    ensures forall c :: c in cs <==> c in CategoryColumn(ts)
    ensures forall c :: c in cs <==> exists t :: t in ts && t.category == c
    ensures forall i, j :: 0 <= i < j < |cs| ==>
      FirstIndex(CategoryColumn(ts), cs[i]) < FirstIndex(CategoryColumn(ts), cs[j])
  {
    var cs := Dedup(CategoryColumn(ts));
    assert forall c :: c in CategoryColumn(ts) <==> exists t :: t in ts && t.category == c by {
      forall c | c in CategoryColumn(ts) ensures exists t :: t in ts && t.category == c {
        var i :| 0 <= i < |ts| && CategoryColumn(ts)[i] == c;
        assert ts[i] in ts;
      }
    }
    cs
  }
}
