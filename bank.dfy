/**
 * The bank reconciler (`get_bank_data`): net income per month and the
 * month-end balance chosen by ranking each month's entries.
 */
module Bank {
  import opened Wrappers
  import opened Dates
  import opened Sequences
  import opened Ledger

  /** One statement line: signed amount in cents and the running balance after it. */
  datatype BankEntry = BankEntry(postingDate: Date, amount: int, balance: int)

  /** One row of the month-end balance series. */
  datatype MonthBalance = MonthBalance(anchor: Date, rank: int, postingDate: Date, balance: int)

  /** Every posting date parses as a calendar date. */
  predicate StatementParsed(entries: seq<BankEntry>) {
    forall i :: 0 <= i < |entries| ==> ValidDate(entries[i].postingDate)
  }

  /** The `Month/Year` key of the net-income series: day 28 of the month. */
  function NetAnchor(d: Date): Date {
    Date(d.year, d.month, 28)
  }

  /** The `Month/Year` key of the balance series: day 1 of the month. */
  function BalanceAnchor(d: Date): Date {
    Date(d.year, d.month, 1)
  }

  // ---------------------------------------------------------------------
  // Monthly net income
  // ---------------------------------------------------------------------

  function NetPairs(entries: seq<BankEntry>): (pairs: seq<(Date, int)>)
    ensures |pairs| == |entries|
    ensures forall i :: 0 <= i < |entries| ==> pairs[i] == (NetAnchor(entries[i].postingDate), entries[i].amount)
  {
    seq(|entries|, i requires 0 <= i < |entries| => (NetAnchor(entries[i].postingDate), entries[i].amount))
  }

  /** The signed sum of the amounts posted in the given year and month. */
  function MonthNet(entries: seq<BankEntry>, year: int, month: Month): int {
    if entries == [] then 0
    else
      (if entries[0].postingDate.year == year && entries[0].postingDate.month == month then entries[0].amount else 0)
      + MonthNet(entries[1..], year, month)
  }

  function Net(entries: seq<BankEntry>): int {
    if entries == [] then 0 else entries[0].amount + Net(entries[1..])
  }

  lemma {:induction false} NetSums(entries: seq<BankEntry>, d: Date)
    ensures SumAt(NetPairs(entries), NetAnchor(d)) == MonthNet(entries, d.year, d.month)
    ensures Total(NetPairs(entries)) == Net(entries)
  {
    if entries != [] {
      assert NetPairs(entries)[1..] == NetPairs(entries[1..]);
      NetSums(entries[1..], d);
    }
  }

  /**
   * `monthly_net`: one row per month with postings, keyed at day 28,
   * ascending, holding the signed sum of that month's amounts.
   */
  function MonthlyNet(entries: seq<BankEntry>): (net: seq<(Date, int)>)
    ensures forall i, j :: 0 <= i < j < |net| ==> DateLt(net[i].0, net[j].0)
    ensures forall i :: 0 <= i < |net| ==> net[i].0.day == 28
    ensures forall k :: 0 <= k < |entries| ==> NetAnchor(entries[k].postingDate) in Keys(net)
    ensures forall i :: 0 <= i < |net| ==>
      exists k :: 0 <= k < |entries| && net[i].0 == NetAnchor(entries[k].postingDate)
    ensures forall i :: 0 <= i < |net| ==> net[i].1 == MonthNet(entries, net[i].0.year, net[i].0.month)
    ensures Total(net) == Net(entries)
  {
    OrdinalInjective();
    var pairs := NetPairs(entries);
    var net := GroupSorted(pairs, Ordinal);
    AscendingIsDistinct(Keys(net), Ordinal);
    forall k | 0 <= k < |entries| ensures NetAnchor(entries[k].postingDate) in Keys(net) {
      assert Keys(pairs)[k] == NetAnchor(entries[k].postingDate);
    }
    forall i | 0 <= i < |net|
      ensures exists k :: 0 <= k < |entries| && net[i].0 == NetAnchor(entries[k].postingDate)
      ensures net[i].0.day == 28
      ensures net[i].1 == MonthNet(entries, net[i].0.year, net[i].0.month)
    {
      assert Keys(net)[i] == net[i].0;
      assert net[i].0 in Keys(pairs);
      var k :| 0 <= k < |pairs| && Keys(pairs)[k] == net[i].0;
      assert net[i].0 == NetAnchor(entries[k].postingDate);
      SumAtDistinct(net, i);
      NetSums(entries, entries[k].postingDate);
    }
    NetSums(entries, Date(0, 1, 1));
    net
  }

  // ---------------------------------------------------------------------
  // Month-end balance: rank(method='first') within each month, keep the top
  // ---------------------------------------------------------------------

  predicate SameMonth(entries: seq<BankEntry>, j: nat, i: nat)
    requires j < |entries| && i < |entries|
  {
    BalanceAnchor(entries[j].postingDate) == BalanceAnchor(entries[i].postingDate)
  }

  /**
   * Entry j is ranked below entry i: same month, and an earlier posting date,
   * or the same posting date and an earlier line of the statement.
   */
  predicate RankedBelow(entries: seq<BankEntry>, j: nat, i: nat)
    requires j < |entries| && i < |entries|
  {
    && SameMonth(entries, j, i)
    && (DateLt(entries[j].postingDate, entries[i].postingDate)
        || (entries[j].postingDate == entries[i].postingDate && j < i))
  }

  /** How many of the first n entries are ranked below entry i. */
  function CountBelow(entries: seq<BankEntry>, i: nat, n: nat): (c: nat)
    requires i < |entries| && n <= |entries|
    ensures c <= n
    ensures i < n ==> c < n
  {
    if n == 0 then 0
    else CountBelow(entries, i, n - 1) + (if RankedBelow(entries, n - 1, i) then 1 else 0)
  }

  /** `rank(method='first')` of entry i among the entries of its month. */
  function Rank(entries: seq<BankEntry>, i: nat): (k: int)
    requires i < |entries|
    ensures 1 <= k <= |entries|
  {
    1 + CountBelow(entries, i, |entries|)
  }

  lemma {:induction false} CountBelowGrows(entries: seq<BankEntry>, j: nat, i: nat, n: nat)
    requires j < |entries| && i < |entries| && n <= |entries|
    requires RankedBelow(entries, j, i)
    ensures CountBelow(entries, j, n) + (if j < n then 1 else 0) <= CountBelow(entries, i, n)
  {
    if n > 0 {
      CountBelowGrows(entries, j, i, n - 1);
      var k := n - 1;
      if RankedBelow(entries, k, j) {
        assert RankedBelow(entries, k, i);
      }
    }
  }

  /** Ranks grow with (posting date, statement line) inside a month. */
  lemma RankIncreases(entries: seq<BankEntry>, j: nat, i: nat)
    requires j < |entries| && i < |entries|
    requires RankedBelow(entries, j, i)
    ensures Rank(entries, j) < Rank(entries, i)
  {
    CountBelowGrows(entries, j, i, |entries|);
  }

  /** Among the first n entries, the one of month `anchor` with the highest rank. */
  function TopRanked(entries: seq<BankEntry>, anchor: Date, n: nat): (top: Option<nat>)
    requires n <= |entries|
    ensures top.Some? ==> top.value < n && BalanceAnchor(entries[top.value].postingDate) == anchor
    ensures top.Some? ==> forall j :: 0 <= j < n && BalanceAnchor(entries[j].postingDate) == anchor ==>
      Rank(entries, j) <= Rank(entries, top.value)
    ensures top.None? <==> forall j :: 0 <= j < n ==> BalanceAnchor(entries[j].postingDate) != anchor
  {
    if n == 0 then None
    else
      var prev := TopRanked(entries, anchor, n - 1);
      if BalanceAnchor(entries[n - 1].postingDate) != anchor then prev
      else if prev.None? || Rank(entries, n - 1) > Rank(entries, prev.value) then Some(n - 1)
      else prev
  }

  /**
   * Entry k is the last of its month: no entry of the month has a later
   * posting date, and none with the same date comes later in the statement.
   */
  predicate LastOfMonth(entries: seq<BankEntry>, k: nat)
    requires k < |entries|
  {
    forall j :: 0 <= j < |entries| && SameMonth(entries, j, k) ==>
      DateLe(entries[j].postingDate, entries[k].postingDate)
      && (entries[j].postingDate == entries[k].postingDate ==> j <= k)
  }

  /** The top-ranked entry of a month is its last entry by posting date, ties going to the later line. */
  lemma TopRankedIsLastOfMonth(entries: seq<BankEntry>, anchor: Date)
    requires TopRanked(entries, anchor, |entries|).Some?
    ensures LastOfMonth(entries, TopRanked(entries, anchor, |entries|).value)
  {
    var k := TopRanked(entries, anchor, |entries|).value;
    forall j | 0 <= j < |entries| && SameMonth(entries, j, k)
      ensures DateLe(entries[j].postingDate, entries[k].postingDate)
      ensures entries[j].postingDate == entries[k].postingDate ==> j <= k
    {
      if RankedBelow(entries, k, j) {
        RankIncreases(entries, k, j);
      }
    }
  }

  /** Each month has only one last entry. */
  lemma LastOfMonthUnique(entries: seq<BankEntry>, k: nat, m: nat)
    requires k < |entries| && m < |entries| && SameMonth(entries, k, m)
    requires LastOfMonth(entries, k) && LastOfMonth(entries, m)
    ensures k == m
  {
    OrdinalIsChronological(entries[k].postingDate, entries[m].postingDate);
  }

  function BalanceAnchors(entries: seq<BankEntry>): (anchors: seq<Date>)
    ensures |anchors| == |entries|
    ensures forall i :: 0 <= i < |entries| ==> anchors[i] == BalanceAnchor(entries[i].postingDate)
  {
    seq(|entries|, i requires 0 <= i < |entries| => BalanceAnchor(entries[i].postingDate))
  }

  /** The row reports the month, rank, posting date and balance of the last entry of its month. */
  ghost predicate ReportsLastEntry(entries: seq<BankEntry>, row: MonthBalance) {
    exists k ::
      && 0 <= k < |entries|
      && LastOfMonth(entries, k)
      && row == MonthBalance(BalanceAnchor(entries[k].postingDate), Rank(entries, k),
                             entries[k].postingDate, entries[k].balance)
  }

  /** A month's row: the rank, date and balance of its top-ranked entry. */
  function MonthRow(entries: seq<BankEntry>, m: Date): (row: MonthBalance)
    requires m in BalanceAnchors(entries)
    ensures row.anchor == m
    ensures ReportsLastEntry(entries, row)
  {
    assert TopRanked(entries, m, |entries|).Some? by {
      var i :| 0 <= i < |BalanceAnchors(entries)| && BalanceAnchors(entries)[i] == m;
      assert BalanceAnchor(entries[i].postingDate) == m;
    }
    var k := TopRanked(entries, m, |entries|).value;
    TopRankedIsLastOfMonth(entries, m);
    MonthBalance(m, Rank(entries, k), entries[k].postingDate, entries[k].balance)
  }

  /** The rows of the listed months, in the order listed. */
  function RowsFor(entries: seq<BankEntry>, months: seq<Date>): (rows: seq<MonthBalance>)
    requires forall m :: m in months ==> m in BalanceAnchors(entries)
    ensures |rows| == |months|
    ensures forall i :: 0 <= i < |months| ==> rows[i].anchor == months[i] && ReportsLastEntry(entries, rows[i])
  {
    if months == [] then [] else [MonthRow(entries, months[0])] + RowsFor(entries, months[1..])
  }

  /**
   * `acct_balance`: one row per month with postings, keyed at day 1,
   * ascending, holding the rank, date and balance of the month's last entry.
   */
  function MonthEndBalances(entries: seq<BankEntry>): (rows: seq<MonthBalance>)
    ensures forall i, j :: 0 <= i < j < |rows| ==> DateLt(rows[i].anchor, rows[j].anchor)
    ensures forall i :: 0 <= i < |rows| ==> rows[i].anchor.day == 1
    ensures forall k :: 0 <= k < |entries| ==>
      exists i :: 0 <= i < |rows| && rows[i].anchor == BalanceAnchor(entries[k].postingDate)
    ensures forall i :: 0 <= i < |rows| ==> ReportsLastEntry(entries, rows[i])
  {
    OrdinalInjective();
    var months := SortedUnique(BalanceAnchors(entries), Ordinal);
    var rows := RowsFor(entries, months);
    forall k | 0 <= k < |entries|
      ensures exists i :: 0 <= i < |rows| && rows[i].anchor == BalanceAnchor(entries[k].postingDate)
    {
      assert BalanceAnchors(entries)[k] in months;
      var i :| 0 <= i < |months| && months[i] == BalanceAnchors(entries)[k];
      assert rows[i].anchor == months[i];
    }
    forall i | 0 <= i < |rows| ensures rows[i].anchor.day == 1 {
      assert months[i] in BalanceAnchors(entries);
    }
    rows
  }

  /** `get_bank_data`: a parse failure aborts; otherwise the balance and net-income series. */
  function GetBankData(entries: seq<BankEntry>): (r: Result<(seq<MonthBalance>, seq<(Date, int)>), LedgerError>)
    ensures r.Err? <==> !StatementParsed(entries)
    ensures r.Ok? ==> r.value.0 == MonthEndBalances(entries) && r.value.1 == MonthlyNet(entries)
  {
    if !StatementParsed(entries) then Err(ParseError)
    else Ok((MonthEndBalances(entries), MonthlyNet(entries)))
  }

  /**
   * March postings on the 5th (balance 100), the 5th again (90) and the
   * 20th (80): the month-end balance is the 20th's, 80.
   */
  lemma MarchBalanceIsLatestPosting()
    ensures var e := [BankEntry(Date(2023, 3, 5), -1000, 10000), BankEntry(Date(2023, 3, 5), -1000, 9000),
                      BankEntry(Date(2023, 3, 20), -1000, 8000)];
      TopRanked(e, Date(2023, 3, 1), 3) == Some(2) && e[2].balance == 8000
  {
    var e := [BankEntry(Date(2023, 3, 5), -1000, 10000), BankEntry(Date(2023, 3, 5), -1000, 9000),
              BankEntry(Date(2023, 3, 20), -1000, 8000)];
    assert BalanceAnchor(e[2].postingDate) == Date(2023, 3, 1);
    TopRankedIsLastOfMonth(e, Date(2023, 3, 1));
    var k := TopRanked(e, Date(2023, 3, 1), 3).value;
    assert SameMonth(e, 2, k);
    LastOfMonthUnique(e, k, 2);
  }

  /** Two postings on the same last day: the later statement line supplies the balance. */
  lemma SameDayTieGoesToLaterLine()
    ensures var e := [BankEntry(Date(2023, 3, 20), 500, 8000), BankEntry(Date(2023, 3, 20), -1000, 7000)];
      TopRanked(e, Date(2023, 3, 1), 2) == Some(1)
  {
    var e := [BankEntry(Date(2023, 3, 20), 500, 8000), BankEntry(Date(2023, 3, 20), -1000, 7000)];
    assert BalanceAnchor(e[1].postingDate) == Date(2023, 3, 1);
    TopRankedIsLastOfMonth(e, Date(2023, 3, 1));
    var k := TopRanked(e, Date(2023, 3, 1), 2).value;
    assert SameMonth(e, 1, k);
    LastOfMonthUnique(e, k, 1);
  }
}
