/** Worked examples of the engine on small ledgers. */
module Scenarios {
  import opened Wrappers
  import opened Dates
  import opened Sequences
  import opened Ledger
  import opened Filters
  import opened Aggregation

  function Purchase(d: Date, category: string, cents: int): Transaction {
    Transaction(d, "purchase", category, "Sale", cents, d.year, d.month, MonthName(d.month))
  }

  function Sample(): seq<Transaction> {
    [Purchase(Date(2023, 2, 27), "Food", 1000),
     Purchase(Date(2023, 2, 28), "Food", 500),
     Purchase(Date(2023, 3, 1), "Rent", 2000)]
  }

  /** February's two purchases share the day-28 anchor; March's is anchored on the 31st. */
  lemma SampleMonthlyTotals()
    ensures MonthlyTotals(Sample()) == [(Date(2023, 2, 28), 1500), (Date(2023, 3, 31), 2000)]
  {
    var s := Sample();
    var pairs := AnchoredAmounts(s);
    assert pairs == [(Date(2023, 2, 28), 1000), (Date(2023, 2, 28), 500), (Date(2023, 3, 31), 2000)];
    OrdinalInjective();
    assert pairs[1..] == [(Date(2023, 2, 28), 500), (Date(2023, 3, 31), 2000)];
    assert pairs[1..][1..] == [(Date(2023, 3, 31), 2000)];
    assert GroupSorted(pairs[1..][1..], Ordinal) == [(Date(2023, 3, 31), 2000)];
    assert GroupSorted(pairs[1..], Ordinal) == [(Date(2023, 2, 28), 500), (Date(2023, 3, 31), 2000)];
  }

  lemma MarchChain()
    ensures TableChain(Query(None, None, None, Some(2023), Some("March"))) == [YearAndMonth(2023, "March")]
  {
  }

  lemma MarchSelectsRent()
    ensures var s := Sample(); var chain := [YearAndMonth(2023, "March")];
      !AllHold(chain, s[0]) && !AllHold(chain, s[1]) && AllHold(chain, s[2])
  {
    assert MonthName(2) == "February" && MonthName(3) == "March";
    assert [YearAndMonth(2023, "March")][0] == YearAndMonth(2023, "March");
  }

  /** Year 2023 with month March keeps exactly the rent payment. */
  lemma SampleMarchFilter()
    ensures Where(SortByDate(Sample()), TableChain(Query(None, None, None, Some(2023), Some("March"))))
         == [Purchase(Date(2023, 3, 1), "Rent", 2000)]
  {
    var s := Sample();
    assert SortedByDate(s);
    SortByDateOfSorted(s);
    MarchChain();
    MarchSelectsRent();
    OnlyLastKept(s, [YearAndMonth(2023, "March")]);
  }

  lemma OnlyLastKept(s: seq<Transaction>, chain: seq<Pred>)
    requires |s| == 3 && !AllHold(chain, s[0]) && !AllHold(chain, s[1]) && AllHold(chain, s[2])
    ensures Where(s, chain) == [s[2]]
  {
    assert s[..2][..1] == s[..1] && s[..1][..0] == [];
    assert Where(s[..1], chain) == [];
    assert Where(s[..2], chain) == [];
  }

  /** A category that no transaction has yields no rows, not an error. */
  lemma AbsentCategoryYieldsNothing(store: seq<Transaction>, c: string)
    requires forall t :: t in store ==> t.category != c
    ensures Where(SortByDate(store), TableChain(Query(None, None, Some(c), None, None))) == []
  {
    var sorted := SortByDate(store);
    var rows := Where(sorted, TableChain(Query(None, None, Some(c), None, None)));
    if rows != [] {
      var t := rows[0];
      WhereCounts(sorted, TableChain(Query(None, None, Some(c), None, None)), t);
      assert t in multiset(store);
      RangeChainMeaning(None, None, Some(c), t);
      AllHoldConcat(RangeChain(None, None, Some(c)), YearMonthChain(None, None), t);
      assert false;
    }
  }
}
