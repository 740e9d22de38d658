# Personal-finance dashboard: the record-processing core

The dashboard reads two credit-card ledger exports and one bank-account statement. It keeps one store of
card purchases and draws charts and a table from it. The charts redraw whenever a filter input changes.
This project models the part of the program that processes records, leaving out the UI:

- **Card-ledger normaliser** (`get_credit_data`). `Ledger.Normalise` keeps the rows whose amount is at most
  zero, which are the purchases. It negates their amounts and derives the year, month number and English
  month name from each transaction date. It then sorts by transaction date. A date that is not a real
  calendar date is a `ParseError`.
- **The store** (`Ledger.LoadTransactions`). The two normalised ledgers are concatenated. What comes out is
  the list of distinct years in ascending order (`Ledger.Years`) and the list of distinct categories in
  first-seen order (`Ledger.Categories`).
- **The filter engine** (`Filters`). Each callback narrows the store with a chain of `df = df[condition]`
  steps. Which steps run depends on which inputs are set. `Filters.Where` is such a chain applied to a
  sequence. The methods `Filters.Keep` and `Filters.ApplyChain` apply the steps one at a time.
  `Filters.TableChain`, `Filters.MonthSumChain` and `Filters.YearMonthChain` build the chains of the table
  and line chart, the monthly chart and the pie chart, step for step and branch for branch as the code
  does. That includes the code's repeated start/end step and its Python-truthiness test `if month and year`.
- **Aggregation** (`Aggregation`). `end_of_month` is the method `Aggregation.EndOfMonth`. The monthly
  spending totals are `Aggregation.MonthlyTotals` and the pie chart's category sums are
  `Aggregation.CategoryTotals`. The four callbacks each return what they hand to the plotting layer.
- **Bank reconciler** (`get_bank_data`, `Bank`). It computes the monthly net income, keyed at day 28. It also
  computes the month-end balance: entries are ranked within each month the way `rank(method='first')` does,
  and the top-ranked entry is kept.

Conventions of the model:

- Dates are `(year, month, day)` triples. `Dates.ValidDate` adds the Gregorian month lengths.
- Chronological order is compared through `Dates.Ordinal`. `Dates.OrdinalIsChronological` proves this is
  calendar order.
- Money is integer cents.
- An unset input (`None`) is `Wrappers.None`.

## Model

| member | source | states |
|---|---|---|
| Dates.DaysInMonth | Dashboard.py:22-24 | the calendar-date test `pd.to_datetime` applies to the ledger dates here and to the posting dates at Dashboard.py:59: month lengths are 28 to 31 days, and 31 days exactly for the months of the 31-day list |
| Dates.OrdinalIsChronological | Dashboard.py:33 | the date order used for sorting and filtering is year, then month, then day; equal positions mean equal dates |
| Dates.MonthNameRoundTrip | Dashboard.py:32 | a derived month name reads back as its month number |
| Dates.MonthNameInjective | Dashboard.py:51 | different months have different names, so filtering on a month name selects one month |
| Dates.MonthEnd | Dashboard.py:446-462 | the anchor keeps the year and month; day 31 for months 1, 3, 5, 7, 8, 10, 12, day 30 for 4, 6, 9, 11, and day 28 for February |
| Dates.SameMonthEndIffSameMonth | Dashboard.py:453-460 | two dates share an anchor if and only if they are in the same year and month |
| Dates.MonthEndIsLastDay | Dashboard.py:455-460 | for a real date outside February the anchor is the month's last day; the anchor never precedes the date except on 29 February |
| Dates.LeapDayAnchorsEarlier | Dashboard.py:459-460 | 29 February 2024 is anchored on the 28th, a day before itself |
| Dates.MonthEndMonotone | Dashboard.py:497-498 | anchoring preserves date order |
| Sequences.Dedup | Dashboard.py:53 | `pd.unique`: no duplicates, the same members, in order of first appearance |
| Sequences.SortBy | Dashboard.py:33 | sorting returns an ascending list, a permutation of the input of the same length |
| Sequences.SortSortedIsIdentity | Dashboard.py:396 | the model's stable insertion sort returns an already sorted list unchanged, rows with equal keys included |
| Sequences.SortedUnique | Dashboard.py:52 | `sorted(pd.unique(...))`: strictly ascending, with the same members as the input |
| Sequences.GroupSorted | Dashboard.py:498 | `groupby(...).sum()`: keys strictly ascending and the same key set as the input; each key's sum and the grand total unchanged |
| Sequences.AddSortedSumAt | Dashboard.py:498 | adding an amount to a key's bucket raises that key's sum and the total by the amount and leaves every other key's sum as it was |
| Sequences.AddFirstSeenSumAt | Dashboard.py:356 | adding an amount to a category's bucket raises that category's sum and the total by the amount and leaves every other sum as it was |
| Sequences.GroupFirstSeen | Dashboard.py:356 | grouping by category: keys deduplicated in first-seen order; each key's sum and the grand total unchanged |
| Ledger.SortByDate | Dashboard.py:33 | `sort_values('transaction_date')`: ascending by date, a permutation of the input of the same length |
| Ledger.SortByDateOfSorted | Dashboard.py:40 | the model's stable sort returns rows already in date order unchanged, same-date rows included |
| Ledger.ToTransaction | Dashboard.py:28-32 | a retained row keeps its date, description, category and type, has its amount negated, and gets year, month number and month name from its own date |
| Ledger.Debits | Dashboard.py:27-32 | at most one transaction per row; the transactions present are exactly those produced by rows with amount at most zero; amounts are non-negative and year, month and month name come from the row's own date |
| Ledger.DebitsOfRow | Dashboard.py:27-28 | one row gives one transaction when its amount is at most zero and none otherwise |
| Ledger.DebitsConcat | Dashboard.py:27-28 | the debits of two blocks of rows are those of the first block followed by those of the second; with `Ledger.DebitsOfRow` this fixes the result row by row, in input order and with every duplicate kept |
| Ledger.DuplicatePurchasesAreKept | Dashboard.py:27-28 | two identical purchase rows give two identical transactions |
| Ledger.Normalise | Dashboard.py:15-42 | fails exactly when some date is not a calendar date; otherwise it returns the retained rows sorted by date, as a permutation, with non-negative amounts and derived fields |
| Ledger.NormaliseKeepsExactlyDebits | Dashboard.py:27-28 | a transaction is in the normalised ledger if and only if a row with amount at most zero produces it, so rows with a positive amount are all dropped |
| Ledger.ZeroAmountIsKept | Dashboard.py:27-28 | a zero amount survives normalisation, so the bound on amounts is not strict |
| Ledger.LoadTransactions | Dashboard.py:46-48 | succeeds exactly when both ledgers parse; the store is the first ledger's debits, sorted by date, followed by the second ledger's debits, sorted by date, each part holding exactly its own ledger's transactions with their multiplicities |
| Ledger.Years | Dashboard.py:52 | the years are strictly ascending and are exactly the years present in the store |
| Ledger.Categories | Dashboard.py:53 | the categories have no duplicates, are exactly those present in the store, and follow the order of each category's first transaction |
| Filters.Where | Dashboard.py:371-389 | the filtered rows are no more than the input and each satisfies every step; `Filters.WhereCounts` states which rows are kept and how often |
| Filters.WhereCounts | Dashboard.py:371-389 | a row is kept if and only if it is in the input and satisfies every step, with its multiplicity |
| Filters.WhereNoConditions | Dashboard.py:371 | a chain with no steps returns the input unchanged |
| Filters.WhereThenWhere | Dashboard.py:371-389 | filtering by one chain and then another equals filtering by the two chains joined |
| Filters.ImpliedConditionIsRedundant | Dashboard.py:380-383 | a step implied by the earlier steps removes nothing |
| Filters.WhereIdempotent | Dashboard.py:374-383 | filtering twice by the same chain equals filtering once |
| Filters.WhereIsConjunction | Dashboard.py:371-389 | filtering depends only on which rows the steps accept |
| Filters.RepeatedRangeIsRedundant | Dashboard.py:374-383 | the joint start/end step after the separate start and end steps leaves the result unchanged |
| Filters.WhereKeepsDateOrder | Dashboard.py:371-389 | filtering a date-sorted list yields a date-sorted list |
| Filters.Keep | Dashboard.py:373 | one `df = df[condition]` step keeps exactly the rows meeting the condition, in order |
| Filters.ApplyChain | Dashboard.py:371-389 | applying the steps one after another is the whole chain's filter |
| Filters.RangeChain | Dashboard.py:372-383 | at most four steps, and no step exactly when no category, start or end is set; `Filters.RangeChainMeaning` gives the steps' meaning |
| Filters.YearMonthChain | Dashboard.py:346-355 | at most one year or month step runs; for inputs the dropdowns offer, none runs exactly when neither year nor month is set; `Filters.YearMonthChainMeaning` gives its meaning |
| Filters.TableChain | Dashboard.py:372-389 | at most five steps, none when no input is set; `Filters.TableChainMeaning` gives its meaning |
| Filters.MonthSumChain | Dashboard.py:475-486 | at most five steps, none exactly when no input is set; `Filters.MonthSumChainMeaning` gives its meaning |
| Filters.RangeChainMeaning | Dashboard.py:372-383 | the category and range steps accept a row if and only if it meets every set category, start and end bound |
| Filters.YearMonthChainMeaning | Dashboard.py:384-389 | for years and names the dropdowns offer, the year and month steps accept a row if and only if it meets every set year and month |
| Filters.FalsyYearOrMonthSkipsBoth | Dashboard.py:388-389 | year 0 or an empty month name, set together with the other input, switches off both year and month steps |
| Filters.TableChainMeaning | Dashboard.py:370-389 | the table chain accepts a row if and only if it matches every set input |
| Filters.MonthSumChainMeaning | Dashboard.py:473-488 | the monthly-chart chain accepts a row if and only if it meets the set range, category and year, with year 0 an ordinary year |
| Filters.TableFilter | Dashboard.py:370-389 | the rows are the date-sorted store narrowed by the chain, sorted by date; for offered inputs they are exactly the store's matching rows; with nothing set they are the whole store in date order |
| Filters.DatatableUpdate | Dashboard.py:370-396 | the table is the date-sorted store narrowed by the chain; in the model the final re-sort, being stable, leaves the filtered rows as they are |
| Filters.TableFilterIdempotent | Dashboard.py:370-396 | filtering the table's own result again returns it unchanged |
| Aggregation.EndOfMonth | Dashboard.py:446-462 | one anchor per row in row order, each the month-end anchor of that row's date |
| Aggregation.AnchoredAmounts | Dashboard.py:497 | one (anchor, amount) pair per row, in row order, pairing the month-end anchor of the row's date with its amount |
| Aggregation.AnchoredSums | Dashboard.py:497-498 | the anchored amounts sum per anchor to that month's spending and in total to all spending |
| Aggregation.MonthlyTotals | Dashboard.py:497-498 | buckets strictly ascending by anchor; every row's anchor is a bucket and every bucket is some row's anchor; each bucket holds its month's spending; buckets sum to the total spending |
| Aggregation.MonthlyBucketsPartition | Dashboard.py:497-498 | each row lands in exactly one monthly bucket |
| Aggregation.CategorySums | Dashboard.py:356 | the category-paired amounts sum per category to the category's spending and in total to all spending |
| Aggregation.CategoryTotals | Dashboard.py:356 | one slice per category present, in first-seen order, each holding its category's spending; slices sum to the total spending |
| Aggregation.CategoryAndMonthlyTotalsAgree | Dashboard.py:356 | the pie slices and the monthly buckets add up to the same grand total |
| Aggregation.PiechartUpdate | Dashboard.py:340-356 | slices are the category totals of the unsorted store after the year and month steps; for offered inputs a category has a slice if and only if some transaction of that year and month has it |
| Aggregation.MonthsumUpdate | Dashboard.py:473-498 | the placeholder titled "Total Spending per Month" when no row is left, otherwise the monthly totals of the remaining rows |
| Aggregation.MonthsumTotal | Dashboard.py:473-498 | the monthly chart covers exactly the store's rows in range, category and year, and its buckets sum to their spending |
| Aggregation.LinechartUpdate | Dashboard.py:410-443 | the placeholder titled "Overall" when no row matches, otherwise one (date, amount) point per filtered row, in date order |
| Bank.NetPairs | Dashboard.py:62 | one (day-28 key, amount) pair per entry, in entry order, keyed by the entry's posting year and month |
| Bank.NetSums | Dashboard.py:62-63 | the day-28 keyed amounts sum per key to the month's net and in total to the statement's net |
| Bank.MonthlyNet | Dashboard.py:62-63 | one row per month with postings, keyed at day 28, strictly ascending, each the signed sum of that month's amounts; rows sum to the statement's net |
| Bank.Rank | Dashboard.py:68 | a rank lies between 1 and the number of entries; `Bank.RankIncreases` orders the ranks within a month |
| Bank.RankIncreases | Dashboard.py:68 | within a month, a later posting date, or the same date on a later line, has a higher rank |
| Bank.TopRanked | Dashboard.py:68-70 | the chosen entry is of the month and has the maximum rank there; there is none exactly when the month has no entry |
| Bank.TopRankedIsLastOfMonth | Dashboard.py:67-70 | the top-ranked entry has the month's latest posting date and is the last line among entries of that date |
| Bank.LastOfMonthUnique | Dashboard.py:69-70 | each month has exactly one such last entry, so the merge yields one row per month |
| Bank.MonthRow | Dashboard.py:69-70 | a month's balance row reports the rank, posting date and balance of the month's last entry |
| Bank.MonthEndBalances | Dashboard.py:66-70 | one row per month with postings, keyed at day 1, strictly ascending; each row reports the month's last entry |
| Bank.GetBankData | Dashboard.py:57-72 | fails exactly when a posting date is not a calendar date; otherwise returns the balance series and the net-income series |
| Bank.MarchBalanceIsLatestPosting | Dashboard.py:67-70 | March postings on the 5th, the 5th and the 20th: the balance of the 20th is reported |
| Bank.SameDayTieGoesToLaterLine | Dashboard.py:68 | two postings on the same day: the later statement line is reported |
| Scenarios.SampleMonthlyTotals | Dashboard.py:446-498 | two February purchases and one March purchase give buckets (28 February, 1500) and (31 March, 2000) |
| Scenarios.SampleMarchFilter | Dashboard.py:370-389 | year 2023 with month March keeps only the March purchase |
| Scenarios.AbsentCategoryYieldsNothing | Dashboard.py:372-373 | a category no transaction has yields an empty table, not an error |

## Left out

- The Dash application, its layout, dropdowns, DataTable and server (Dashboard.py:116-330, 508-509): user-interface plumbing.
- Plotly figure construction, titles and axis labels (Dashboard.py:76-113, 356-357, 431-443, 490-505). A chart callback returns a `Figure` that is either a titled placeholder or its series of points. The pie chart returns its category slices. Plotly does the pie's per-category summing itself; the model does it in `Aggregation.CategoryTotals`.
- `pd.read_csv`, removing the `Memo` and `Check or Slip #` columns, and renaming the columns (Dashboard.py:17-20, 58): file input. Rows arrive as records with their fields already split.
- `pd.to_datetime` string parsing (Dashboard.py:22, 24, 59, 375, 378, 381-382, 415, 418, 421-422, 478, 481, 484-485): rows carry integer date triples. Only whether a triple is a calendar date is modelled. A date the parser rejects becomes `ParseError`, where the program would raise an exception. The range of pandas timestamps, 1677 to 2262, is not modelled. The time of day is dropped: the ledgers carry dates only.
- The table's display projection: renaming columns, selecting `Transaction Date`, `Description`, `Category`, `Type`, `Amount ($)`, and converting to records (Dashboard.py:23, 35-40, 391-398). This is presentation. `Filters.DatatableUpdate` returns the full transactions.
- Floating-point amounts: amounts are integer cents, so sums are exact.
- Month names are the English names of months 1 to 12. Locale is not modelled.
- Ledger.SortByDate: `sort_values` defaults to quicksort, which is not stable. The model sorts with a stable insertion sort. Its contract promises only what the program guarantees: ascending order and a permutation. The model's sort keeps rows with the same date in their input order, so `Ledger.SortByDateOfSorted`, `Sequences.SortSortedIsIdentity` and `Filters.DatatableUpdate` show the re-sorts at Dashboard.py:40 and 396 changing nothing. The program's quicksort may reorder same-date rows there; the model does not capture that reordering.
- Ledger.Normalise: retained amounts are proved to be at least zero, not strictly positive. The code keeps raw amount zero (`<= 0`), so amounts are non-negative, not strictly positive.
- Filters.YearMonthChainMeaning: the conjunctive meaning of the year and month steps is proved only for inputs the dropdowns offer (a year other than 0, a non-empty month name). The code tests `if month and year` by Python truthiness. `Filters.FalsyYearOrMonthSkipsBoth` shows the other case as written.
- Bank.MonthlyNet: `groupby(...).sum('Amount')` also sums the `Balance` column, and the code then drops it. The model keeps only the amount.
- Bank.MonthEndBalances: the model builds the balance rows directly as the rows of the maximum rank. It does not add `Month/Year` and `Rank` columns in place. It also does not model the max-rank table and the merge as separate steps. The merge on (month, rank) matches exactly one row per month, as `Bank.LastOfMonthUnique` shows.
- Bank.GetBankData: the program reads the statement file twice (Dashboard.py:74). Both reads give the same result, so the model computes it once.
- Dates.MonthEnd: February is anchored on day 28 even in a leap year, as the code does. The anchor is a label. All February dates share it, so the sums are unaffected.
