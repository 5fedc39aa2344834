# Expense tracker ledger, modelled in Dafny

The expense tracker is a single-page personal-finance widget. Its one piece of
logic is an in-memory ledger held in the `ExpenseTracker` component's state.
Users add income and expense transactions through an entry form and delete
them by id. On every render the component recomputes three figures from the
ledger: the balance, the total income and the total expenses. It also builds a
six-month trend series that spreads the two totals evenly over six fixed
month labels.

The model has three modules:

- `Ledger` (`ledger.dfy`) holds the data model. It has the `Transaction`
  record, the eight category keys and the type selector (`Kind`). It also has
  the order-preserving `Filter` behind the component's five `.filter` calls,
  which use three conditions (`Criterion`), and deletion (`Without`) with its
  properties.
- `Aggregates` (`aggregates.dfy`) holds the pure aggregates. It has the signed
  sum `Total`, which folds from the left from 0 as `reduce` does, plus
  `Balance`, `TotalIncome`, `TotalExpenses` and the trend series `Trends`.
  Beside them are the lemmas that relate the aggregates to each other and to
  the ledger updates.
- `Tracker` (`tracker.dfy`) holds the component state. It is a class whose
  fields are the `useState` variables of the ledger and of the form. Its
  methods are the add and delete actions and the form's change handlers. Two
  client methods, `RentScenario` and `SalaryAndRentScenario`, derive the
  expected balances of a few concrete sessions from the contracts alone.

Amounts are exact `real`s. So `Balance == TotalIncome - TotalExpenses` holds
exactly, and the trend buckets add up to the totals exactly.

A delete removes every record whose id equals the argument (main.js:71).
Ids come from `Date.now()` (main.js:43), so two records can share one.
`DeleteLength` states the general case: the ledger shrinks by the number of
records with that id. `DeleteUnique` and `DeleteUniqueBalance` state the case
of one matching record: exactly that record goes, and its amount comes off the
balance.

## Model

| member | source | states |
|---|---|---|
| `Ledger.Filter` | main.js:31-72 | The result keeps exactly the records of the ledger that meet the condition (membership both ways), every kept record meets it, and it is no longer than the input |
| `Ledger.FilterConcat` | main.js:70-72 | Filtering distributes over concatenation, so the kept records stay in their original relative order |
| `Ledger.FilterKeepsAll` | main.js:70-72 | When every record meets the condition, filtering returns the ledger unchanged |
| `Ledger.FilterIdempotent` | main.js:70-72 | Filtering twice by the same condition equals filtering once |
| `Ledger.Without` | main.js:70-72 | After deleting an id, a record is in the ledger if and only if it was there before and carries a different id |
| `Ledger.DeleteAbsent` | main.js:70-72 | Deleting an id that no record carries leaves the ledger unchanged |
| `Ledger.DeleteIdempotent` | main.js:70-72 | Deleting the same id twice equals deleting it once |
| `Ledger.DeleteLength` | main.js:70-72 | A delete shortens the ledger by exactly the number of records carrying that id |
| `Ledger.DeleteUnique` | main.js:70-72 | When exactly one record carries the id, a delete removes that record only, keeps the others in order and shortens the ledger by one |
| `Aggregates.TotalIncome` | main.js:58-62 | Total income sums only the positive amounts and is never negative |
| `Aggregates.TotalExpenses` | main.js:64-68 | Total expenses is the negated sum of the negative amounts, that is, their absolute value, and is never negative |
| `Aggregates.TotalOfNonNegative` | main.js:58-62 | A reduce-sum of amounts that are all at least zero is at least zero |
| `Aggregates.TotalOfNonPositive` | main.js:64-68 | A reduce-sum of amounts that are all at most zero is at most zero |
| `Aggregates.TotalConcat` | main.js:54-56 | The reduce-sum of two ledgers joined together is the sum of their reduce-sums |
| `Aggregates.AppendEffects` | main.js:42-68 | Appending a record moves the balance by its signed amount. A positive amount raises income by that much, a negative one raises expenses by its magnitude, and the other total is unchanged |
| `Aggregates.BalanceIsIncomeMinusExpenses` | main.js:54-68 | For every ledger, the balance equals total income minus total expenses |
| `Aggregates.DeleteUniqueBalance` | main.js:54-72 | Deleting the id of exactly one record takes that record's amount off the balance |
| `Aggregates.Spread` | main.js:29-37 | Mapping over the month labels yields one point per label, in label order, each carrying the same two values |
| `Aggregates.Trends` | main.js:27-37 | The trend series has exactly six points, labelled January to June in order, each with total expenses / 6 and total income / 6 |
| `Aggregates.SpreadPlotted` | main.js:29-37 | Over n labels, the plotted expense values add up to n times the per-point expense value, and likewise for income |
| `Aggregates.TrendsAddUpToTotals` | main.js:27-37 | The six expense values of the series add up to total expenses, and the six income values add up to total income |
| `Tracker.ExpenseTracker.constructor` | main.js:8-12 | The initial state is an empty ledger, empty description and amount fields, type "expense" and category "general" |
| `Tracker.ExpenseTracker.SetDescription` | main.js:147 | The description field takes the typed text and nothing else changes |
| `Tracker.ExpenseTracker.SetAmount` | main.js:155 | The amount field takes the typed text and nothing else changes |
| `Tracker.ExpenseTracker.SetKind` | main.js:162-167 | The type selector takes the chosen type, expense or income, and nothing else changes |
| `Tracker.ExpenseTracker.SetCategory` | main.js:171 | The category selector takes the chosen key and nothing else changes |
| `Tracker.ExpenseTracker.Add` | main.js:40-52 | With an empty description or amount, nothing changes. Otherwise the ledger becomes the old ledger plus one record at the end. That record carries the clock reading as its id, the current description and category, and the magnitude, negated for an expense. The description and amount fields are then cleared; type and category stay |
| `Tracker.ExpenseTracker.Delete` | main.js:70-72 | The ledger becomes the old ledger without the records carrying the id, and the form fields are untouched |

## Left out

- Rendering: the JSX, summary cards, chart component, icons and `toLocaleString` number formatting (main.js:74-270). These are presentation over external UI libraries.
- Id generation by `Date.now()` and the date from `toLocaleDateString('he-IL')` (main.js:43, 47). These are a clock and a locale formatter, so `Add` takes the id (`now`) and the date string as parameters. Two adds in the same millisecond can share an id. The model allows this, and `DeleteLength` covers the resulting delete of both.
- `parseFloat` and IEEE-754 arithmetic (main.js:45). `Add` takes the already parsed magnitude as a real. The model does not capture NaN from non-numeric input, rounding in the sums, or the link between the amount text and the parsed value.
- The Hebrew display labels of the categories (main.js:16-25) and of the months (main.js:28). Categories are the eight keys as an enumeration. Months are an enumeration in the same order.
- The theme toggle and the dashboard/analytics view switch (main.js:13-14, 81, 87, 94). They only select what is displayed.
- `Tracker.ExpenseTracker.SetKind`: accepts only the two values the selector offers (main.js:166-167). The source's `type` is a free string, and the add action tests only whether it equals `'expense'`.
