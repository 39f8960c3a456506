# Expense tracker store and budget alerts, modelled in Dafny

A personal expense tracker keeps three PostgreSQL tables: `expenses`, `budgets`
and `income`. A `DatabaseManager` runs one parameterised SQL statement per
operation. A Streamlit dashboard reads these tables. It shows aggregate
"business insights", a savings figure and a per-category budget alert.

This project models that core:

- `Schema` (schema.dfy): the row types and the column limits. Amounts are
  integer cents, because every amount column is DECIMAL(10, 2). Dates are
  calendar days. VARCHAR(n) columns hold at most n characters. The SERIAL id
  sequence ends at 2^31 - 1.
- `ExpenseRows` (expense_rows.dfy) says what each statement does to the rows
  of `expenses`. It covers the UPDATE and the DELETE keyed by id, and the
  `ORDER BY date DESC` listing.
- `BudgetRows` (budget_rows.dfy) models the upsert
  `INSERT … ON CONFLICT (category) DO UPDATE` and the table's UNIQUE category.
- `Aggregates` (aggregates.dfy) holds the read queries. These are the sums,
  the month-filtered `SUM … GROUP BY category`, and the insights (SUM, AVG,
  MAX, MIN, COUNT, and the category with the largest sum).
- `Backend` (backend.dfy) holds the `DatabaseManager` class. Its fields are the
  three tables, the next value of the expense id sequence, and whether the
  session's transaction has failed. Every operation is a method. Mutators have
  `modifies this`. Reads may change only the failed-transaction flag.
- `Frontend` (frontend.dfy) holds the budget-alert classifier of the
  "Manage Budgets" page and the dashboard's savings figure.

Failures are nondeterministic. A statement may always fail with a server error.
A write fails for sure when a value does not fit its column. A failed mutator
rolls back, returns `false` and leaves every table unchanged. A failed read
returns its sentinel: `[]`, `0`, an empty grouping, or `None` for the empty
insights dictionary. Reads do not roll back, so the session stays in a failed
transaction. Every later statement fails until a mutator's rollback clears the
flag. The expense id sequence is not transactional, so a failed insert may
still use up an id. Ids are never reused.

The clock (`datetime.date.today()`) is a parameter of the alert lemma. The
database server's internal error causes are not modelled.

Two behaviours of the code are modelled as written. `update_expense` and
`delete_expense` never check how many rows the statement touched, so updating
an id that no row carries, or deleting an id a second time, returns `True` and
changes nothing (backend.py:104-108, backend.py:118-122). The mutators roll
back on error (backend.py:83-86, 109-112, 123-126), but the reads do not
(backend.py:96-98, 156-158, 172-174, 184-186, 229-231), which is why the model
tracks a failed-transaction flag.

## Model

| member | source | states |
|---|---|---|
| Backend.DatabaseManager.constructor | backend.py:11-14 | connecting to existing tables that satisfy the schema keeps their rows and starts outside a failed transaction |
| Backend.DatabaseManager.AddExpense | backend.py:74-86 | on success exactly one row is appended. Its id is the sequence's next value, greater than every existing id, and it carries the given date, amount, category and payment method. On failure the tables are unchanged and at most one id is used up. A value too large for its column, an exhausted sequence or an earlier failed read means failure. The budgets and income never change, and the schema invariant is kept. |
| Backend.DatabaseManager.UpdateExpense | backend.py:100-112 | on success the table becomes `Updated(old, id, …)`, otherwise it is unchanged. Success needs no earlier failed read and values that fit their columns, whether or not a row carries the id. Ids and the sequence never change, and the invariant is kept. |
| Backend.DatabaseManager.DeleteExpense | backend.py:114-126 | on success the table becomes `Deleted(old, id)`, otherwise it is unchanged. The invariant, including unique ids, is kept. |
| Backend.DatabaseManager.AddBudget | backend.py:128-146 | on success the budgets become `Upserted(old, Budget(category, monthly, annual))`, otherwise they are unchanged. Values that do not fit their columns fail, and category uniqueness is kept. |
| Backend.DatabaseManager.GetExpenses | backend.py:88-98 | without failure, the result is every stored row exactly once (a multiset equality), newest first. On failure it is `[]` and the session stays failed. |
| Backend.DatabaseManager.GetBudgets | backend.py:148-158 | without failure, the result is a permutation of the budget rows with unique categories; on failure it is `[]` |
| Backend.DatabaseManager.GetMonthlySpendingByCategory | backend.py:160-174 | without failure, the result is the month's grouping of the expenses (see `GroupSumByCategory`); on failure it is empty |
| Backend.DatabaseManager.GetTotalIncome | backend.py:176-186 | without failure, the result is the sum of the income table; on failure, or for an empty table, it is 0 |
| Backend.DatabaseManager.GetBusinessInsights | backend.py:188-231 | without failure, the result is a record `IsInsightsOf` the current tables: every figure is the aggregate of the tables, and the top category is any category with the greatest total ("N/A" without expenses). On failure it is `None` (the empty dictionary) and the session stays failed. |
| ExpenseRows.UpdatedRows | backend.py:104 | after the UPDATE, row i is the row with the new date, amount, category and payment method when row i carries the id, and is unchanged otherwise. The length is unchanged. |
| ExpenseRows.UpdatedKeepsIds | backend.py:104 | an update never changes any id, so unique ids stay unique |
| ExpenseRows.UpdateOfAbsentId | backend.py:104-108 | updating an id that no row carries leaves the table identical |
| ExpenseRows.DeletedRows | backend.py:118 | a row survives the DELETE exactly when it was present and its id differs from the deleted one |
| ExpenseRows.DeletedIdIsGone | backend.py:118 | no row with the deleted id remains |
| ExpenseRows.DeleteOfAbsentId | backend.py:118-122 | deleting an absent id leaves the table identical |
| ExpenseRows.DeleteIsIdempotent | backend.py:118-122 | deleting the same id twice leaves the same table as deleting it once |
| ExpenseRows.DeletedCount | backend.py:41 | with unique ids (the PRIMARY KEY), a delete removes exactly one row when the id is present and none otherwise, and the remaining ids stay unique |
| ExpenseRows.InsertByDateSorted | backend.py:92 | inserting a row into a newest-first listing keeps it newest first and adds exactly that row |
| ExpenseRows.ListingIsListing | backend.py:92-95 | the listing is a permutation of the table in which no row is dated after an earlier one |
| BudgetRows.UniqueCount | backend.py:51 | under the UNIQUE constraint each category has at most one row, and none exactly when lookup finds nothing |
| BudgetRows.UpsertedRows | backend.py:132-138 | after the upsert the category has exactly one row, carrying the new monthly and annual amounts. Every other category looks up as before, and categories stay unique. The table grows by one row only when the category was new. |
| BudgetRows.UpsertedMembers | backend.py:132-138 | every row after the upsert is the new budget or an old row |
| BudgetRows.UpsertTwice | backend.py:132-138 | two upserts of the same category leave what the second one wrote |
| Aggregates.GroupSumByCategory | backend.py:164-168 | the one-pass grouping has an entry for a category exactly when some expense in the window carries it. The entry equals the per-category reference sum, and a category without an entry sums to 0. |
| Aggregates.MaxAmount | backend.py:203-204 | MAX(amount) is the amount of some row and is at least every row's amount |
| Aggregates.MinAmount | backend.py:207-208 | MIN(amount) is the amount of some row and is at most every row's amount |
| Aggregates.TotalBounds | backend.py:195-196 | a SUM of n amounts in [lo, hi] lies in [n * lo, n * hi] |
| Aggregates.MeanBetween | backend.py:199-200 | a mean of n > 0 values whose sum lies in [n * lo, n * hi] lies in [lo, hi] |
| Aggregates.TopCategory | backend.py:223-225 | the chosen category belongs to some row, and no row's category has a larger group sum |
| Aggregates.InsightsOfNoExpenses | backend.py:195-225 | with no expenses, the total, mean, max, min and count are all 0 and the category is "N/A". The budget total is the sum of the monthly budgets, and no income gives a total income of 0. |
| Aggregates.InsightsExtremes | backend.py:203-212 | with expenses, the min and max are amounts of actual rows and bound every row, and the count is the number of rows |
| Aggregates.InsightsMean | backend.py:199-208 | with expenses, min ≤ mean ≤ max |
| Aggregates.InsightsCountTimesMean | backend.py:199-212 | with expenses, count × mean = total |
| Aggregates.MostSpentCategoryIsMaximal | backend.py:222-225 | with expenses, the reported category occurs among them and no category has a greater total |
| Aggregates.ComputedInsightsAreInsights | backend.py:195-225 | the computed record, whose tie-break is the earliest row, is one of the records the query may return |
| Aggregates.InsightsUpToTie | backend.py:222-225 | two records the query may return agree on every figure, and their top categories have the same total |
| Aggregates.TieEitherWay | backend.py:223 | with 0.50 spent on each of two categories, either one may be reported as the top category |
| Aggregates.ThreeExpenseExample | backend.py:195-225 | for 1.00 and 0.50 spent on Food and 0.30 on Transport: total 1.80, max 1.00, min 0.30, 3 transactions, top category Food |
| Frontend.Classify | frontend.py:124-129 | the status is "exceeded" exactly when remaining < 0, and then the overrun −remaining is positive. It is "nearing limit" exactly when 0 ≤ remaining and 5·remaining < monthly, and "within budget" exactly when 0 ≤ remaining and 5·remaining ≥ monthly. The three tiers are exclusive and exhaustive. |
| Frontend.BudgetLineFor | frontend.py:116-119 | a line keeps its budget's category and monthly amount, and current spending plus remaining equals the monthly budget |
| Frontend.BudgetLines | frontend.py:116-129 | there is one line per budget, in order, each computed from that budget alone |
| Frontend.MoreSpendingNeverImproves | frontend.py:124-129 | with a fixed budget, spending more never moves a budget to a better tier |
| Frontend.ZeroBudget | frontend.py:124-129 | a zero budget with nothing spent is within budget, and any spending on it is an overrun of that amount |
| Frontend.BudgetExamples | frontend.py:124-129 | a budget of 100 is nearing its limit at 85 spent, within budget at 70, and exceeded by 20 at 120 |
| Frontend.AlertReflectsMonthTotal | frontend.py:113-125 | against the month's grouping, a line's current spending is the sum of that month's expenses in its category (0 if none). It is "exceeded" exactly when that sum is over the monthly budget, by the difference. |
| Frontend.SavingsOfTables | frontend.py:44-46 | savings equal the income table's sum minus the expense table's sum |
| Frontend.NewExpenseLowersSavings | frontend.py:44-46 | recording an expense lowers the savings by exactly its amount |

## Left out

- Connecting and reading the environment (backend.py:16-32), creating the
  tables (backend.py:34-72) and `close` (backend.py:233-240) are I/O. The
  constructor starts from tables that already satisfy the schema.
- The `print` of each error message, and the cause of a server error. The
  model treats the cause as a nondeterministic choice.
- A connection lost for good. Every later statement would fail, and the
  `rollback()` inside a mutator's error handler would itself raise.
- All Streamlit rendering, forms, widgets and navigation (frontend.py:181-192),
  and the currency formatting of amounts.
- The pandas charts (frontend.py:53-67), which regroup the same rows for display
  only.
- Python's mixing of numeric types. As written, `monthly_budget * 0.2`
  (frontend.py:126) multiplies a `Decimal` by a `float`, and
  `total_income - total_expenses` (frontend.py:46) can subtract a `Decimal`
  from the float `0.0`. Both raise `TypeError` in Python. The model uses exact
  arithmetic: the 20% test is `5 * remaining < monthly` in cents, and savings
  is an integer difference. As written, the budgets page therefore stops at
  the first budget with remaining ≥ 0 and never shows "nearing limit" or
  "within budget". The dashboard stops at the savings figure whenever the
  income table is empty or sums to zero (`0.0`) while the expenses sum to a non-zero
  `Decimal`; no operation writes `income`, so that happens as soon as any
  expense is recorded.
- The frontend runs the monthly spending query again for every budget
  (frontend.py:117). The model runs it once. A failure part-way would only turn
  the later lines' spending into 0.
- Aggregates.InsightsCountTimesMean: the mean is exact. PostgreSQL's AVG over
  NUMERIC rounds to a finite number of digits, so the identity holds only up to
  that rounding.
- Amounts enter the model as cents. Rounding a float input to two decimals is
  not modelled. Neither is PostgreSQL's silent truncation of a VARCHAR value
  whose excess characters are all spaces: the model treats every over-long
  string as an error.
- The `budgets` table's own SERIAL id is never read back and is not modelled.
- Row order where SQL leaves it open is not modelled. This covers expenses of
  the same date, the budget rows, and the groups of a GROUP BY (a map here).
  The store keeps rows in one fixed order. The contracts of `GetExpenses` and
  `GetBudgets` allow any permutation, and that of `GetBusinessInsights` allows
  any of the categories tied for the greatest total.
- No operation writes the `income` table, so the model never changes it.
