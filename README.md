# Expense tracker ledger, modelled in Dafny

This project models the core of a personal finance tracker. Users record income and
expense statements, group them into categories, and set a monthly budget per category.
The web routes of `app/views/home.py` work over the tables declared in `app/db.py`.
Both are modelled here:

- `db.dfy` (module `Db`) holds the records, the timestamps and the integrity predicate
  `Consistent`. That predicate covers the unique constraints, the non-null foreign keys
  and the ownership rule the forms keep. The module also has the lookups and the cascades.
- `queries.dfy` (module `Queries`) holds the filtered `SUM(amount)` queries. SQL's NULL for
  an empty sum is an explicit `None` (`SqlSum`). The module also has the sign rule (`SignedAmount`).
- `reports.dfy` (module `Reports`) holds the balance, the budget dashboard row, and the
  monthly income/expense series with its reconciliation against the balance.
- `listing.dfy` (module `Listing`) holds the statement list: sign filter, newest first,
  pages of six, page clamping, and totals.
- `home.dfy` (module `Home`) holds class `Ledger`, the store the routes change. Each route
  is one atomic method on behalf of an explicit current user. Every method keeps `Valid()`.
- `scenario.dfy` (module `Scenario`) is a worked example over two months.
- `seqs.dfy` and `wrappers.dfy` are generic helpers.

Amounts are integer cents: the columns are declared `Numeric(10, 2)`, and the model assumes
every stored amount is a whole number of cents (see "## Left out"). A timestamp is a year,
a month and a position within the month. Years run from 1 to 9999, the range of Python's
`datetime`. The month key is the (year, month) pair that `strftime("%Y-%m", …)` extracts.
SQLite writes `%Y` as four zero-padded digits, so for these years the chronological order
of the keys is the order of the "YYYY-MM" strings. The current instant is a parameter
`now`. The start of its month is `StartOfMonth(now)`.

Points where the code's behaviour is easy to misread, and what the model does:

- The current-month window of the budget queries at `app/views/home.py:153` and `:358`
  has a lower end, the start of the month, and no upper end. An expense dated later
  than `now` counts as spent this month (`Scenario.FutureDatedExpenseCounts`,
  `Reports.RowCountsExpense`).
- `specific_statement` looks the statement up by `statement_id` alone and checks no
  owner, so any logged-in user could edit or delete any statement. `Ledger.EditStatement`
  therefore takes no user. As written, though, no edit form passes validation (see
  "## Findings"); `Ledger.EditStatement` is the intended behaviour.
- `manage_categories` does not catch the violation of the UNIQUE (name, user) constraint.
  In the model the request ends with `Conflict` and the store is unchanged, as the
  rolled-back transaction leaves it.
- Deleting a category removes its statements explicitly (`home.py:112`). Its budgets can go
  only through the `ON DELETE CASCADE` declared at `app/db.py:90`. The model assumes the
  database enforces that cascade. SQLite, the default database (`DB_URI` falls back to
  `sqlite:///master.sqlite3` at `app/__init__.py.old.py:22`), enforces no `ON DELETE`
  action unless the `foreign_keys` pragma is on, and nothing in the code turns it on. On
  such a database the category's budgets would stay behind with a dangling `category_id`.
- The dashboard and chart queries (`home.py:144`, `:347`) have no `ORDER BY`, so the code
  gives no order; the model lists budgets in table order.
- The budget routes read `budget.category.name`, an attribute `Budget` does not declare
  (see "## Findings"). The model looks the name up by category id instead, as the chart's
  join at `home.py:347` does.

## Model

| member | source | states |
|---|---|---|
| `Db.StartOfMonth` | app/views/home.py:147 | a timestamp is at or after the start of `now`'s month exactly when its month is not earlier than `now`'s |
| `Queries.SignedAmount` | app/views/home.py:61-63 | the stored amount has the magnitude of the entered one; it is negative exactly when the expense button was used and the magnitude is not zero; expense gives at most 0, income at least 0 |
| `Home.Ledger.AddStatement` | app/views/home.py:57-74 | neither button: rejected, store unchanged; otherwise exactly one statement is appended with the signed amount, the given time, user and category; keys stay unique and references valid |
| `Db.FindStatement` | app/views/home.py:245 | finds a position holding that `statement_id`, or reports that none exists |
| `Home.EditAt` | app/views/home.py:258-287 | income sets `abs(a)`, expense `-abs(a)`, each also overwriting description and time of that statement only and keeping its ids; delete removes exactly that statement; any other action changes nothing; income is tested before expense, expense before delete |
| `Home.EditAtKeepsConsistent` | app/views/home.py:258-287 | every edit keeps the keys unique and the references valid |
| `Home.EditFormValidates` | app/forms.py:61-67 | the edit form passes exactly when a category is submitted and is among the field's choices; it raises exactly when a category is submitted and the field has no choice list |
| `Home.EditStatementAsWritten` | app/views/home.py:245-251 | unknown id: not found; without a choice list, which this route never sets, the table is unchanged: the page is shown again without a category and the request fails with one; with a choice list holding the category, the route performs `EditAt` |
| `Home.EditAsWrittenLosesUpdate` | app/views/home.py:245-265 | as written, updating a statement as income stores nothing, while the intended edit stores the magnitude of the amount |
| `Home.Ledger.EditStatement` | app/views/home.py:245-287 | the intended route: unknown id: not found; income sets `abs(a)`, expense `-abs(a)`, each also overwriting description and time of that statement only; delete removes exactly that statement; any other action changes nothing |
| `Home.Ledger.AddCategory` | app/views/home.py:92-95 | a name the user already has: conflict, nothing changes; otherwise exactly that category is appended; (name, user) stays unique |
| `Db.FindCategory` | app/views/home.py:105 | finds the position of the category id, or reports that it is absent (the 404) |
| `Home.Ledger.DeleteCategory` | app/views/home.py:105-114 | absent: not found; another user's: forbidden, nothing changes; own: the category is gone, no statement or budget refers to it, and every other statement and category remains |
| `Db.StatementsOutsideCategory` | app/views/home.py:112 | the statements kept are exactly those of other categories |
| `Db.BudgetsOutsideCategory` | app/db.py:90 | the budgets kept are exactly those of other categories |
| `Db.CategoryCascadeRemovesCategory` | app/views/home.py:113 | with unique category ids, no category with the deleted id is left |
| `Db.Consistent` | app/db.py:13-93 | the store's integrity: unique user ids and e-mails (db.py:13, :15), category ids and (name, user) (:73, :78), budget ids and (user, category) (:86, :93), statement ids (:60); non-null foreign keys that exist (:62, :65, :75, :89-90); a statement's or budget's category belongs to its user; so every statement's and every budget's category exists |
| `Db.CategoryCascadeKeepsConsistent` | app/db.py:62-93 | the category cascade keeps every unique constraint and leaves no dangling foreign key |
| `Home.Ledger.SetBudget` | app/views/home.py:131-139 | an existing (user, category) budget gets the new amount and the count is unchanged; otherwise exactly one budget with the default period is added; afterwards exactly one budget of the pair exists, with the new amount; the new table is `UpsertBudget` of the old one |
| `Db.UpsertBudget` | app/views/home.py:131-139 | the table gains a row exactly when the pair had no budget; afterwards a budget of the pair has the new amount; budgets of every other pair are kept and no other is added |
| `Home.UpsertBudgetAsWritten` | app/views/home.py:131-139 | as written, the request fails before the commit, so no table is ever returned |
| `Home.UpsertAsWrittenLosesBudget` | app/views/home.py:134-139 | for a pair without a budget, the code as written stores nothing while the intended upsert stores a budget with the amount |
| `Db.FindUser` | app/db.py:13 | finds the position of the account with that id, or reports that there is none (the not-found case of deleting a user) |
| `Db.FindBudget` | app/views/home.py:131 | finds the first budget of the (user, category) pair, or reports that there is none |
| `Home.Ledger.DeleteUser` | app/db.py:20-22 | removes the account and exactly the user's statements, categories and budgets; nothing of the user remains |
| `Db.StatementsNotOf` | app/db.py:20 | the statements kept are exactly those of other users |
| `Db.CategoriesNotOf` | app/db.py:21 | the categories kept are exactly those of other users |
| `Db.BudgetsNotOf` | app/db.py:22 | the budgets kept are exactly those of other users |
| `Db.UserCascadeKeepsConsistent` | app/db.py:11-22 | the user cascade keeps every unique constraint and leaves no dangling foreign key |
| `Db.UserCascadeRemovesAccount` | app/db.py:13 | with unique user ids, the deleted account is gone |
| `Home.Ledger.constructor` | app/db.py:13-15 | a store over accounts with unique ids and e-mails is consistent and has no other rows |
| `Db.BudgetCategoryExists` | app/db.py:90 | in a consistent store a budget's category exists |
| `Home.Ledger.ValidBudgetCategoriesExist` | app/db.py:90 | a valid store meets what the budget reports need: every budget's category exists |
| `Db.BudgetsOf` | app/views/home.py:144 | the budgets listed are exactly those of the user |
| `Db.BudgetsOfCounts` | app/views/home.py:144 | each budget of the user is listed as often as it occurs in the table, and no other budget is listed |
| `Db.BudgetsOfAppend` | app/views/home.py:144 | the user's budgets of two stretches of the table are those of the first followed by those of the second: table order |
| `Queries.Where` | app/views/home.py:185-192 | the rows selected are exactly the matching ones |
| `Queries.WhereCounts` | app/views/home.py:185-192 | each matching row is selected exactly as often as it occurs, no other row is selected |
| `Queries.WhereAppend` | app/views/home.py:185-192 | selecting from two stretches of the table gives the selection from the first followed by that from the second: table order |
| `Seqs.FilterAppend` | app/views/home.py:144 | the kept rows of a concatenation are the kept rows of each part, in order |
| `Seqs.FilterSnoc` | app/views/home.py:144 | a row added at the end of the table is kept at the end exactly when it matches: with `FilterAppend` this fixes the order of the kept rows |
| `Seqs.FilterCounts` | app/views/home.py:144 | each row satisfying the filter is kept as often as it occurs, and no other row |
| `Queries.SqlSum` | app/views/home.py:149-154 | `SUM` is NULL exactly when no row matches, and `or 0` turns it into the plain sum, 0 when empty |
| `Queries.SumOfNothing` | app/views/home.py:199-207 | a query that selects nothing sums to 0 |
| `Queries.SumWhereSign` | app/views/home.py:199-206 | expense sums are at most 0, income sums at least 0 |
| `Queries.SumWhereSplit` | app/views/home.py:338-339 | the unsigned sum is the income sum plus the expense sum |
| `Reports.Balance` | app/views/home.py:198 | the user's balance is the sum of all the user's amounts |
| `Reports.BalanceSplits` | app/views/home.py:198-207 | the balance is the income total plus the expense total, the first at least 0 and the second at most 0 |
| `Reports.BalanceWithoutStatements` | app/views/home.py:198 | a user without statements has balance 0 |
| `Reports.Spent` | app/views/home.py:149-154 | `spent` is the sum of the user's expenses in the category from the start of the month, 0 when there are none, and never positive |
| `Reports.CategoryName` | app/views/home.py:157 | the label is the name of a category with the budget's category id |
| `Reports.Row` | app/views/home.py:149-161 | spent amount is the magnitude of that sum, never negative; remaining is budget minus spent and may be negative; budget amount is the budget's |
| `Reports.RowWithoutExpenses` | app/views/home.py:149-161 | without expenses from this month on, spent is 0 and all of the budget remains |
| `Reports.RowIgnoresIrrelevant` | app/views/home.py:150-153 | an income, an earlier month, or another user or category leaves the row unchanged |
| `Reports.RowCountsExpense` | app/views/home.py:150-160 | an expense of the category dated in or after this month raises spent by its magnitude and lowers remaining as much |
| `Reports.Rows` | app/views/home.py:143-161 | one row per budget, in the budgets' order, each the budget's row |
| `Home.DashboardAsWritten` | app/views/home.py:143-161 | as written, the page fails exactly when the user has a budget, and otherwise shows no row |
| `Home.Ledger.BudgetDashboard` | app/views/home.py:143-161 | one row per budget of the user, in the model's table order, each the row above: spent never negative, remaining budget minus spent |
| `Home.Ledger.BudgetVsActual` | app/views/home.py:347-363 | three lists of equal length, one entry per budget, agreeing with the dashboard rows; every actual is non-negative |
| `Reports.InsertKey` | app/views/home.py:340 | adding a key keeps the keys strictly ascending and adds exactly that key |
| `Reports.MonthKeys` | app/views/home.py:336-342 | the keys are strictly ascending and are exactly the months of the statements |
| `Reports.Incomes` | app/views/home.py:338-343 | one income per key, the sum of that month's non-negative amounts, never negative |
| `Reports.Expenses` | app/views/home.py:339-344 | one expense per key, the magnitude of that month's negative sum, never negative |
| `Reports.Monthly` | app/views/home.py:336-344 | months, income and expense have equal length; months are distinct, ascending, exactly the user's months; each income and expense is the month's sum and non-negative |
| `Reports.ColumnsGiveMonthTotals` | app/views/home.py:338-344 | income minus expense, summed over the keys, is the sum of the months' totals |
| `Reports.HitsOnce` | app/views/home.py:337-340 | a statement of the user falls in exactly one of distinct month buckets |
| `Reports.SumOverMonthsIsBalance` | app/views/home.py:336-340 | over distinct keys covering the user's months, the month totals add up to the balance |
| `Reports.MonthlyReconciles` | app/views/home.py:336-344 | the sum of the income column minus the sum of the expense column is the user's balance |
| `Reports.MonthlyOfOne` | app/views/home.py:338-344 | one statement lands by its magnitude in the income bucket if non-negative, else in the expense bucket; the other bucket gets 0 |
| `Listing.ClampPage` | app/views/home.py:172-178 | an unparsable or negative page becomes 0, any other page is kept |
| `Listing.SignOf` | app/views/home.py:184-192 | `t=expense` selects expenses, `t=income` incomes, anything else all |
| `Listing.InsertByTime` | app/views/home.py:185-192 | inserting into a newest-first list keeps it newest first and adds exactly that statement |
| `Listing.SortNewestFirst` | app/views/home.py:185-192 | the result is ordered by time, newest first, and is a permutation of the input |
| `Listing.Page` | app/views/home.py:180-192 | at most six rows, the rows from offset `6 * page` on, as many as remain |
| `Listing.PageHoldsRow` | app/views/home.py:186-192 | row `k` of the listing is row `k % 6` of page `k / 6` |
| `Listing.StatementsPage` | app/views/home.py:172-207 | the items are the page `ClampPage(page)` of the user's statements of the requested sign sorted newest first: at most six rows, from offset `6 * page`; total income is the non-negative sum, total expense the magnitude of the negative sum, both non-negative, and their difference is the balance |
| `Listing.ListedOnSomePage` | app/views/home.py:184-192 | every statement the filter keeps is shown on some page |
| `Scenario.BudgetRowsByMonth` | app/views/home.py:143-161 | worked example: 50.00 of 100.00 spent in January, 30.00 spent and 70.00 remaining in February |
| `Scenario.FutureDatedExpenseCounts` | app/views/home.py:149-154 | seen in January, a February expense already counts as spent |
| `Scenario.ExampleMonths` | app/views/home.py:336-342 | worked example: the chart's months for the three statements are January and February 2024, in that order |
| `Scenario.ExampleMonthSums` | app/views/home.py:336-344 | worked example: January income 2000.00 and expense 50.00, February income 0 and expense 30.00, as signed month sums |
| `Scenario.MonthlySeriesExample` | app/views/home.py:336-344 | worked example: January 2000.00 income, 50.00 expense; February 0 income, 30.00 expense |
| `Scenario.ExampleBalance` | app/views/home.py:198 | worked example: the balance 1920.00 agrees with the two chart columns |

## Left out

- Web plumbing is not modelled: templates, flash messages, redirects, JSON encoding and
  request-argument parsing. The `page` argument arrives already parsed as an optional integer.
  The current user is a parameter, and login checking is not modelled.
- Form validation is not modelled, except for the edit form's `category` field
  (`Home.EditFormValidates`), which decides whether the edit route does anything. For the
  new-statement and budget forms, whose choices are set, the guarantee that the chosen
  category is one of the user's own appears as a precondition. The length and range
  bounds of the forms are not needed by the model, which accepts any amount and
  description.
- Ids are method arguments with a freshness precondition. This covers `statement_id` from
  `generate_string`, the identifier generator that is not part of this model, and the
  auto-increment keys. The integer primary key of statements is not modelled, because the
  routes use `statement_id`.
- `get_current_user_balance` is not part of this model. The balance is defined as the sum
  of the user's amounts.
- The CSV export (`download_statements`) is not modelled: it is streamed output.
- `home_index` (the five most recent statements) and the GET views are not modelled: they
  only display data.
- The unused `date`/`income_amount`/`expense_amount` lists built in `statements` are not
  modelled, because nothing reads them.
- Amounts that are not a whole number of cents are not modelled. The amount fields are
  `FloatField`s with a lower bound of 0.0001 (`app/forms.py:51-56`), and SQLite does not
  enforce `Numeric(10, 2)`, so an amount such as 0.005 can be stored as entered. On such
  data the code's SQL sums and its `round(…, 2)` at `home.py:343-344` can differ from the
  model's integer sums.
- Floating point, Python's `Decimal`, and `round(…, 2)` are not modelled. In particular
  the `or 0.0` fallbacks at `home.py:154` and `:360` are floats while `budget.amount` is a
  `Decimal`; in `budget.amount - abs(spent)` at `home.py:160` Python refuses that mix, so a
  budget without a current-month expense would make that line raise even with the category
  name fixed. The model computes in integers throughout.
- Transactions, rollback and concurrent requests are not modelled. Each request is one
  atomic method call.
- Passwords, sessions, the Admin and VisitorStats tables, and the application factory are
  not modelled.
- The order of statements with equal timestamps in the newest-first listing is not
  modelled: SQL leaves it unspecified, and the model picks one order.
- The order in which the budget dashboard and the budget-vs-actual chart list a user's
  budgets is not modelled: the queries at `home.py:144` and `:347` have no `ORDER BY`,
  and the database may answer them in any order, for instance by category id through the
  index of the UNIQUE (user, category) constraint. The model uses table order.
- Listing.StatementsPage: every parsed page is treated as valid. The 64-bit limit on the
  `OFFSET` that `home.py:186-192` sends to the database is not modelled: for a page whose
  offset `6 * page` is 2^63 or more the database driver refuses the query and the request
  fails, while the model returns an empty page.
- Home.Ledger.BudgetDashboard: it requires only that every budget's category exists, which
  `Valid()` implies (`Home.Ledger.ValidBudgetCategoriesExist`), instead of all of `Valid()`.
- Home.Ledger.BudgetVsActual: it requires only that every budget's category exists, for the
  same reason.

## Findings

These come from reading `app/db.py` against `app/views/home.py`. `Budget` (`app/db.py:84-92`)
declares five columns and gets a `user` backref from `app/db.py:22`; no relationship gives
it a `category` attribute (`Db.BudgetAttributes`). The third row comes from reading
`app/forms.py` against `specific_statement`.

| source | as written | input that shows it | evidently intended | confidence | as-written member | corrected member |
|---|---|---|---|---|---|---|
| app/views/home.py:134-139 | the flash message reads `existing_budget.category.name` or `new_budget.category.name` before `db.session.commit()`, so the request raises and the new amount is never stored | any valid budget form, for example a first budget of 100.00 for one of the user's categories | the budget is updated or added and committed, and the message names the category | high from reading the code; not executed | `Home.UpsertBudgetAsWritten`, `Home.UpsertAsWrittenLosesBudget` | `Db.UpsertBudget`, `Home.Ledger.SetBudget` |
| app/views/home.py:157 | the dashboard loop reads `budget.category.name`, so the page fails for every user with at least one budget | a user with one budget opening the budgets page | one row per budget, labelled with its category's name | high from reading the code; not executed | `Home.DashboardAsWritten` | `Reports.CategoryName`, `Reports.Rows`, `Home.Ledger.BudgetDashboard` |
| app/views/home.py:247-249 | `StatementEditForm` (`app/forms.py:79`) inherits `category` (`app/forms.py:61-67`), a required `QuerySelectField` with `query_factory=None`, and `specific_statement` never sets a factory; without a category value the form fails and the page is shown again, with one the choice lookup calls `None` and raises; no edit or delete ever reaches `db.session.commit()` | an "Update as Income" POST with amount 10.00 for an existing statement | the action is applied: amount, description and time updated, or the statement deleted | high from reading the code; not executed | `Home.EditStatementAsWritten`, `Home.EditAsWrittenLosesUpdate` | `Home.EditAt`, `Home.Ledger.EditStatement` |
