/** The read side of the routes: the balance, the budget dashboard rows and the
    monthly chart series. */
module Reports {
  import opened Wrappers
  import opened Db
  import opened Queries

  /** The user's balance: the sum of all of that user's amounts. */
  function Balance(statements: seq<Statement>, user: nat): int {
    SumWhere(statements, Query(user, None, AnySign, None, None))
  }

  /** The balance is the user's income total plus the (non-positive) expense total. */
  lemma BalanceSplits(statements: seq<Statement>, user: nat)
    ensures Balance(statements, user)
         == SumWhere(statements, Query(user, None, NonNegative, None, None))
          + SumWhere(statements, Query(user, None, Negative, None, None))
    ensures SumWhere(statements, Query(user, None, Negative, None, None)) <= 0
         <= SumWhere(statements, Query(user, None, NonNegative, None, None))
  {
    SumWhereSplit(statements, Query(user, None, AnySign, None, None));
    SumWhereSign(statements, Query(user, None, NonNegative, None, None));
    SumWhereSign(statements, Query(user, None, Negative, None, None));
  }

  /** A user without statements has balance 0. */
  lemma {:induction false} BalanceWithoutStatements(statements: seq<Statement>, user: nat)
    requires forall s :: s in statements ==> s.userId != user
    ensures Balance(statements, user) == 0
  {
    SumOfNothing(statements, Query(user, None, AnySign, None, None));
  }

  // ================================================================ budgets

  /** One line of the budget dashboard. */
  datatype BudgetRow = BudgetRow(categoryName: string, budgetAmount: int, spentAmount: int, remaining: int)

  /** The expenses of `user` in category `categoryId` from the start of the month of `now`. */
  function SpendQuery(user: nat, categoryId: nat, now: DateTime): Query {
    Query(user, Some(categoryId), Negative, None, Some(StartOfMonth(now)))
  }

  /** `spent`: the summed current-month expenses, 0 when there are none (`... or 0.0`). */
  function Spent(statements: seq<Statement>, user: nat, categoryId: nat, now: DateTime): (r: int)
    ensures r <= 0
    ensures r == SumWhere(statements, SpendQuery(user, categoryId, now))
  {
    SumWhereSign(statements, SpendQuery(user, categoryId, now));
    SqlSum(statements, SpendQuery(user, categoryId, now)).GetOr(0)
  }

  /** The name of category `id` (`budget.category.name`). */
  function CategoryName(categories: seq<Category>, id: nat): (name: string)
    requires HasCategory(categories, id)
    ensures exists c :: c in categories && c.id == id && c.name == name
  {
    if categories[0].id == id then categories[0].name
    else
      assert HasCategory(categories[1..], id) by {
        var c :| c in categories && c.id == id;
        assert c != categories[0];
      }
      CategoryName(categories[1..], id)
  }

  /** The dashboard row of budget `b` as seen by `user` at time `now`: the spent amount is
      the magnitude of the month's expenses, never negative, and the remaining amount is
      the budget minus it, negative when the budget is overspent. */
  function Row(statements: seq<Statement>, categories: seq<Category>, b: Budget, user: nat, now: DateTime): (r: BudgetRow)
    requires HasCategory(categories, b.categoryId)
    ensures r.budgetAmount == b.amount
    ensures r.spentAmount >= 0 && r.spentAmount == -SumWhere(statements, SpendQuery(user, b.categoryId, now))
    ensures r.remaining == b.amount - r.spentAmount
    ensures exists c :: c in categories && c.id == b.categoryId && c.name == r.categoryName
  {
    var spent := Spent(statements, user, b.categoryId, now);
    BudgetRow(CategoryName(categories, b.categoryId), b.amount, Abs(spent), b.amount - Abs(spent))
  }

  /** The dashboard rows of the budgets `mine`, one per budget and in their order. */
  function Rows(statements: seq<Statement>, categories: seq<Category>, mine: seq<Budget>, user: nat, now: DateTime)
    : (r: seq<BudgetRow>)
    requires forall b :: b in mine ==> HasCategory(categories, b.categoryId)
    ensures |r| == |mine|
    ensures forall i :: 0 <= i < |r| ==> r[i] == Row(statements, categories, mine[i], user, now)
  {
    if mine == [] then []
    else [Row(statements, categories, mine[0], user, now)] + Rows(statements, categories, mine[1..], user, now)
  }

  /** Without current-month expenses in the category, nothing is spent and all of the
      budget remains. */
  lemma {:induction false} RowWithoutExpenses(
    statements: seq<Statement>, categories: seq<Category>, b: Budget, user: nat, now: DateTime)
    requires HasCategory(categories, b.categoryId)
    requires forall s :: s in statements && s.userId == user && s.categoryId == b.categoryId && s.amount < 0
               ==> KeyLess(MonthOf(s.at), MonthOf(now))
    ensures Row(statements, categories, b, user, now).spentAmount == 0
    ensures Row(statements, categories, b, user, now).remaining == b.amount
  {
    var q := SpendQuery(user, b.categoryId, now);
    forall s | s in statements ensures !Matches(q, s) {
      if s.userId == user && s.categoryId == b.categoryId && s.amount < 0 {
        assert !NotBefore(s.at, StartOfMonth(now));
      }
    }
    SumOfNothing(statements, q);
  }

  /** Adding a statement dated before the current month, an income, or one of another
      category or user does not change a dashboard row. */
  lemma {:induction false} RowIgnoresIrrelevant(
    statements: seq<Statement>, s: Statement, categories: seq<Category>, b: Budget, user: nat, now: DateTime)
    requires HasCategory(categories, b.categoryId)
    requires s.userId != user || s.categoryId != b.categoryId || s.amount >= 0
             || KeyLess(MonthOf(s.at), MonthOf(now))
    ensures Row(statements + [s], categories, b, user, now) == Row(statements, categories, b, user, now)
  {
    var q := SpendQuery(user, b.categoryId, now);
    SumWhereAppend(statements, [s], q);
    assert !Matches(q, s);
    assert SumWhere([s], q) == 0 by { SumOfNothing([s], q); }
  }

  /** A current-month expense of the category raises the spent amount by its magnitude
      and lowers the remaining amount by as much. */
  lemma {:induction false} RowCountsExpense(
    statements: seq<Statement>, s: Statement, categories: seq<Category>, b: Budget, user: nat, now: DateTime)
    requires HasCategory(categories, b.categoryId)
    requires s.userId == user && s.categoryId == b.categoryId && s.amount < 0
    requires !KeyLess(MonthOf(s.at), MonthOf(now))
    ensures Row(statements + [s], categories, b, user, now).spentAmount
         == Row(statements, categories, b, user, now).spentAmount + Abs(s.amount)
    ensures Row(statements + [s], categories, b, user, now).remaining
         == Row(statements, categories, b, user, now).remaining - Abs(s.amount)
  {
    var q := SpendQuery(user, b.categoryId, now);
    SumWhereAppend(statements, [s], q);
    assert Matches(q, s);
    assert SumWhere([s], q) == s.amount;
  }

  // ================================================================ monthly series

  ghost predicate StrictlyAscending(ks: seq<MonthKey>) {
    forall i, j :: 0 <= i < j < |ks| ==> KeyLess(ks[i], ks[j])
  }

  /** `ks` with `k` added at its place, unless it is already there. */
  function InsertKey(ks: seq<MonthKey>, k: MonthKey): (r: seq<MonthKey>)
    requires StrictlyAscending(ks)
    ensures StrictlyAscending(r)
    ensures forall m :: m in r <==> m in ks || m == k
  {
    if ks == [] then [k]
    else if k == ks[0] then ks
    else if KeyLess(k, ks[0]) then [k] + ks
    else
      var rest := InsertKey(ks[1..], k);
      assert forall m :: m in rest ==> KeyLess(ks[0], m);
      [ks[0]] + rest
  }

  /** The distinct year-month keys of `statements`, ascending (`GROUP BY month ORDER BY month`). */
  function MonthKeys(statements: seq<Statement>): (r: seq<MonthKey>)
    ensures StrictlyAscending(r)
    ensures forall s :: s in statements ==> MonthOf(s.at) in r
    ensures forall k :: k in r ==> exists s :: s in statements && MonthOf(s.at) == k
  {
    if statements == [] then []
    else
      var rest := MonthKeys(statements[1..]);
      assert forall k :: k in rest ==> exists s :: s in statements && MonthOf(s.at) == k by {
        forall k | k in rest ensures exists s :: s in statements && MonthOf(s.at) == k {
          var s :| s in statements[1..] && MonthOf(s.at) == k;
          assert s in statements;
        }
      }
      InsertKey(rest, MonthOf(statements[0].at))
  }

  function IncomeQuery(user: nat, k: MonthKey): Query {
    Query(user, None, NonNegative, Some(k), None)
  }

  function ExpenseQuery(user: nat, k: MonthKey): Query {
    Query(user, None, Negative, Some(k), None)
  }

  function MonthQuery(user: nat, k: MonthKey): Query {
    Query(user, None, AnySign, Some(k), None)
  }

  /** The income column, one entry per key. */
  function Incomes(statements: seq<Statement>, user: nat, ks: seq<MonthKey>): (r: seq<int>)
    ensures |r| == |ks|
    ensures forall i :: 0 <= i < |ks| ==> r[i] == SumWhere(statements, IncomeQuery(user, ks[i])) && r[i] >= 0
  {
    if ks == [] then []
    else
      SumWhereSign(statements, IncomeQuery(user, ks[0]));
      [SumWhere(statements, IncomeQuery(user, ks[0]))] + Incomes(statements, user, ks[1..])
  }

  /** The expense column, one entry per key: the magnitude of the month's expense sum. */
  function Expenses(statements: seq<Statement>, user: nat, ks: seq<MonthKey>): (r: seq<int>)
    ensures |r| == |ks|
    ensures forall i :: 0 <= i < |ks| ==> r[i] == -SumWhere(statements, ExpenseQuery(user, ks[i])) && r[i] >= 0
  {
    if ks == [] then []
    else
      SumWhereSign(statements, ExpenseQuery(user, ks[0]));
      [Abs(SumWhere(statements, ExpenseQuery(user, ks[0])))] + Expenses(statements, user, ks[1..])
  }

  /** The `monthly` section of the chart payload. */
  datatype MonthlySeries = MonthlySeries(months: seq<MonthKey>, income: seq<int>, expense: seq<int>)

  /** The monthly income/expense series of `user`: one entry per month that has a statement
      of that user, ascending; the income of a month is the sum of its non-negative amounts,
      the expense the magnitude of the sum of its negative ones, both 0 when absent. */
  function Monthly(statements: seq<Statement>, user: nat): (r: MonthlySeries)
    ensures |r.months| == |r.income| == |r.expense|
    ensures StrictlyAscending(r.months)
    ensures forall s :: s in statements && s.userId == user ==> MonthOf(s.at) in r.months
    ensures forall k :: k in r.months ==> exists s :: s in statements && s.userId == user && MonthOf(s.at) == k
    ensures forall i :: 0 <= i < |r.months| ==>
              && r.income[i] == SumWhere(statements, IncomeQuery(user, r.months[i])) && r.income[i] >= 0
              && r.expense[i] == -SumWhere(statements, ExpenseQuery(user, r.months[i])) && r.expense[i] >= 0
  {
    var mine := Where(statements, Query(user, None, AnySign, None, None));
    var ks := MonthKeys(mine);
    MonthlySeries(ks, Incomes(statements, user, ks), Expenses(statements, user, ks))
  }

  function Sum(xs: seq<int>): int {
    if xs == [] then 0 else xs[0] + Sum(xs[1..])
  }

  /** The sum, over the keys `ks`, of each month's unsigned total. */
  function SumOverMonths(statements: seq<Statement>, user: nat, ks: seq<MonthKey>): int {
    if ks == [] then 0
    else SumWhere(statements, MonthQuery(user, ks[0])) + SumOverMonths(statements, user, ks[1..])
  }

  lemma {:induction false} ColumnsGiveMonthTotals(statements: seq<Statement>, user: nat, ks: seq<MonthKey>)
    ensures Sum(Incomes(statements, user, ks)) - Sum(Expenses(statements, user, ks))
         == SumOverMonths(statements, user, ks)
  {
    if ks != [] {
      ColumnsGiveMonthTotals(statements, user, ks[1..]);
      SumWhereSplit(statements, MonthQuery(user, ks[0]));
      assert MonthQuery(user, ks[0]).(sign := NonNegative) == IncomeQuery(user, ks[0]);
      assert MonthQuery(user, ks[0]).(sign := Negative) == ExpenseQuery(user, ks[0]);
      assert Incomes(statements, user, ks)[1..] == Incomes(statements, user, ks[1..]);
      assert Expenses(statements, user, ks)[1..] == Expenses(statements, user, ks[1..]);
    }
  }

  /** What statement `s` adds to SumOverMonths over the keys `ks`. */
  function Hits(s: Statement, user: nat, ks: seq<MonthKey>): int {
    if ks == [] then 0 else Contribution(MonthQuery(user, ks[0]), s) + Hits(s, user, ks[1..])
  }

  lemma {:induction false} HitsOfAbsentMonth(s: Statement, user: nat, ks: seq<MonthKey>)
    requires s.userId != user || MonthOf(s.at) !in ks
    ensures Hits(s, user, ks) == 0
  {
    if ks != [] {
      HitsOfAbsentMonth(s, user, ks[1..]);
    }
  }

  /** A statement of `user` lands in exactly one of the distinct keys. */
  lemma {:induction false} HitsOnce(s: Statement, user: nat, ks: seq<MonthKey>)
    requires StrictlyAscending(ks)
    requires s.userId == user && MonthOf(s.at) in ks
    ensures Hits(s, user, ks) == s.amount
  {
    if MonthOf(s.at) == ks[0] {
      assert MonthOf(s.at) !in ks[1..];
      HitsOfAbsentMonth(s, user, ks[1..]);
    } else {
      HitsOnce(s, user, ks[1..]);
    }
  }

  lemma {:induction false} SumOverMonthsCons(s: Statement, rest: seq<Statement>, user: nat, ks: seq<MonthKey>)
    ensures SumOverMonths([s] + rest, user, ks) == Hits(s, user, ks) + SumOverMonths(rest, user, ks)
  {
    if ks != [] {
      SumOverMonthsCons(s, rest, user, ks[1..]);
      assert ([s] + rest)[1..] == rest;
    }
  }

  lemma {:induction false} SumOverMonthsOfNothing(user: nat, ks: seq<MonthKey>)
    ensures SumOverMonths([], user, ks) == 0
  {
    if ks != [] {
      SumOverMonthsOfNothing(user, ks[1..]);
    }
  }

  /** Summing month by month over distinct keys that cover every month of the user's
      statements gives the balance. */
  lemma {:induction false} SumOverMonthsIsBalance(statements: seq<Statement>, user: nat, ks: seq<MonthKey>)
    requires StrictlyAscending(ks)
    requires forall s :: s in statements && s.userId == user ==> MonthOf(s.at) in ks
    ensures SumOverMonths(statements, user, ks) == Balance(statements, user)
  {
    if statements == [] {
      SumOverMonthsOfNothing(user, ks);
    } else {
      var s, rest := statements[0], statements[1..];
      assert statements == [s] + rest;
      SumOverMonthsCons(s, rest, user, ks);
      SumOverMonthsIsBalance(rest, user, ks);
      if s.userId == user {
        HitsOnce(s, user, ks);
      } else {
        HitsOfAbsentMonth(s, user, ks);
      }
    }
  }

  /** Reconciliation: total monthly income minus total monthly expense is the balance. */
  lemma {:induction false} MonthlyReconciles(statements: seq<Statement>, user: nat)
    ensures Sum(Monthly(statements, user).income) - Sum(Monthly(statements, user).expense)
         == Balance(statements, user)
  {
    var r := Monthly(statements, user);
    ColumnsGiveMonthTotals(statements, user, r.months);
    SumOverMonthsIsBalance(statements, user, r.months);
  }

  /** A single statement lands in the income bucket of its month when non-negative and in
      the expense bucket otherwise, by its magnitude; the other bucket gets 0. */
  lemma {:induction false} MonthlyOfOne(s: Statement)
    ensures Monthly([s], s.userId) == MonthlySeries(
              [MonthOf(s.at)],
              [if s.amount >= 0 then s.amount else 0],
              [if s.amount < 0 then -s.amount else 0])
  {
    var r := Monthly([s], s.userId);
    var mine := Where([s], Query(s.userId, None, AnySign, None, None));
    assert mine == [s] by {
      assert |mine| <= 1 && s in mine;
    }
    assert MonthKeys(mine) == InsertKey([], MonthOf(s.at));
    assert r.months == [MonthOf(s.at)];
    assert SumWhere([s], IncomeQuery(s.userId, MonthOf(s.at))) == if s.amount >= 0 then s.amount else 0;
    assert SumWhere([s], ExpenseQuery(s.userId, MonthOf(s.at))) == if s.amount < 0 then s.amount else 0;
  }
}
