/** A worked example: groceries and a salary over two months, with a grocery budget. */
module Scenario {
  import opened Wrappers
  import opened Db
  import opened Queries
  import opened Reports

  const Groceries := Category(1, "Groceries", 7)
  const Salary := Category(2, "Salary", 7)
  const GroceryBudget := Budget(1, 10000, DefaultPeriod, 7, 1)

  function ExampleStatements(): seq<Statement> {
    [ Statement("s1", "weekly shop", -5000, DateTime(2024, 1, 10), 7, 1),
      Statement("s2", "january pay", 200000, DateTime(2024, 1, 5), 7, 2),
      Statement("s3", "weekly shop", -3000, DateTime(2024, 2, 3), 7, 1) ]
  }

  /** In January, before the February shopping is recorded, 50.00 of the 100.00 grocery
      budget is spent; in February, with January's shopping before the start of the month,
      30.00 is spent and 70.00 remains. */
  lemma BudgetRowsByMonth()
    ensures Row(ExampleStatements()[..2], [Groceries, Salary], GroceryBudget, 7, DateTime(2024, 1, 20))
         == BudgetRow("Groceries", 10000, 5000, 5000)
    ensures Row(ExampleStatements(), [Groceries, Salary], GroceryBudget, 7, DateTime(2024, 2, 15))
         == BudgetRow("Groceries", 10000, 3000, 7000)
  {
    var ss := ExampleStatements();
    assert ss[1..][1..][1..] == [];
    var early := [ss[0], ss[1]];
    assert ss[..2] == early;
    assert early[1..] == [ss[1]] && early[1..][1..] == [];
    assert HasCategory([Groceries, Salary], 1) by { assert Groceries in [Groceries, Salary]; }
    assert CategoryName([Groceries, Salary], 1) == "Groceries";
    var jan := SpendQuery(7, 1, DateTime(2024, 1, 20));
    assert Matches(jan, ss[0]) && !Matches(jan, ss[1]);
    assert SumWhere(early[1..], jan) == 0;
    assert SumWhere(early, jan) == -5000;
    var feb := SpendQuery(7, 1, DateTime(2024, 2, 15));
    assert !Matches(feb, ss[0]) && !Matches(feb, ss[1]) && Matches(feb, ss[2]);
    assert SumWhere(ss, feb) == -3000;
  }

  /** The window has no upper end: seen on January 20th, the expense dated February 3rd
      already counts, and 80.00 is spent. */
  lemma FutureDatedExpenseCounts()
    ensures Row(ExampleStatements(), [Groceries, Salary], GroceryBudget, 7, DateTime(2024, 1, 20))
         == BudgetRow("Groceries", 10000, 8000, 2000)
  {
    var ss := ExampleStatements();
    assert ss[1..][1..][1..] == [];
    assert HasCategory([Groceries, Salary], 1) by { assert Groceries in [Groceries, Salary]; }
    assert CategoryName([Groceries, Salary], 1) == "Groceries";
    var jan := SpendQuery(7, 1, DateTime(2024, 1, 20));
    assert Matches(jan, ss[0]) && !Matches(jan, ss[1]) && Matches(jan, ss[2]);
    assert SumWhere(ss, jan) == -8000;
  }

  /** The statements fall in two months, January and February. */
  lemma ExampleMonths(ss: seq<Statement>)
    requires ss == ExampleStatements()
    ensures Monthly(ss, 7).months == [MonthKey(2024, 1), MonthKey(2024, 2)]
  {
    var jan, feb := MonthKey(2024, 1), MonthKey(2024, 2);
    var mine := Where(ss, Query(7, None, AnySign, None, None));
    assert mine == ss by {
      assert ss[0] in mine && ss[1] in mine && ss[2] in mine;
    }
    assert MonthKeys(ss[2..]) == [feb] by { assert ss[2..][1..] == []; }
    assert MonthKeys(ss[1..]) == [jan, feb] by { assert ss[1..][1..] == ss[2..]; }
  }

  /** The month sums behind the two columns. */
  lemma ExampleMonthSums(ss: seq<Statement>)
    requires ss == ExampleStatements()
    ensures SumWhere(ss, IncomeQuery(7, MonthKey(2024, 1))) == 200000
    ensures SumWhere(ss, IncomeQuery(7, MonthKey(2024, 2))) == 0
    ensures SumWhere(ss, ExpenseQuery(7, MonthKey(2024, 1))) == -5000
    ensures SumWhere(ss, ExpenseQuery(7, MonthKey(2024, 2))) == -3000
  {
    assert ss[1..][1..][1..] == [];
  }

  /** The monthly series: January has 2000.00 income and 50.00 expense, February no
      income and 30.00 expense. */
  lemma MonthlySeriesExample(ss: seq<Statement>)
    requires ss == ExampleStatements()
    ensures Monthly(ss, 7) == MonthlySeries(
              [MonthKey(2024, 1), MonthKey(2024, 2)], [200000, 0], [5000, 3000])
  {
    ExampleMonths(ss);
    ExampleMonthSums(ss);
    var r := Monthly(ss, 7);
    TwoMonthSeries(r, MonthKey(2024, 1), MonthKey(2024, 2), r.income[0], r.income[1], r.expense[0], r.expense[1]);
  }

  /** A series of two months is fixed by its months and its four entries. */
  lemma TwoMonthSeries(r: MonthlySeries, k1: MonthKey, k2: MonthKey, i1: int, i2: int, e1: int, e2: int)
    requires r.months == [k1, k2] && |r.income| == 2 && |r.expense| == 2
    requires r.income[0] == i1 && r.income[1] == i2 && r.expense[0] == e1 && r.expense[1] == e2
    ensures r == MonthlySeries([k1, k2], [i1, i2], [e1, e2])
  {
    assert r.income == [i1, i2];
    assert r.expense == [e1, e2];
  }

  /** The balance, 1920.00, is what the two columns reconcile to. */
  lemma ExampleBalance(ss: seq<Statement>)
    requires ss == ExampleStatements()
    ensures Balance(ss, 7) == 192000
  {
    MonthlySeriesExample(ss);
    MonthlyReconciles(ss, 7);
    var r := Monthly(ss, 7);
    assert Sum(r.income) == 200000 by { assert r.income[1..][1..] == []; }
    assert Sum(r.expense) == 8000 by { assert r.expense[1..][1..] == []; }
  }
}
