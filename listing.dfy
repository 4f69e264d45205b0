/** The statement list: a sign filter, newest-first ordering, pages of six rows and
    the income and expense totals shown beside them. */
module Listing {
  import opened Wrappers
  import opened Db
  import opened Queries
  import Reports

  const PageSize: nat := 6

  /** The `page` argument after `int(...)` and the clamp: a value that does not parse
      (`None`) and a negative one both become page 0. */
  function ClampPage(arg: Option<int>): (page: nat)
    ensures arg.Some? && arg.value >= 0 ==> page == arg.value
    ensures arg.None? || arg.value < 0 ==> page == 0
  {
    match arg
    case None => 0
    case Some(p) => if p < 0 then 0 else p
  }

  /** The `t` argument: "expense" keeps only expenses, "income" only incomes, and any
      other value, or none, keeps everything. */
  function SignOf(t: Option<string>): (sign: Sign)
    ensures sign == Negative <==> t == Some("expense")
    ensures sign == NonNegative <==> t == Some("income")
  {
    if t == Some("expense") then Negative
    else if t == Some("income") then NonNegative
    else AnySign
  }

  /** `ORDER BY operation_time DESC`. */
  ghost predicate NewestFirst(xs: seq<Statement>) {
    forall i, j :: 0 <= i < j < |xs| ==> NotBefore(xs[i].at, xs[j].at)
  }

  function InsertByTime(s: Statement, xs: seq<Statement>): (r: seq<Statement>)
    requires NewestFirst(xs)
    ensures NewestFirst(r)
    ensures multiset(r) == multiset(xs) + multiset{s}
  {
    if xs == [] then [s]
    else if NotBefore(s.at, xs[0].at) then [s] + xs
    else
      var rest := InsertByTime(s, xs[1..]);
      assert xs == [xs[0]] + xs[1..];
      assert forall m :: m in rest ==> NotBefore(xs[0].at, m.at) by {
        forall m | m in rest ensures NotBefore(xs[0].at, m.at) {
          assert m in multiset(rest);
          if m != s {
            assert m in xs[1..];
          }
        }
      }
      [xs[0]] + rest
  }

  /** The rows of `xs`, newest first. */
  function SortNewestFirst(xs: seq<Statement>): (r: seq<Statement>)
    ensures NewestFirst(r)
    ensures multiset(r) == multiset(xs)
  {
    if xs == [] then []
    else
      assert xs == [xs[0]] + xs[1..];
      InsertByTime(xs[0], SortNewestFirst(xs[1..]))
  }

  function Min(a: int, b: int): int {
    if a < b then a else b
  }

  /** `LIMIT 6 OFFSET 6 * page`. */
  function Page<T>(xs: seq<T>, page: nat): (r: seq<T>)
    ensures |r| <= PageSize
    ensures |r| == if |xs| <= PageSize * page then 0 else Min(PageSize, |xs| - PageSize * page)
    ensures forall i :: 0 <= i < |r| ==> r[i] == xs[PageSize * page + i]
  {
    if |xs| <= PageSize * page then []
    else xs[PageSize * page .. Min(|xs|, PageSize * page + PageSize)]
  }

  /** Row `k` of a listing is row `k % 6` of page `k / 6`: paging loses no row. */
  lemma PageHoldsRow<T>(xs: seq<T>, k: nat)
    requires k < |xs|
    ensures k % PageSize < |Page(xs, k / PageSize)|
    ensures Page(xs, k / PageSize)[k % PageSize] == xs[k]
  {
    assert PageSize * (k / PageSize) + k % PageSize == k;
  }

  /** What the statements page shows. */
  datatype StatementsView = StatementsView(
    items: seq<Statement>, totalIncome: int, totalExpense: int, balance: int)

  function ListQuery(user: nat, t: Option<string>): Query {
    Query(user, None, SignOf(t), None, None)
  }

  /** The statements page of `user`: at most six rows, from offset `6 * page` of that
      user's statements of the requested sign sorted newest first; the totals are the
      income sum and the expense magnitude over all the user's statements (0 when there
      are none), and income minus expense is the balance. */
  function StatementsPage(statements: seq<Statement>, user: nat, t: Option<string>, pageArg: Option<int>)
    : (v: StatementsView)
    ensures v.items == Page(SortNewestFirst(Where(statements, ListQuery(user, t))), ClampPage(pageArg))
    ensures |v.items| <= PageSize
    ensures forall s :: s in v.items ==> s in statements && s.userId == user && SignMatches(SignOf(t), s.amount)
    ensures NewestFirst(v.items)
    ensures v.totalIncome >= 0 && v.totalIncome == SumWhere(statements, Query(user, None, NonNegative, None, None))
    ensures v.totalExpense >= 0 && v.totalExpense == -SumWhere(statements, Query(user, None, Negative, None, None))
    ensures v.balance == Reports.Balance(statements, user)
    ensures v.totalIncome - v.totalExpense == v.balance
  {
    var sorted := SortNewestFirst(Where(statements, ListQuery(user, t)));
    var items := Page(sorted, ClampPage(pageArg));
    assert forall s :: s in items ==> s in sorted;
    assert forall s :: s in sorted ==> s in Where(statements, ListQuery(user, t)) by {
      forall s | s in sorted ensures s in Where(statements, ListQuery(user, t)) {
        assert s in multiset(sorted);
      }
    }
    var incomeQ := Query(user, None, NonNegative, None, None);
    var expenseQ := Query(user, None, Negative, None, None);
    SumWhereSign(statements, incomeQ);
    SumWhereSign(statements, expenseQ);
    SumWhereSplit(statements, Query(user, None, AnySign, None, None));
    StatementsView(
      items,
      SqlSum(statements, incomeQ).GetOr(0),
      Abs(SqlSum(statements, expenseQ).GetOr(0)),
      Reports.Balance(statements, user))
  }

  /** Every statement the filter keeps is shown on some page. */
  lemma ListedOnSomePage(statements: seq<Statement>, user: nat, t: Option<string>, s: Statement)
    requires s in statements && s.userId == user && SignMatches(SignOf(t), s.amount)
    ensures exists page: nat :: s in StatementsPage(statements, user, t, Some(page)).items
  {
    var sorted := SortNewestFirst(Where(statements, ListQuery(user, t)));
    assert s in Where(statements, ListQuery(user, t));
    assert s in multiset(sorted);
    var k :| 0 <= k < |sorted| && sorted[k] == s;
    PageHoldsRow(sorted, k);
    var page: nat := k / PageSize;
    assert StatementsPage(statements, user, t, Some(page)).items == Page(sorted, page);
    assert s in Page(sorted, page);
  }
}
