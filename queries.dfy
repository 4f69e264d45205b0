/** The filtered `SUM(amount)` queries the routes issue against the statements table. */
module Queries {
  import opened Wrappers
  import opened Db

  /** The sign filter of a query: `amount < 0`, `amount >= 0`, or none. */
  datatype Sign = AnySign | Negative | NonNegative

  /** A conjunction of the filters the routes combine: always the user, optionally the
      category, the sign, the year-month bucket and a lower bound on `operation_time`. */
  datatype Query = Query(
    user: nat,
    category: Option<nat>,
    sign: Sign,
    month: Option<MonthKey>,
    since: Option<DateTime>)

  predicate SignMatches(sign: Sign, amount: int) {
    match sign
    case AnySign => true
    case Negative => amount < 0
    case NonNegative => amount >= 0
  }

  predicate Matches(q: Query, s: Statement) {
    && s.userId == q.user
    && (q.category.Some? ==> s.categoryId == q.category.value)
    && SignMatches(q.sign, s.amount)
    && (q.month.Some? ==> MonthOf(s.at) == q.month.value)
    && (q.since.Some? ==> NotBefore(s.at, q.since.value))
  }

  function Abs(x: int): (r: int)
    ensures r >= 0 && (r == x || r == -x)
  {
    if x < 0 then -x else x
  }

  /** The amount stored for a statement entered with magnitude `amount`: the expense
      button negates `abs(amount)`, otherwise it is kept. It is classified as an expense
      exactly when the expense button was used and the magnitude is not zero. */
  function SignedAmount(amount: int, expense: bool): (r: int)
    ensures Abs(r) == Abs(amount)
    ensures r < 0 <==> expense && amount != 0
    ensures expense ==> r <= 0
    ensures !expense ==> r >= 0
  {
    if expense then -Abs(amount) else Abs(amount)
  }

  /** The rows a query selects, in table order. */
  function Where(statements: seq<Statement>, q: Query): (r: seq<Statement>)
    ensures |r| <= |statements|
    ensures forall s :: s in r ==> s in statements && Matches(q, s)
    ensures forall s :: s in statements && Matches(q, s) ==> s in r
  {
    Seqs.Filter(statements, (s: Statement) => Matches(q, s))
  }

  /** Each matching row is selected as often as it occurs in the table, and no other row. */
  lemma WhereCounts(statements: seq<Statement>, q: Query)
    ensures forall s :: s in statements ==>
              multiset(Where(statements, q))[s] == if Matches(q, s) then multiset(statements)[s] else 0
  {
    Seqs.FilterCounts(statements, (s: Statement) => Matches(q, s));
  }

  /** Selecting from two stretches of the table selects from each in turn: the rows keep
      their table order. */
  lemma WhereAppend(a: seq<Statement>, b: seq<Statement>, q: Query)
    ensures Where(a + b, q) == Where(a, q) + Where(b, q)
  {
    Seqs.FilterAppend(a, b, (s: Statement) => Matches(q, s));
  }

  /** What one statement adds to the sum of a query. */
  function Contribution(q: Query, s: Statement): int {
    if Matches(q, s) then s.amount else 0
  }

  /** The sum of the amounts a query selects; 0 when it selects nothing. */
  function SumWhere(statements: seq<Statement>, q: Query): int {
    if statements == [] then 0
    else Contribution(q, statements[0]) + SumWhere(statements[1..], q)
  }

  /** SQL's `SUM(amount)`: NULL (here `None`) when no row matches. */
  function SqlSum(statements: seq<Statement>, q: Query): (r: Option<int>)
    ensures r.None? <==> forall s :: s in statements ==> !Matches(q, s)
    ensures r.GetOr(0) == SumWhere(statements, q)
  {
    if Where(statements, q) == [] then
      SumOfNothing(statements, q);
      None
    else
      assert Where(statements, q)[0] in Where(statements, q);
      Some(SumWhere(statements, q))
  }

  /** A query that selects no row sums to 0. */
  lemma {:induction false} SumOfNothing(statements: seq<Statement>, q: Query)
    requires forall s :: s in statements ==> !Matches(q, s)
    ensures SumWhere(statements, q) == 0
  {
    if statements != [] {
      SumOfNothing(statements[1..], q);
    }
  }

  /** Expenses sum to at most 0, incomes to at least 0. */
  lemma {:induction false} SumWhereSign(statements: seq<Statement>, q: Query)
    ensures q.sign == Negative ==> SumWhere(statements, q) <= 0
    ensures q.sign == NonNegative ==> SumWhere(statements, q) >= 0
  {
    if statements != [] {
      SumWhereSign(statements[1..], q);
    }
  }

  /** Every selected amount is either an income or an expense: the unsigned sum is
      the income sum plus the expense sum. */
  lemma {:induction false} SumWhereSplit(statements: seq<Statement>, q: Query)
    ensures SumWhere(statements, q.(sign := AnySign))
         == SumWhere(statements, q.(sign := NonNegative)) + SumWhere(statements, q.(sign := Negative))
  {
    if statements != [] {
      SumWhereSplit(statements[1..], q);
    }
  }

  /** Sums over a concatenation of tables add up. */
  lemma {:induction false} SumWhereAppend(a: seq<Statement>, b: seq<Statement>, q: Query)
    ensures SumWhere(a + b, q) == SumWhere(a, q) + SumWhere(b, q)
  {
    if a == [] {
      assert a + b == b;
    } else {
      assert (a + b)[1..] == a[1..] + b;
      SumWhereAppend(a[1..], b, q);
    }
  }
}
