/** The records of the database schema and the integrity constraints it declares.
    Amounts are `Numeric(10, 2)` columns, kept here as integer cents. */
module Db {
  import opened Seqs
  import Wrappers

  // ---------------------------------------------------------------- time

  /** The years Python's `datetime` represents (`MINYEAR` to `MAXYEAR`): always four
      digits or fewer, so "%Y-%m" strings of equal width compare as the keys do. */
  type Year = y: int | 1 <= y <= 9999 witness 1

  type MonthOfYear = m: int | 1 <= m <= 12 witness 1

  /** A timestamp: calendar year and month, and the position within that month
      (day, hour, minute and second flattened into one number). */
  datatype DateTime = DateTime(year: Year, month: MonthOfYear, offset: nat)

  /** The year-month bucket a timestamp falls in (`strftime("%Y-%m", t)`). */
  datatype MonthKey = MonthKey(year: Year, month: MonthOfYear)

  function MonthOf(t: DateTime): MonthKey {
    MonthKey(t.year, t.month)
  }

  /** Chronological order on month keys, strict. */
  predicate KeyLess(a: MonthKey, b: MonthKey) {
    a.year < b.year || (a.year == b.year && a.month < b.month)
  }

  /** `a >= b` on timestamps. */
  predicate NotBefore(a: DateTime, b: DateTime) {
    a.year > b.year
    || (a.year == b.year && (a.month > b.month || (a.month == b.month && a.offset >= b.offset)))
  }

  /** `datetime(now.year, now.month, 1)`: midnight of the first day of the month of `now`.
      A timestamp is at or after it exactly when its month is not earlier than that of `now`. */
  function StartOfMonth(now: DateTime): (r: DateTime)
    ensures MonthOf(r) == MonthOf(now) && NotBefore(now, r)
    ensures forall t :: NotBefore(t, r) <==> !KeyLess(MonthOf(t), MonthOf(now))
  {
    DateTime(now.year, now.month, 0)
  }

  // ---------------------------------------------------------------- records

  datatype User = User(id: nat, name: string, email: string)

  /** A named grouping of one user's statements. */
  datatype Category = Category(id: nat, name: string, userId: nat)

  /** A spending target for one (user, category) pair. */
  datatype Budget = Budget(id: nat, amount: int, period: string, userId: nat, categoryId: nat)

  /** One monetary movement: a negative amount is an expense, any other an income. */
  datatype Statement = Statement(
    statementId: string,
    description: string,
    amount: int,
    at: DateTime,
    userId: nat,
    categoryId: nat)

  /** The column default of `Budget.period`. */
  const DefaultPeriod: string := "monthly"

  // ---------------------------------------------------------------- keys

  function UserId(u: User): nat { u.id }
  function UserEmail(u: User): string { u.email }
  function CategoryId(c: Category): nat { c.id }
  function CategoryNameKey(c: Category): (string, nat) { (c.name, c.userId) }
  function BudgetId(b: Budget): nat { b.id }
  function BudgetPairKey(b: Budget): (nat, nat) { (b.userId, b.categoryId) }
  function StatementKey(s: Statement): string { s.statementId }

  // ---------------------------------------------------------------- references

  ghost predicate HasUser(users: seq<User>, id: nat) {
    exists u :: u in users && u.id == id
  }

  ghost predicate HasCategory(categories: seq<Category>, id: nat) {
    exists c :: c in categories && c.id == id
  }

  /** Category `id` exists and belongs to user `owner`. */
  ghost predicate OwnsCategory(categories: seq<Category>, id: nat, owner: nat) {
    exists c :: c in categories && c.id == id && c.userId == owner
  }

  /** Every constraint the schema declares, plus the one the routes keep: a statement
      or budget only refers to a category of its own user (the forms offer no other). */
  ghost predicate Consistent(
    users: seq<User>, categories: seq<Category>, budgets: seq<Budget>, statements: seq<Statement>): (ok: bool)
    ensures ok ==> forall s :: s in statements ==> HasCategory(categories, s.categoryId)
    ensures ok ==> forall b :: b in budgets ==> HasCategory(categories, b.categoryId)
  {
    && DistinctBy(users, UserId) && DistinctBy(users, UserEmail)
    && DistinctBy(categories, CategoryId) && DistinctBy(categories, CategoryNameKey)
    && DistinctBy(budgets, BudgetId) && DistinctBy(budgets, BudgetPairKey)
    && DistinctBy(statements, StatementKey)
    && (forall c :: c in categories ==> HasUser(users, c.userId))
    && (forall b :: b in budgets ==> HasUser(users, b.userId) && OwnsCategory(categories, b.categoryId, b.userId))
    && (forall s :: s in statements ==> HasUser(users, s.userId) && OwnsCategory(categories, s.categoryId, s.userId))
  }

  /** The category a budget refers to exists. */
  lemma BudgetCategoryExists(
    users: seq<User>, categories: seq<Category>, budgets: seq<Budget>, statements: seq<Statement>, b: Budget)
    requires Consistent(users, categories, budgets, statements)
    requires b in budgets
    ensures HasCategory(categories, b.categoryId)
  {
    var c :| c in categories && c.id == b.categoryId && c.userId == b.userId;
  }

  // ---------------------------------------------------------------- lookups

  /** The position of the statement whose `statement_id` is `id` (`filter(...).first()`). */
  function FindStatement(statements: seq<Statement>, id: string): (r: Wrappers.Option<nat>)
    ensures r.Some? ==> r.value < |statements| && statements[r.value].statementId == id
    ensures r.None? ==> forall s :: s in statements ==> s.statementId != id
  {
    if statements == [] then Wrappers.None
    else if statements[0].statementId == id then Wrappers.Some(0)
    else match FindStatement(statements[1..], id)
      case None => Wrappers.None
      case Some(k) => Wrappers.Some(k + 1)
  }

  /** The position of category `id` (`Category.query.get(id)`). */
  function FindCategory(categories: seq<Category>, id: nat): (r: Wrappers.Option<nat>)
    ensures r.Some? ==> r.value < |categories| && categories[r.value].id == id
    ensures r.None? ==> !HasCategory(categories, id)
  {
    if categories == [] then Wrappers.None
    else if categories[0].id == id then Wrappers.Some(0)
    else match FindCategory(categories[1..], id)
      case None => Wrappers.None
      case Some(k) => Wrappers.Some(k + 1)
  }

  /** The position of the first budget of `user` for category `categoryId`. */
  function FindBudget(budgets: seq<Budget>, user: nat, categoryId: nat): (r: Wrappers.Option<nat>)
    ensures r.Some? ==> r.value < |budgets| && budgets[r.value].userId == user && budgets[r.value].categoryId == categoryId
    ensures r.Some? ==> forall j :: 0 <= j < r.value ==> BudgetPairKey(budgets[j]) != (user, categoryId)
    ensures r.None? ==> forall b :: b in budgets ==> BudgetPairKey(b) != (user, categoryId)
  {
    if budgets == [] then Wrappers.None
    else if budgets[0].userId == user && budgets[0].categoryId == categoryId then Wrappers.Some(0)
    else match FindBudget(budgets[1..], user, categoryId)
      case None => Wrappers.None
      case Some(k) => Wrappers.Some(k + 1)
  }

  /** The attributes a `Budget` row object carries: its five columns and the `user`
      backref that the `User.budgets` relationship adds. No relationship adds `category`. */
  const BudgetAttributes: set<string> := {"id", "amount", "period", "user_id", "category_id", "user"}

  /** The budget table once `amount` is set for (`user`, `categoryId`): the pair's budget
      gets that amount, or, when the pair has none, one budget with the default period is
      added; budgets of every other pair are kept, and nothing else is added. */
  function UpsertBudget(budgets: seq<Budget>, user: nat, categoryId: nat, id: nat, amount: int): (r: seq<Budget>)
    ensures |r| == |budgets| + (if FindBudget(budgets, user, categoryId).None? then 1 else 0)
    ensures exists b :: b in r && BudgetPairKey(b) == (user, categoryId) && b.amount == amount
    ensures forall b :: b in budgets && BudgetPairKey(b) != (user, categoryId) ==> b in r
    ensures forall b :: b in r && BudgetPairKey(b) != (user, categoryId) ==> b in budgets
  {
    match FindBudget(budgets, user, categoryId)
    case Some(i) =>
      var r := budgets[i := budgets[i].(amount := amount)];
      assert r[i] in r;
      assert forall k :: 0 <= k < |r| && k != i ==> r[k] == budgets[k];
      assert forall b :: b in budgets && BudgetPairKey(b) != (user, categoryId) ==> b in r by {
        forall b | b in budgets && BudgetPairKey(b) != (user, categoryId) ensures b in r {
          var k :| 0 <= k < |budgets| && budgets[k] == b;
          assert r[k] == b;
        }
      }
      r
    case None =>
      var b := Budget(id, amount, DefaultPeriod, user, categoryId);
      var r := budgets + [b];
      assert r[|budgets|] == b;
      r
  }

  /** The position of user `id`. */
  function FindUser(users: seq<User>, id: nat): (r: Wrappers.Option<nat>)
    ensures r.Some? ==> r.value < |users| && users[r.value].id == id
    ensures r.None? ==> !HasUser(users, id)
  {
    if users == [] then Wrappers.None
    else if users[0].id == id then Wrappers.Some(0)
    else match FindUser(users[1..], id)
      case None => Wrappers.None
      case Some(k) => Wrappers.Some(k + 1)
  }

  /** True when `user` already has a category called `name` (the UNIQUE (name, user_id) test). */
  predicate HasCategoryNamed(categories: seq<Category>, name: string, user: nat) {
    exists c :: c in categories && c.name == name && c.userId == user
  }

  // ---------------------------------------------------------------- cascades

  /** The statements left after those of category `id` are deleted. */
  function StatementsOutsideCategory(statements: seq<Statement>, id: nat): (r: seq<Statement>)
    ensures forall s :: s in r ==> s in statements && s.categoryId != id
    ensures forall s :: s in statements && s.categoryId != id ==> s in r
  {
    Filter(statements, (s: Statement) => s.categoryId != id)
  }

  /** The budgets left after those of category `id` are deleted. */
  function BudgetsOutsideCategory(budgets: seq<Budget>, id: nat): (r: seq<Budget>)
    ensures forall b :: b in r ==> b in budgets && b.categoryId != id
    ensures forall b :: b in budgets && b.categoryId != id ==> b in r
  {
    Filter(budgets, (b: Budget) => b.categoryId != id)
  }

  /** The statements left after those of user `id` are deleted. */
  function StatementsNotOf(statements: seq<Statement>, id: nat): (r: seq<Statement>)
    ensures forall s :: s in r ==> s in statements && s.userId != id
    ensures forall s :: s in statements && s.userId != id ==> s in r
  {
    Filter(statements, (s: Statement) => s.userId != id)
  }

  /** The categories left after those of user `id` are deleted. */
  function CategoriesNotOf(categories: seq<Category>, id: nat): (r: seq<Category>)
    ensures forall c :: c in r ==> c in categories && c.userId != id
    ensures forall c :: c in categories && c.userId != id ==> c in r
  {
    Filter(categories, (c: Category) => c.userId != id)
  }

  /** The budgets left after those of user `id` are deleted. */
  function BudgetsNotOf(budgets: seq<Budget>, id: nat): (r: seq<Budget>)
    ensures forall b :: b in r ==> b in budgets && b.userId != id
    ensures forall b :: b in budgets && b.userId != id ==> b in r
  {
    Filter(budgets, (b: Budget) => b.userId != id)
  }

  /** The budgets of user `id`, in table order (`Budget.query.filter_by(user_id=id)`). */
  function BudgetsOf(budgets: seq<Budget>, id: nat): (r: seq<Budget>)
    ensures forall b :: b in r ==> b in budgets && b.userId == id
    ensures forall b :: b in budgets && b.userId == id ==> b in r
  {
    Filter(budgets, (b: Budget) => b.userId == id)
  }

  /** Each budget of user `id` is listed as often as it occurs in the table, and no other. */
  lemma BudgetsOfCounts(budgets: seq<Budget>, id: nat)
    ensures forall b :: b in budgets ==>
              multiset(BudgetsOf(budgets, id))[b] == if b.userId == id then multiset(budgets)[b] else 0
  {
    FilterCounts(budgets, (b: Budget) => b.userId == id);
  }

  /** The user's budgets of two stretches of the table, one after the other: table order. */
  lemma BudgetsOfAppend(a: seq<Budget>, b: seq<Budget>, id: nat)
    ensures BudgetsOf(a + b, id) == BudgetsOf(a, id) + BudgetsOf(b, id)
  {
    FilterAppend(a, b, (b: Budget) => b.userId == id);
  }

  // ---------------------------------------------------------------- integrity of the cascades

  /** Removing the category at index `i` together with its statements and budgets leaves
      no dangling reference and keeps every key unique. */
  lemma CategoryCascadeKeepsConsistent(
    users: seq<User>, categories: seq<Category>, budgets: seq<Budget>, statements: seq<Statement>, i: nat)
    requires Consistent(users, categories, budgets, statements)
    requires i < |categories|
    ensures var id := categories[i].id;
            Consistent(users, RemoveAt(categories, i),
                       BudgetsOutsideCategory(budgets, id), StatementsOutsideCategory(statements, id))
  {
    var id := categories[i].id;
    var cats := RemoveAt(categories, i);
    var kept := StatementsOutsideCategory(statements, id);
    var keptBudgets := BudgetsOutsideCategory(budgets, id);
    RemoveAtKeepsDistinct(categories, i, CategoryId);
    RemoveAtKeepsDistinct(categories, i, CategoryNameKey);
    FilterKeepsDistinct(statements, (s: Statement) => s.categoryId != id, StatementKey);
    FilterKeepsDistinct(budgets, (b: Budget) => b.categoryId != id, BudgetId);
    FilterKeepsDistinct(budgets, (b: Budget) => b.categoryId != id, BudgetPairKey);
    forall s | s in kept ensures OwnsCategory(cats, s.categoryId, s.userId) {
      var c :| c in categories && c.id == s.categoryId && c.userId == s.userId;
      assert c != categories[i];
    }
    forall b | b in keptBudgets ensures OwnsCategory(cats, b.categoryId, b.userId) {
      var c :| c in categories && c.id == b.categoryId && c.userId == b.userId;
      assert c != categories[i];
    }
  }

  /** After that cascade no row refers to the deleted category any more. */
  lemma CategoryCascadeRemovesCategory(categories: seq<Category>, i: nat)
    requires DistinctBy(categories, CategoryId)
    requires i < |categories|
    ensures !HasCategory(RemoveAt(categories, i), categories[i].id)
  {
    var cats := RemoveAt(categories, i);
    assert cats == categories[..i] + categories[i + 1..];
    forall c | c in cats ensures c.id != categories[i].id {
      var k :| 0 <= k < |cats| && cats[k] == c;
      var k' := if k < i then k else k + 1;
      assert c == categories[k'] && k' != i;
    }
  }

  /** Removing the user at index `i` together with that user's categories, budgets and
      statements leaves no dangling reference and keeps every key unique. */
  lemma UserCascadeKeepsConsistent(
    users: seq<User>, categories: seq<Category>, budgets: seq<Budget>, statements: seq<Statement>, i: nat)
    requires Consistent(users, categories, budgets, statements)
    requires i < |users|
    ensures var id := users[i].id;
            Consistent(RemoveAt(users, i), CategoriesNotOf(categories, id),
                       BudgetsNotOf(budgets, id), StatementsNotOf(statements, id))
  {
    var id := users[i].id;
    var us := RemoveAt(users, i);
    var cats := CategoriesNotOf(categories, id);
    var kept := StatementsNotOf(statements, id);
    var keptBudgets := BudgetsNotOf(budgets, id);
    RemoveAtKeepsDistinct(users, i, UserId);
    RemoveAtKeepsDistinct(users, i, UserEmail);
    FilterKeepsDistinct(categories, (c: Category) => c.userId != id, CategoryId);
    FilterKeepsDistinct(categories, (c: Category) => c.userId != id, CategoryNameKey);
    FilterKeepsDistinct(statements, (s: Statement) => s.userId != id, StatementKey);
    FilterKeepsDistinct(budgets, (b: Budget) => b.userId != id, BudgetId);
    FilterKeepsDistinct(budgets, (b: Budget) => b.userId != id, BudgetPairKey);
    forall x: nat | x != id && HasUser(users, x) ensures HasUser(us, x) {
      var u :| u in users && u.id == x;
      assert u != users[i];
    }
    forall s | s in kept ensures OwnsCategory(cats, s.categoryId, s.userId) {
      var c :| c in categories && c.id == s.categoryId && c.userId == s.userId;
      assert c in cats;
    }
    forall b | b in keptBudgets ensures OwnsCategory(cats, b.categoryId, b.userId) {
      var c :| c in categories && c.id == b.categoryId && c.userId == b.userId;
      assert c in cats;
    }
  }

  /** After that cascade the account is gone. */
  lemma UserCascadeRemovesAccount(users: seq<User>, i: nat)
    requires DistinctBy(users, UserId)
    requires i < |users|
    ensures !HasUser(RemoveAt(users, i), users[i].id)
  {
    var us := RemoveAt(users, i);
    assert us == users[..i] + users[i + 1..];
    forall u | u in us ensures u.id != users[i].id {
      var k :| 0 <= k < |us| && us[k] == u;
      var k' := if k < i then k else k + 1;
      assert u == users[k'] && k' != i;
    }
  }
}
