/** The store behind the home routes: four tables updated in place by the request
    handlers, each handler one atomic method call made on behalf of the current user. */
module Home {
  import opened Wrappers
  import opened Seqs
  import opened Db
  import opened Queries
  import opened Reports

  // ---------------------------------------------------------------- the budget routes as written

  /** `manage_budgets` on POST as written: both branches read `.category` of the budget
      for the flash message before the commit at `home.py:139`. `Budget` declares no such
      attribute, so the request raises and its session is rolled back; `None` is that
      failure. The intended upsert is `UpsertBudget`, which `Ledger.SetBudget` performs. */
  function UpsertBudgetAsWritten(budgets: seq<Budget>, user: nat, categoryId: nat, id: nat, amount: int)
    : (r: Option<seq<Budget>>)
    ensures r.None?
  {
    if "category" in BudgetAttributes then Some(UpsertBudget(budgets, user, categoryId, id, amount))
    else None
  }

  /** As written, a budget set for a pair that has none is never stored; the intended
      upsert stores it with the requested amount. */
  lemma UpsertAsWrittenLosesBudget(budgets: seq<Budget>, user: nat, categoryId: nat, id: nat, amount: int)
    requires FindBudget(budgets, user, categoryId).None?
    ensures UpsertBudgetAsWritten(budgets, user, categoryId, id, amount).None?
    ensures forall b :: b in budgets ==> BudgetPairKey(b) != (user, categoryId)
    ensures exists b :: b in UpsertBudget(budgets, user, categoryId, id, amount)
                     && BudgetPairKey(b) == (user, categoryId) && b.amount == amount
  {
    var intended := UpsertBudget(budgets, user, categoryId, id, amount);
    var b :| b in intended && BudgetPairKey(b) == (user, categoryId) && b.amount == amount;
  }

  /** The `budgets_data` loop of `manage_budgets` as written: its first row reads
      `budget.category.name`, which `Budget` does not declare, so the page fails for every
      user with at least one budget and renders only for a user with none. The intended
      rows, with the name looked up by category id, are `Ledger.BudgetDashboard`'s. */
  function DashboardAsWritten(budgets: seq<Budget>, user: nat): (r: Option<seq<BudgetRow>>)
    ensures r.None? <==> BudgetsOf(budgets, user) != []
    ensures r.Some? ==> r.value == []
  {
    if BudgetsOf(budgets, user) == [] then Some([])
    else
      // the first row reads `budget.category`, which is not among the attributes
      assert "category" !in BudgetAttributes;
      None
  }

  /** How a request ended. */
  datatype Outcome = Added | Updated | Deleted | Rejected | Unsupported | NotFound | Forbidden | Conflict
                   | Failed  // the handler raised; its session is rolled back

  // ---------------------------------------------------------------- the statement edit route

  /** The action of `specific_statement` on the statement at `i`, and the table it leaves:
      "income" and "expense" overwrite amount, description and time of that statement only,
      "delete" removes it, any other action changes nothing. */
  function EditAt(
    statements: seq<Statement>, i: nat, amount: int, description: string, at: DateTime,
    income: bool, expense: bool, delete: bool): (r: (Outcome, seq<Statement>))
    requires i < |statements|
    ensures r.0 == Updated <==> income || expense
    ensures r.0 == Deleted <==> !income && !expense && delete
    ensures r.0 == Updated || r.0 == Deleted || r.0 == Unsupported
    ensures r.0 == Updated ==>
              && |r.1| == |statements|
              && r.1[i].statementId == statements[i].statementId
              && r.1[i].userId == statements[i].userId && r.1[i].categoryId == statements[i].categoryId
              && r.1[i].amount == SignedAmount(amount, !income)
              && r.1[i].description == description && r.1[i].at == at
              && (forall k :: 0 <= k < |statements| && k != i ==> r.1[k] == statements[k])
    ensures r.0 == Deleted ==> r.1 == RemoveAt(statements, i)
    ensures r.0 == Unsupported ==> r.1 == statements
  {
    var s := statements[i];
    if income then (Updated, statements[i := s.(amount := SignedAmount(amount, false), description := description, at := at)])
    else if expense then (Updated, statements[i := s.(amount := SignedAmount(amount, true), description := description, at := at)])
    else if delete then (Deleted, RemoveAt(statements, i))
    else (Unsupported, statements)
  }

  /** An edit keeps every key unique and every reference valid. */
  lemma EditAtKeepsConsistent(
    users: seq<User>, categories: seq<Category>, budgets: seq<Budget>, statements: seq<Statement>,
    i: nat, amount: int, description: string, at: DateTime, income: bool, expense: bool, delete: bool)
    requires Consistent(users, categories, budgets, statements)
    requires i < |statements|
    ensures Consistent(users, categories, budgets, EditAt(statements, i, amount, description, at, income, expense, delete).1)
  {
    var s := statements[i];
    if income || expense {
      var s' := s.(amount := SignedAmount(amount, !income), description := description, at := at);
      UpdateKeepsDistinct(statements, i, s', StatementKey);
      assert forall t :: t in statements[i := s'] ==> t in statements || t == s';
    } else if delete {
      RemoveAtKeepsDistinct(statements, i, StatementKey);
    }
  }

  /** The choices of the edit form's `category` field on this route. `StatementEditForm`
      inherits the field with `query_factory=None`, and `specific_statement`, unlike
      `new_statement`, never sets a factory: there is no list to choose from. */
  const EditCategoryChoices: Option<seq<Category>> := None

  /** How `validate_on_submit()` of the edit form ends for the submitted category id, given
      the field's choices (`None`: no query factory): `Some(true)` when it passes,
      `Some(false)` when it fails (no value for the required, blank-refusing field, or a
      value that is not a choice), `None` when it raises (a value is checked against the
      choices, and fetching them calls the absent factory). */
  function EditFormValidates(category: Option<nat>, choices: Option<seq<Category>>): (r: Option<bool>)
    ensures r == Some(true) <==> category.Some? && choices.Some? && exists c :: c in choices.value && c.id == category.value
    ensures r.None? <==> category.Some? && choices.None?
  {
    match category
    case None => Some(false)
    case Some(id) =>
      match choices
      case None => None
      case Some(cs) => Some(exists c :: c in cs && c.id == id)
  }

  /** `specific_statement` on POST, for the category choices `choices` its form has: an
      unknown id is the 404; a failing form shows the page again, a raising one fails;
      a passing form performs `EditAt`. As written the choices are `EditCategoryChoices`. */
  function EditStatementAsWritten(
    statements: seq<Statement>, statementId: string, choices: Option<seq<Category>>, category: Option<nat>,
    amount: int, description: string, at: DateTime, income: bool, expense: bool, delete: bool)
    : (r: (Outcome, seq<Statement>))
    ensures r.0 == NotFound <==> FindStatement(statements, statementId).None?
    ensures choices.None? ==> r.1 == statements
    ensures choices.None? && r.0 != NotFound ==> (r.0 == Rejected <==> category.None?) && (r.0 == Failed <==> category.Some?)
    ensures FindStatement(statements, statementId).Some? && EditFormValidates(category, choices) == Some(true) ==>
              r == EditAt(statements, FindStatement(statements, statementId).value,
                          amount, description, at, income, expense, delete)
  {
    match FindStatement(statements, statementId)
    case None => (NotFound, statements)
    case Some(i) =>
      match EditFormValidates(category, choices)
      case None => (Failed, statements)
      case Some(ok) => if ok then EditAt(statements, i, amount, description, at, income, expense, delete) else (Rejected, statements)
  }

  /** As written, updating a statement as income never stores the new amount; the intended
      edit stores its magnitude. */
  lemma EditAsWrittenLosesUpdate(
    statements: seq<Statement>, statementId: string, category: Option<nat>, amount: int,
    description: string, at: DateTime)
    requires FindStatement(statements, statementId).Some?
    ensures var i := FindStatement(statements, statementId).value;
            && EditStatementAsWritten(
                 statements, statementId, EditCategoryChoices, category, amount, description, at, true, false, false).1
               == statements
            && EditAt(statements, i, amount, description, at, true, false, false).1[i].amount == Abs(amount)
  {
  }

  class Ledger {
    var users: seq<User>
    var categories: seq<Category>
    var budgets: seq<Budget>
    var statements: seq<Statement>

    ghost predicate Valid()
      reads this
    {
      Consistent(users, categories, budgets, statements)
    }

    /** Every budget's category is present: what the read-only reports need of the store. */
    ghost predicate BudgetCategoriesExist()
      reads this
    {
      forall b :: b in budgets ==> HasCategory(categories, b.categoryId)
    }

    lemma ValidBudgetCategoriesExist()
      requires Valid()
      ensures BudgetCategoriesExist()
    {
      forall b | b in budgets ensures HasCategory(categories, b.categoryId) {
        BudgetCategoryExists(users, categories, budgets, statements, b);
      }
    }

    /** A store over the accounts the authentication layer has registered. */
    constructor (accounts: seq<User>)
      requires DistinctBy(accounts, UserId) && DistinctBy(accounts, UserEmail)
      ensures Valid()
      ensures users == accounts && categories == [] && budgets == [] && statements == []
    {
      users, categories, budgets, statements := accounts, [], [], [];
    }

    /** `new_statement`: the form requires one of the two buttons; the amount is stored as
        `-abs(amount)` for the expense button and `abs(amount)` for the income button. */
    method AddStatement(
      user: nat, categoryId: nat, statementId: string, description: string, amount: int,
      at: DateTime, income: bool, expense: bool)
      returns (outcome: Outcome)
      requires Valid()
      requires OwnsCategory(categories, categoryId, user)
      requires forall s :: s in statements ==> s.statementId != statementId
      modifies this
      ensures Valid()
      ensures users == old(users) && categories == old(categories) && budgets == old(budgets)
      ensures !income && !expense ==> outcome == Rejected && statements == old(statements)
      ensures income || expense ==>
                && outcome == Added
                && statements == old(statements)
                     + [Statement(statementId, description, SignedAmount(amount, expense), at, user, categoryId)]
    {
      if !income && !expense {
        return Rejected;
      }
      var signed := Abs(amount);
      if expense {
        signed := -signed;
      }
      var s := Statement(statementId, description, signed, at, user, categoryId);
      assert HasUser(users, user) by {
        var c :| c in categories && c.id == categoryId && c.userId == user;
      }
      AppendKeepsDistinct(statements, s, StatementKey);
      statements := statements + [s];
      outcome := Added;
    }

    /** `specific_statement` on POST as intended (see `EditStatementAsWritten`): the
        statement is looked up by `statement_id` alone;
        "income" and "expense" overwrite amount, description and time, "delete" removes
        exactly that statement, any other action changes nothing. */
    method EditStatement(
      statementId: string, amount: int, description: string, at: DateTime,
      income: bool, expense: bool, delete: bool)
      returns (outcome: Outcome)
      requires Valid()
      modifies this
      ensures Valid()
      ensures users == old(users) && categories == old(categories) && budgets == old(budgets)
      ensures FindStatement(old(statements), statementId).None? ==>
                outcome == NotFound && statements == old(statements)
      ensures FindStatement(old(statements), statementId).Some? ==>
                var i := FindStatement(old(statements), statementId).value;
                var s := old(statements)[i];
                if income then
                  outcome == Updated
                  && statements == old(statements)[i := s.(amount := SignedAmount(amount, false), description := description, at := at)]
                else if expense then
                  outcome == Updated
                  && statements == old(statements)[i := s.(amount := SignedAmount(amount, true), description := description, at := at)]
                else if delete then
                  outcome == Deleted && statements == RemoveAt(old(statements), i)
                else
                  outcome == Unsupported && statements == old(statements)
      ensures FindStatement(old(statements), statementId).Some? ==>
                (outcome, statements)
                == EditAt(old(statements), FindStatement(old(statements), statementId).value,
                          amount, description, at, income, expense, delete)
    {
      var found := FindStatement(statements, statementId);
      if found.None? {
        return NotFound;
      }
      var i := found.value;
      var r := EditAt(statements, i, amount, description, at, income, expense, delete);
      EditAtKeepsConsistent(users, categories, budgets, statements, i, amount, description, at, income, expense, delete);
      outcome, statements := r.0, r.1;
    }

    /** `manage_categories` on POST: the UNIQUE (name, user_id) constraint refuses a second
        category of the same name for the same user and the store is left as it was. */
    method AddCategory(user: nat, id: nat, name: string) returns (outcome: Outcome)
      requires Valid()
      requires HasUser(users, user)
      requires forall c :: c in categories ==> c.id != id
      modifies this
      ensures Valid()
      ensures users == old(users) && budgets == old(budgets) && statements == old(statements)
      ensures HasCategoryNamed(old(categories), name, user) ==>
                outcome == Conflict && categories == old(categories)
      ensures !HasCategoryNamed(old(categories), name, user) ==>
                outcome == Added && categories == old(categories) + [Category(id, name, user)]
    {
      if HasCategoryNamed(categories, name, user) {
        return Conflict;
      }
      var c := Category(id, name, user);
      AppendKeepsDistinct(categories, c, CategoryId);
      AppendKeepsDistinct(categories, c, CategoryNameKey);
      categories := categories + [c];
      outcome := Added;
    }

    /** `delete_category`: a missing category is not found, another user's category is
        refused, and otherwise its statements are deleted, then the category itself; its
        budgets go with it through the foreign key's ON DELETE CASCADE. */
    method DeleteCategory(user: nat, categoryId: nat) returns (outcome: Outcome)
      requires Valid()
      modifies this
      ensures Valid()
      ensures users == old(users)
      ensures FindCategory(old(categories), categoryId).None? ==>
                && outcome == NotFound
                && categories == old(categories) && budgets == old(budgets) && statements == old(statements)
      ensures FindCategory(old(categories), categoryId).Some? ==>
                var i := FindCategory(old(categories), categoryId).value;
                if old(categories)[i].userId != user then
                  && outcome == Forbidden
                  && categories == old(categories) && budgets == old(budgets) && statements == old(statements)
                else
                  && outcome == Deleted
                  && categories == RemoveAt(old(categories), i)
                  && statements == StatementsOutsideCategory(old(statements), categoryId)
                  && budgets == BudgetsOutsideCategory(old(budgets), categoryId)
      ensures outcome == Deleted ==>
                && !HasCategory(categories, categoryId)
                && (forall s :: s in statements ==> s.categoryId != categoryId)
                && (forall b :: b in budgets ==> b.categoryId != categoryId)
                && (forall s :: s in old(statements) && s.categoryId != categoryId ==> s in statements)
                && (forall c :: c in old(categories) && c.id != categoryId ==> c in categories)
    {
      var found := FindCategory(categories, categoryId);
      if found.None? {
        return NotFound;
      }
      var i := found.value;
      if categories[i].userId != user {
        return Forbidden;
      }
      CategoryCascadeKeepsConsistent(users, categories, budgets, statements, i);
      CategoryCascadeRemovesCategory(categories, i);
      categories, statements, budgets :=
        RemoveAt(categories, i),
        StatementsOutsideCategory(statements, categoryId),
        BudgetsOutsideCategory(budgets, categoryId);
      outcome := Deleted;
    }

    /** `manage_budgets` on POST, an upsert on (user, category): an existing budget gets
        the new amount, otherwise one budget with the default period is added. */
    method SetBudget(user: nat, categoryId: nat, id: nat, amount: int) returns (outcome: Outcome)
      requires Valid()
      requires OwnsCategory(categories, categoryId, user)
      requires forall b :: b in budgets ==> b.id != id
      modifies this
      ensures Valid()
      ensures users == old(users) && categories == old(categories) && statements == old(statements)
      ensures FindBudget(old(budgets), user, categoryId).Some? ==>
                var i := FindBudget(old(budgets), user, categoryId).value;
                outcome == Updated && budgets == old(budgets)[i := old(budgets)[i].(amount := amount)]
      ensures FindBudget(old(budgets), user, categoryId).None? ==>
                outcome == Added && budgets == old(budgets) + [Budget(id, amount, DefaultPeriod, user, categoryId)]
      ensures |budgets| == |old(budgets)| + (if outcome == Added then 1 else 0)
      ensures exists b :: b in budgets && BudgetPairKey(b) == (user, categoryId) && b.amount == amount
      ensures budgets == UpsertBudget(old(budgets), user, categoryId, id, amount)
    {
      var found := FindBudget(budgets, user, categoryId);
      if found.Some? {
        var i := found.value;
        var b := budgets[i].(amount := amount);
        UpdateKeepsDistinct(budgets, i, b, BudgetId);
        UpdateKeepsDistinct(budgets, i, b, BudgetPairKey);
        assert forall x :: x in budgets[i := b] ==> x in budgets || x == b;
        budgets := budgets[i := b];
        assert budgets[i] == b;
        outcome := Updated;
      } else {
        var b := Budget(id, amount, DefaultPeriod, user, categoryId);
        assert HasUser(users, user) by {
          var c :| c in categories && c.id == categoryId && c.userId == user;
        }
        AppendKeepsDistinct(budgets, b, BudgetId);
        AppendKeepsDistinct(budgets, b, BudgetPairKey);
        budgets := budgets + [b];
        assert budgets[|budgets| - 1] == b;
        outcome := Added;
      }
    }

    /** Deleting a user: the `delete-orphan` cascades remove the user's statements,
        categories and budgets along with the account. */
    method DeleteUser(user: nat) returns (outcome: Outcome)
      requires Valid()
      modifies this
      ensures Valid()
      ensures FindUser(old(users), user).None? ==>
                && outcome == NotFound
                && users == old(users) && categories == old(categories)
                && budgets == old(budgets) && statements == old(statements)
      ensures FindUser(old(users), user).Some? ==>
                && outcome == Deleted
                && users == RemoveAt(old(users), FindUser(old(users), user).value)
                && statements == StatementsNotOf(old(statements), user)
                && categories == CategoriesNotOf(old(categories), user)
                && budgets == BudgetsNotOf(old(budgets), user)
      ensures outcome == Deleted ==>
                && !HasUser(users, user)
                && (forall s :: s in statements ==> s.userId != user)
                && (forall c :: c in categories ==> c.userId != user)
                && (forall b :: b in budgets ==> b.userId != user)
    {
      var found := FindUser(users, user);
      if found.None? {
        return NotFound;
      }
      var i := found.value;
      UserCascadeKeepsConsistent(users, categories, budgets, statements, i);
      UserCascadeRemovesAccount(users, i);
      users, categories, statements, budgets :=
        RemoveAt(users, i),
        CategoriesNotOf(categories, user),
        StatementsNotOf(statements, user),
        BudgetsNotOf(budgets, user);
      outcome := Deleted;
    }

    /** The `budgets_data` loop of `manage_budgets`: one row per budget of `user`, in
        table order, each computed at time `now`. */
    method BudgetDashboard(user: nat, now: DateTime) returns (rows: seq<BudgetRow>)
      requires BudgetCategoriesExist()
      ensures |rows| == |BudgetsOf(budgets, user)|
      ensures forall i :: 0 <= i < |rows| ==>
                rows[i] == Row(statements, categories, BudgetsOf(budgets, user)[i], user, now)
      ensures forall i :: 0 <= i < |rows| ==>
                && rows[i].spentAmount >= 0
                && rows[i].remaining == rows[i].budgetAmount - rows[i].spentAmount
    {
      var mine := BudgetsOf(budgets, user);
      rows := [];
      for i := 0 to |mine|
        invariant |rows| == i
        invariant forall j :: 0 <= j < i ==> rows[j] == Row(statements, categories, mine[j], user, now)
      {
        var budget := mine[i];
        assert budget in budgets;
        var spent := SqlSum(statements, SpendQuery(user, budget.categoryId, now)).GetOr(0);
        rows := rows + [BudgetRow(
          CategoryName(categories, budget.categoryId), budget.amount, Abs(spent), budget.amount - Abs(spent))];
      }
    }

    /** The `budget_vs_actual` loop of `chart_data`: three parallel lists with one entry
        per budget of `user`, the same figures as the dashboard. */
    method BudgetVsActual(user: nat, now: DateTime)
      returns (labels: seq<string>, amounts: seq<int>, actual: seq<int>)
      requires BudgetCategoriesExist()
      ensures |labels| == |amounts| == |actual| == |BudgetsOf(budgets, user)|
      ensures forall i :: 0 <= i < |labels| ==>
                var row := Row(statements, categories, BudgetsOf(budgets, user)[i], user, now);
                labels[i] == row.categoryName && amounts[i] == row.budgetAmount && actual[i] == row.spentAmount
      ensures forall i :: 0 <= i < |actual| ==> actual[i] >= 0
    {
      var mine := BudgetsOf(budgets, user);
      labels, amounts, actual := [], [], [];
      for i := 0 to |mine|
        invariant |labels| == |amounts| == |actual| == i
        invariant forall j :: 0 <= j < i ==>
                    var row := Row(statements, categories, mine[j], user, now);
                    labels[j] == row.categoryName && amounts[j] == row.budgetAmount && actual[j] == row.spentAmount
      {
        var budget := mine[i];
        assert budget in budgets;
        var spent := SqlSum(statements, SpendQuery(user, budget.categoryId, now)).GetOr(0);
        labels := labels + [CategoryName(categories, budget.categoryId)];
        amounts := amounts + [budget.amount];
        actual := actual + [Abs(spent)];
      }
    }
  }
}
