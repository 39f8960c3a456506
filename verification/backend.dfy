/** `DatabaseManager`: the store over the `expenses`, `budgets` and `income`
    tables. Each operation runs one parameterised statement (the insights run
    several) and reports failure with a sentinel instead of raising.

    A statement can fail for reasons the model cannot derive (a lost
    connection, a server error): such failures are nondeterministic. A
    statement that writes a value too large for its column always fails. A
    failed mutator rolls its transaction back. A failed read does not, so the
    session stays in a failed transaction and every later statement fails
    until a mutator's rollback clears it. */
module Backend {
  import opened Schema
  import opened ExpenseRows
  import opened BudgetRows
  import opened Aggregates

  /** What the schema guarantees of the stored tables: unique expense ids, all
      drawn from the id sequence below its next value; unique budget
      categories; every stored value within its column's limits. */
  ghost predicate TablesValid(expenses: seq<Expense>, nextId: int, budgets: seq<Budget>, income: seq<Income>) {
    && 1 <= nextId <= MaxSerial + 1
    && UniqueIds(expenses)
    && (forall i :: 0 <= i < |expenses| ==> 1 <= expenses[i].id < nextId && StoredExpense(expenses[i]))
    && UniqueCategories(budgets)
    && (forall i :: 0 <= i < |budgets| ==> FitsBudgetColumns(budgets[i]))
    && (forall i :: 0 <= i < |income| ==> FitsIncomeColumns(income[i]))
  }

  class DatabaseManager {
    /** The `expenses` table, in storage order. */
    var expenses: seq<Expense>
    /** The next value of the sequence behind `expenses.id`. */
    var nextId: int
    /** The `budgets` table. */
    var budgets: seq<Budget>
    /** The `income` table (no operation of the store writes it). */
    var income: seq<Income>
    /** The session's transaction has failed and awaits a rollback. */
    var aborted: bool

    ghost predicate Valid()
      reads this
    {
      TablesValid(expenses, nextId, budgets, income)
    }

    /** Connecting to a database whose tables already exist (`CREATE TABLE IF
        NOT EXISTS` keeps their rows). */
    constructor (expenses: seq<Expense>, nextId: int, budgets: seq<Budget>, income: seq<Income>)
      requires TablesValid(expenses, nextId, budgets, income)
      ensures Valid() && !aborted
      ensures this.expenses == expenses && this.nextId == nextId
      ensures this.budgets == budgets && this.income == income
    {
      this.expenses := expenses;
      this.nextId := nextId;
      this.budgets := budgets;
      this.income := income;
      aborted := false;
    }

    /** `add_expense`: INSERT one row whose id is the sequence's next value. */
    method AddExpense(date: Date, amount: int, category: string, paymentMethod: string) returns (ok: bool)
      requires Valid() && ValidDate(date)
      modifies this
      ensures Valid() && !aborted
      ensures budgets == old(budgets) && income == old(income)
      ensures ok ==> !old(aborted) && FitsExpenseColumns(amount, category, paymentMethod) && old(nextId) <= MaxSerial
      ensures ok ==> expenses == old(expenses) + [Expense(old(nextId), date, amount, category, paymentMethod)]
      ensures ok ==> nextId == old(nextId) + 1
      ensures ok ==> forall i :: 0 <= i < |old(expenses)| ==> old(expenses)[i].id < old(nextId)
      ensures !ok ==> expenses == old(expenses)
      ensures !ok ==> nextId == old(nextId) || (!old(aborted) && old(nextId) <= MaxSerial && nextId == old(nextId) + 1)
    {
      var rejected := aborted || !FitsExpenseColumns(amount, category, paymentMethod) || nextId > MaxSerial;
      var serverError: bool := *;
      if rejected || serverError {
        if !rejected {
          // the sequence is not transactional: a value drawn before the error stays drawn
          var drawn: bool := *;
          if drawn { nextId := nextId + 1; }
        }
        aborted := false;
        ok := false;
        return;
      }
      expenses := expenses + [Expense(nextId, date, amount, category, paymentMethod)];
      nextId := nextId + 1;
      ok := true;
    }

    /** `update_expense`: UPDATE the four fields of the row with `id`. There is
        no row-count check, so an absent id succeeds without effect. The
        parameters are cast to their columns' types when the statement is
        planned, so a value that does not fit fails whether or not a row
        carries `id`. */
    method UpdateExpense(id: int, date: Date, amount: int, category: string, paymentMethod: string) returns (ok: bool)
      requires Valid() && ValidDate(date)
      modifies this
      ensures Valid() && !aborted
      ensures budgets == old(budgets) && income == old(income) && nextId == old(nextId)
      ensures ok ==> !old(aborted) && FitsExpenseColumns(amount, category, paymentMethod)
      ensures expenses == if ok then Updated(old(expenses), id, date, amount, category, paymentMethod) else old(expenses)
    {
      var rejected := aborted || !FitsExpenseColumns(amount, category, paymentMethod);
      var serverError: bool := *;
      if rejected || serverError {
        aborted := false;
        ok := false;
        return;
      }
      UpdatedRows(expenses, id, date, amount, category, paymentMethod);
      UpdatedKeepsIds(expenses, id, date, amount, category, paymentMethod);
      expenses := Updated(expenses, id, date, amount, category, paymentMethod);
      ok := true;
    }

    /** `delete_expense`: DELETE the row with `id`; an absent id succeeds
        without effect. */
    method DeleteExpense(id: int) returns (ok: bool)
      requires Valid()
      modifies this
      ensures Valid() && !aborted
      ensures budgets == old(budgets) && income == old(income) && nextId == old(nextId)
      ensures ok ==> !old(aborted)
      ensures expenses == if ok then Deleted(old(expenses), id) else old(expenses)
    {
      var serverError: bool := *;
      if aborted || serverError {
        aborted := false;
        ok := false;
        return;
      }
      DeletedRows(expenses, id);
      DeletedCount(expenses, id);
      var kept := Deleted(expenses, id);
      forall i | 0 <= i < |kept| ensures 1 <= kept[i].id < nextId && StoredExpense(kept[i]) {
        assert kept[i] in kept;
      }
      expenses := kept;
      ok := true;
    }

    /** `add_budget`: insert the category's budget, or overwrite both amounts
        when the category already has one. */
    method AddBudget(category: string, monthly: int, annual: int) returns (ok: bool)
      requires Valid()
      modifies this
      ensures Valid() && !aborted
      ensures expenses == old(expenses) && income == old(income) && nextId == old(nextId)
      ensures ok ==> !old(aborted) && FitsBudgetColumns(Budget(category, monthly, annual))
      ensures budgets == if ok then Upserted(old(budgets), Budget(category, monthly, annual)) else old(budgets)
    {
      var b := Budget(category, monthly, annual);
      var serverError: bool := *;
      if aborted || !FitsBudgetColumns(b) || serverError {
        aborted := false;
        ok := false;
        return;
      }
      UpsertedRows(budgets, b);
      UpsertedMembers(budgets, b);
      var next := Upserted(budgets, b);
      forall i | 0 <= i < |next| ensures FitsBudgetColumns(next[i]) {
        assert next[i] in next;
      }
      budgets := next;
      ok := true;
    }

    /** `get_expenses`: every row, newest first; [] on failure. */
    method GetExpenses() returns (rows: seq<Expense>)
      requires Valid()
      modifies this`aborted
      ensures Valid()
      ensures old(aborted) ==> aborted
      ensures aborted ==> rows == []
      ensures !aborted ==> IsListing(rows, expenses)
    {
      var serverError: bool := *;
      if aborted || serverError {
        aborted := true;
        rows := [];
        return;
      }
      ListingIsListing(expenses);
      rows := Listing(expenses);
    }

    /** `get_budgets`: every budget row, in no particular order; [] on failure. */
    method GetBudgets() returns (rows: seq<Budget>)
      requires Valid()
      modifies this`aborted
      ensures Valid()
      ensures old(aborted) ==> aborted
      ensures aborted ==> rows == []
      ensures !aborted ==> multiset(rows) == multiset(budgets) && UniqueCategories(rows)
    {
      var serverError: bool := *;
      if aborted || serverError {
        aborted := true;
        rows := [];
        return;
      }
      rows := budgets;
    }

    /** `get_monthly_spending_by_category`: one entry per category spent on in
        that month, with its sum; empty on failure. */
    method GetMonthlySpendingByCategory(month: int, year: int) returns (spending: map<string, int>)
      requires Valid()
      modifies this`aborted
      ensures Valid()
      ensures old(aborted) ==> aborted
      ensures aborted ==> spending == map[]
      ensures !aborted ==> spending == MonthlySpending(expenses, month, year)
    {
      var serverError: bool := *;
      if aborted || serverError {
        aborted := true;
        spending := map[];
        return;
      }
      spending := MonthlySpending(expenses, month, year);
    }

    /** `get_total_income`: the sum of all income, 0 for none or on failure. */
    method GetTotalIncome() returns (total: int)
      requires Valid()
      modifies this`aborted
      ensures Valid()
      ensures old(aborted) ==> aborted
      ensures aborted ==> total == 0
      ensures !aborted ==> total == IncomeTotal(income)
    {
      var serverError: bool := *;
      if aborted || serverError {
        aborted := true;
        total := 0;
        return;
      }
      total := IncomeTotal(income);
    }

    /** `get_business_insights`: the aggregates, or None (the empty dictionary)
        when any of its statements fails. Between categories tied for the
        greatest total the contract leaves the choice open, as `ORDER BY …
        LIMIT 1` does. */
    method GetBusinessInsights() returns (insights: Option<Insights>)
      requires Valid()
      modifies this`aborted
      ensures Valid()
      ensures old(aborted) ==> aborted
      ensures aborted ==> insights == None
      ensures !aborted ==> insights.Some? && IsInsightsOf(insights.value, expenses, budgets, income)
    {
      var serverError: bool := *;
      if aborted || serverError {
        aborted := true;
        insights := None;
        return;
      }
      ComputedInsightsAreInsights(expenses, budgets, income);
      insights := Some(ComputeInsights(expenses, budgets, income));
    }
  }
}
