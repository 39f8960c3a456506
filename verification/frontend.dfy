/** The two computations of the dashboard that are not display: the budget
    alerts of the "Manage Budgets" page and the savings figure of the
    dashboard. Amounts are exact cents; the 20% threshold is compared as
    `5 * remaining < monthly`. */
module Frontend {
  import opened Schema
  import opened Aggregates

  /** The three alert tiers, checked in this order. */
  datatype Status =
    | Exceeded(over: int)        // spent more than the monthly budget, by `over`
    | NearingLimit(left: int)    // under 20% of the monthly budget left
    | WithinBudget

  /** What the page shows for one budget. */
  datatype BudgetLine = BudgetLine(category: string, monthly: int, current: int, remaining: int, status: Status)

  /** The first spending row for the category, or 0 when it has none. */
  function CurrentSpending(spending: map<string, int>, category: string): int
  {
    if category in spending then spending[category] else 0
  }

  /** The tier of a budget with `remaining` left of `monthly`. */
  function Classify(monthly: int, remaining: int): (s: Status)
    ensures s.Exceeded? <==> remaining < 0
    ensures s.NearingLimit? <==> 0 <= remaining && 5 * remaining < monthly
    ensures s.WithinBudget? <==> 0 <= remaining && monthly <= 5 * remaining
    ensures s.Exceeded? ==> s.over == -remaining && s.over > 0
    ensures s.NearingLimit? ==> s.left == remaining && 0 <= s.left
  {
    if remaining < 0 then Exceeded(-remaining)
    else if 5 * remaining < monthly then NearingLimit(remaining)
    else WithinBudget
  }

  /** One budget against the month's spending. */
  function BudgetLineFor(b: Budget, spending: map<string, int>): (line: BudgetLine)
    ensures line.category == b.category && line.monthly == b.monthly
    ensures line.current + line.remaining == b.monthly
  {
    var current := CurrentSpending(spending, b.category);
    var remaining := b.monthly - current;
    BudgetLine(b.category, b.monthly, current, remaining, Classify(b.monthly, remaining))
  }

  /** The loop over all budgets: one line per budget, in the same order, each
      computed on its own. */
  function BudgetLines(budgets: seq<Budget>, spending: map<string, int>): (lines: seq<BudgetLine>)
    ensures |lines| == |budgets|
    ensures forall i :: 0 <= i < |budgets| ==> lines[i] == BudgetLineFor(budgets[i], spending)
  {
    seq(|budgets|, i requires 0 <= i < |budgets| => BudgetLineFor(budgets[i], spending))
  }

  /** Tier order: exceeded is worst, within budget best. */
  function Severity(s: Status): nat
  {
    match s
    case WithinBudget => 0
    case NearingLimit(_) => 1
    case Exceeded(_) => 2
  }

  /** Spending more never moves a budget to a better tier. */
  lemma MoreSpendingNeverImproves(monthly: int, current: int, more: int)
    requires current <= more
    ensures Severity(Classify(monthly, monthly - current)) <= Severity(Classify(monthly, monthly - more))
  {
  }

  /** A zero budget with nothing spent is within budget (neither strict
      comparison holds); any spending on it is an overrun. */
  lemma ZeroBudget(current: int)
    ensures current == 0 ==> Classify(0, 0 - current) == WithinBudget
    ensures current > 0 ==> Classify(0, 0 - current) == Exceeded(current)
  {
  }

  /** The worked examples: a budget of 100 with 85, 70 and 120 spent. */
  lemma BudgetExamples()
    ensures Classify(100, 100 - 85) == NearingLimit(15)
    ensures Classify(100, 100 - 70) == WithinBudget
    ensures Classify(100, 100 - 120) == Exceeded(20)
  {
  }

  /** End to end: against the month's grouped spending, a budget line's
      current spending is the sum of that month's expenses in its category
      (0 when there are none), and it reports an overrun exactly when that sum
      exceeds the monthly budget. */
  lemma {:induction false} AlertReflectsMonthTotal(budgets: seq<Budget>, expenses: seq<Expense>, today: Date, i: int)
    requires 0 <= i < |budgets|
    ensures var line := BudgetLines(budgets, MonthlySpending(expenses, today.month, today.year))[i];
      && line.current == CategoryTotal(expenses, budgets[i].category, InMonth(today.month, today.year))
      && (line.status.Exceeded? <==> line.current > budgets[i].monthly)
      && (line.status.Exceeded? ==> line.status.over == line.current - budgets[i].monthly)
  {
    GroupSumByCategory(expenses, InMonth(today.month, today.year));
  }

  /** The dashboard's savings: total income less total expenses. */
  function Savings(insights: Insights): int
  {
    insights.totalIncome - insights.totalExpenses
  }

  /** Savings read off the insights are the income table's sum less the
      expense table's sum. */
  lemma SavingsOfTables(expenses: seq<Expense>, budgets: seq<Budget>, income: seq<Income>)
    ensures Savings(ComputeInsights(expenses, budgets, income)) == IncomeTotal(income) - Total(expenses)
  {
  }

  /** Recording an expense lowers the savings by exactly its amount. */
  lemma {:induction false} NewExpenseLowersSavings(expenses: seq<Expense>, budgets: seq<Budget>, income: seq<Income>, e: Expense)
    ensures Savings(ComputeInsights(expenses + [e], budgets, income)) == Savings(ComputeInsights(expenses, budgets, income)) - e.amount
  {
    assert (expenses + [e])[..|expenses|] == expenses;
  }
}
