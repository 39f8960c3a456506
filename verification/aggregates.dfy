/** The read-side queries: SUM over a table, the per-category SUM … GROUP BY
    of one month, and the aggregate "business insights". */
module Aggregates {
  import opened Schema

  /** Which expenses a query's WHERE clause keeps: all of them, or those with
      EXTRACT(MONTH FROM date) = month AND EXTRACT(YEAR FROM date) = year. */
  datatype Window = AllTime | InMonth(month: int, year: int)

  predicate Matches(e: Expense, w: Window) {
    match w
    case AllTime => true
    case InMonth(month, year) => e.date.month == month && e.date.year == year
  }

  /** `SUM(amount)` over `rows`, with an empty table counting as 0. */
  function Total(rows: seq<Expense>): int
  {
    if rows == [] then 0 else Total(rows[..|rows| - 1]) + rows[|rows| - 1].amount
  }

  /** The reference meaning of one group: the sum of the amounts of the rows in
      the window that carry `category`. */
  function CategoryTotal(rows: seq<Expense>, category: string, w: Window): int
  {
    if rows == [] then 0
    else
      var last := rows[|rows| - 1];
      CategoryTotal(rows[..|rows| - 1], category, w) + (if Matches(last, w) && last.category == category then last.amount else 0)
  }

  /** Some row in the window carries `category`. */
  predicate Occurs(rows: seq<Expense>, category: string, w: Window) {
    exists i :: 0 <= i < |rows| && Matches(rows[i], w) && rows[i].category == category
  }

  /** `SELECT category, SUM(amount) … WHERE <window> GROUP BY category`, computed
      in one pass that accumulates a running sum per category. */
  function GroupSum(rows: seq<Expense>, w: Window): map<string, int>
  {
    if rows == [] then map[]
    else
      var acc := GroupSum(rows[..|rows| - 1], w);
      var last := rows[|rows| - 1];
      if !Matches(last, w) then acc
      else acc[last.category := (if last.category in acc then acc[last.category] else 0) + last.amount]
  }

  /** The grouping has one entry for each category that occurs in the window
      and for no other, and that entry is the category's total. A category
      without an entry totals 0. */
  lemma {:induction false} GroupSumByCategory(rows: seq<Expense>, w: Window)
    ensures forall c :: c in GroupSum(rows, w) <==> Occurs(rows, c, w)
    ensures forall c :: CategoryTotal(rows, c, w) == if c in GroupSum(rows, w) then GroupSum(rows, w)[c] else 0
  {
    if rows != [] {
      var init := rows[..|rows| - 1];
      var last := rows[|rows| - 1];
      GroupSumByCategory(init, w);
      forall c ensures Occurs(rows, c, w) <==> Occurs(init, c, w) || (Matches(last, w) && last.category == c) {
        if Occurs(rows, c, w) {
          var i :| 0 <= i < |rows| && Matches(rows[i], w) && rows[i].category == c;
          if i < |rows| - 1 { assert init[i] == rows[i]; }
        }
        if Occurs(init, c, w) {
          var i :| 0 <= i < |init| && Matches(init[i], w) && init[i].category == c;
          assert rows[i] == init[i];
        }
      }
    }
  }

  /** The rows of one month, grouped by category. */
  function MonthlySpending(rows: seq<Expense>, month: int, year: int): map<string, int>
  {
    GroupSum(rows, InMonth(month, year))
  }

  /** `MAX(amount)` of a non-empty table. */
  function MaxAmount(rows: seq<Expense>): (m: int)
    requires rows != []
    ensures forall i :: 0 <= i < |rows| ==> rows[i].amount <= m
    ensures exists i :: 0 <= i < |rows| && rows[i].amount == m
  {
    if |rows| == 1 then rows[0].amount
    else
      var rest := MaxAmount(rows[..|rows| - 1]);
      if rows[|rows| - 1].amount > rest then rows[|rows| - 1].amount else rest
  }

  /** `MIN(amount)` of a non-empty table. */
  function MinAmount(rows: seq<Expense>): (m: int)
    requires rows != []
    ensures forall i :: 0 <= i < |rows| ==> m <= rows[i].amount
    ensures exists i :: 0 <= i < |rows| && rows[i].amount == m
  {
    if |rows| == 1 then rows[0].amount
    else
      var rest := MinAmount(rows[..|rows| - 1]);
      if rows[|rows| - 1].amount < rest then rows[|rows| - 1].amount else rest
  }

  /** A sum of n amounts that all lie in [lo, hi] lies in [n * lo, n * hi]. */
  lemma {:induction false} TotalBounds(rows: seq<Expense>, lo: int, hi: int)
    requires forall i :: 0 <= i < |rows| ==> lo <= rows[i].amount <= hi
    ensures |rows| * lo <= Total(rows) <= |rows| * hi
  {
    if rows != [] {
      var init := rows[..|rows| - 1];
      assert forall i :: 0 <= i < |init| ==> init[i] == rows[i];
      TotalBounds(init, lo, hi);
      assert |rows| * lo == |init| * lo + lo;
      assert |rows| * hi == |init| * hi + hi;
    }
  }

  /** `AVG`: the exact mean of `n` values summing to `total`, 0 when there are none. */
  function Mean(total: int, n: nat): real
  {
    if n == 0 then 0.0 else total as real / n as real
  }

  /** n times the mean of n > 0 values gives their sum back. */
  lemma MeanTimesCount(total: int, n: nat)
    requires n > 0
    ensures n as real * Mean(total, n) == total as real
  {
  }

  /** The mean of n > 0 values whose sum lies in [n * lo, n * hi] lies in [lo, hi]. */
  lemma MeanBetween(total: int, n: nat, lo: int, hi: int)
    requires n > 0 && n * lo <= total <= n * hi
    ensures lo as real <= Mean(total, n) <= hi as real
  {
    MeanTimesCount(total, n);
    var mean := Mean(total, n);
    assert mean * n as real == total as real;
    assert (n * lo) as real == n as real * lo as real;
    assert (n * hi) as real == n as real * hi as real;
  }

  /** The category `ORDER BY SUM(amount) DESC LIMIT 1` returns: among the
      categories of `rows`, one with the greatest total in `totals`. Ties may
      go either way in the database; here the earliest row wins. */
  function TopCategory(rows: seq<Expense>, totals: map<string, int>): (top: string)
    requires rows != []
    requires forall i :: 0 <= i < |rows| ==> rows[i].category in totals
    ensures top in totals
    ensures exists i :: 0 <= i < |rows| && rows[i].category == top
    ensures forall i :: 0 <= i < |rows| ==> totals[rows[i].category] <= totals[top]
  {
    if |rows| == 1 then rows[0].category
    else
      var best := TopCategory(rows[1..], totals);
      assert forall i :: 1 <= i < |rows| ==> rows[i] == rows[1..][i - 1];
      if totals[rows[0].category] >= totals[best] then rows[0].category else best
  }

  /** `SELECT category FROM expenses GROUP BY category ORDER BY SUM(amount)
      DESC LIMIT 1`, or "N/A" when the query returns no row. */
  function MostSpentCategory(expenses: seq<Expense>): string
  {
    if expenses == [] then "N/A"
    else
      GroupSumByCategory(expenses, AllTime);
      assert forall i :: 0 <= i < |expenses| ==> Occurs(expenses, expenses[i].category, AllTime);
      TopCategory(expenses, GroupSum(expenses, AllTime))
  }

  /** `SUM(amount) FROM income`, 0 for an empty table. */
  function IncomeTotal(income: seq<Income>): int
  {
    if income == [] then 0 else IncomeTotal(income[..|income| - 1]) + income[|income| - 1].amount
  }

  /** `SUM(monthly_budget) FROM budgets`, 0 for an empty table. */
  function MonthlyBudgetTotal(budgets: seq<Budget>): int
  {
    if budgets == [] then 0 else MonthlyBudgetTotal(budgets[..|budgets| - 1]) + budgets[|budgets| - 1].monthly
  }

  /** The dictionary `get_business_insights` returns. Money in cents; the mean
      is exact. */
  datatype Insights = Insights(
    totalExpenses: int,
    avgExpense: real,
    maxExpense: int,
    minExpense: int,
    totalTransactions: nat,
    totalMonthlyBudget: int,
    totalIncome: int,
    mostSpentCategory: string)

  /** Each aggregate over an empty table is NULL in SQL, which the source
      replaces by 0 (and the top category by "N/A"). */
  function ComputeInsights(expenses: seq<Expense>, budgets: seq<Budget>, income: seq<Income>): Insights
  {
    var n := |expenses|;
    Insights(
      Total(expenses),
      Mean(Total(expenses), n),
      if n == 0 then 0 else MaxAmount(expenses),
      if n == 0 then 0 else MinAmount(expenses),
      n,
      MonthlyBudgetTotal(budgets),
      IncomeTotal(income),
      MostSpentCategory(expenses))
  }

  /** With no expenses every expense figure is zero and the top category is
      "N/A"; budget and income figures are the table sums whatever the
      expenses, and no income means a total income of 0. */
  lemma InsightsOfNoExpenses(budgets: seq<Budget>, income: seq<Income>)
    ensures var r := ComputeInsights([], budgets, income);
      && r.totalExpenses == 0 && r.avgExpense == 0.0 && r.maxExpense == 0 && r.minExpense == 0
      && r.totalTransactions == 0 && r.mostSpentCategory == "N/A"
      && r.totalMonthlyBudget == MonthlyBudgetTotal(budgets)
      && (income == [] ==> r.totalIncome == 0)
  {
  }

  /** With expenses: the minimum and maximum are amounts of actual rows and
      bound every row, and the count is the number of rows. */
  lemma InsightsExtremes(expenses: seq<Expense>, budgets: seq<Budget>, income: seq<Income>)
    requires expenses != []
    ensures var r := ComputeInsights(expenses, budgets, income);
      && r.totalTransactions == |expenses|
      && (forall i :: 0 <= i < |expenses| ==> r.minExpense <= expenses[i].amount <= r.maxExpense)
      && (exists i :: 0 <= i < |expenses| && expenses[i].amount == r.minExpense)
      && (exists i :: 0 <= i < |expenses| && expenses[i].amount == r.maxExpense)
  {
  }

  /** With expenses: the mean lies between the minimum and the maximum. */
  lemma InsightsMean(expenses: seq<Expense>, budgets: seq<Budget>, income: seq<Income>)
    requires expenses != []
    ensures var r := ComputeInsights(expenses, budgets, income);
      r.minExpense as real <= r.avgExpense <= r.maxExpense as real
  {
    var lo, hi := MinAmount(expenses), MaxAmount(expenses);
    TotalBounds(expenses, lo, hi);
    MeanBetween(Total(expenses), |expenses|, lo, hi);
  }

  /** With expenses: the count times the mean is the total. */
  lemma InsightsCountTimesMean(expenses: seq<Expense>, budgets: seq<Budget>, income: seq<Income>)
    requires expenses != []
    ensures var r := ComputeInsights(expenses, budgets, income);
      r.totalTransactions as real * r.avgExpense == r.totalExpenses as real
  {
    MeanOfRecord(ComputeInsights(expenses, budgets, income));
  }

  /** Count times mean for one insights record whose mean is that of its total. */
  lemma MeanOfRecord(r: Insights)
    requires r.totalTransactions > 0 && r.avgExpense == Mean(r.totalExpenses, r.totalTransactions)
    ensures r.totalTransactions as real * r.avgExpense == r.totalExpenses as real
  {
    MeanTimesCount(r.totalExpenses, r.totalTransactions);
  }

  /** The reported category occurs among the expenses, and no category has a
      greater total. */
  lemma MostSpentCategoryIsMaximal(expenses: seq<Expense>, budgets: seq<Budget>, income: seq<Income>)
    requires expenses != []
    ensures var top := ComputeInsights(expenses, budgets, income).mostSpentCategory;
      && Occurs(expenses, top, AllTime)
      && forall c :: Occurs(expenses, c, AllTime) ==> CategoryTotal(expenses, c, AllTime) <= CategoryTotal(expenses, top, AllTime)
  {
    var top := ComputeInsights(expenses, budgets, income).mostSpentCategory;
    GroupSumByCategory(expenses, AllTime);
    var totals := GroupSum(expenses, AllTime);
    forall c | Occurs(expenses, c, AllTime)
      ensures CategoryTotal(expenses, c, AllTime) <= CategoryTotal(expenses, top, AllTime)
    {
      var i :| 0 <= i < |expenses| && Matches(expenses[i], AllTime) && expenses[i].category == c;
    }
  }

  /** A category that occurs among the expenses with the greatest total: what
      `ORDER BY SUM(amount) DESC LIMIT 1` may return when the table is not
      empty. Ties may go to any of the tied categories. */
  ghost predicate IsTopCategory(expenses: seq<Expense>, top: string) {
    && Occurs(expenses, top, AllTime)
    && forall c :: Occurs(expenses, c, AllTime) ==> CategoryTotal(expenses, c, AllTime) <= CategoryTotal(expenses, top, AllTime)
  }

  /** What `get_business_insights` may return: every figure as computed, and
      as the top category any category with the greatest total, or "N/A"
      without expenses. */
  ghost predicate IsInsightsOf(r: Insights, expenses: seq<Expense>, budgets: seq<Budget>, income: seq<Income>) {
    var computed := ComputeInsights(expenses, budgets, income);
    && r.(mostSpentCategory := computed.mostSpentCategory) == computed
    && (if expenses == [] then r.mostSpentCategory == "N/A" else IsTopCategory(expenses, r.mostSpentCategory))
  }

  /** The computed record is one the query may return. */
  lemma ComputedInsightsAreInsights(expenses: seq<Expense>, budgets: seq<Budget>, income: seq<Income>)
    ensures IsInsightsOf(ComputeInsights(expenses, budgets, income), expenses, budgets, income)
  {
    if expenses != [] {
      MostSpentCategoryIsMaximal(expenses, budgets, income);
    }
  }

  /** Two records the query may return agree on every figure; their top
      categories may differ only when both have the same, greatest, total. */
  lemma InsightsUpToTie(r1: Insights, r2: Insights, expenses: seq<Expense>, budgets: seq<Budget>, income: seq<Income>)
    requires IsInsightsOf(r1, expenses, budgets, income) && IsInsightsOf(r2, expenses, budgets, income)
    ensures r1.(mostSpentCategory := r2.mostSpentCategory) == r2
    ensures CategoryTotal(expenses, r1.mostSpentCategory, AllTime) == CategoryTotal(expenses, r2.mostSpentCategory, AllTime)
  {
  }

  /** A tie really is open: with 0.50 on "A" and 0.50 on "B", either category
      may be reported. */
  lemma TieEitherWay(d: Date)
    ensures var rows := [Expense(1, d, 50, "A", "Cash"), Expense(2, d, 50, "B", "Cash")];
      && IsTopCategory(rows, "A") && IsTopCategory(rows, "B")
  {
    var rows := [Expense(1, d, 50, "A", "Cash"), Expense(2, d, 50, "B", "Cash")];
    var one := rows[..1];
    assert one == [rows[0]] && one[..0] == [];
    assert "A" != "B" by { assert "A"[0] != "B"[0]; }
    assert CategoryTotal(one, "A", AllTime) == 50 && CategoryTotal(one, "B", AllTime) == 0;
    assert CategoryTotal(rows, "A", AllTime) == 50;
    assert CategoryTotal(rows, "B", AllTime) == 50;
    assert Occurs(rows, "A", AllTime) && Occurs(rows, "B", AllTime);
    forall c | Occurs(rows, c, AllTime)
      ensures CategoryTotal(rows, c, AllTime) <= 50
    {
      var i :| 0 <= i < |rows| && Matches(rows[i], AllTime) && rows[i].category == c;
    }
  }

  /** The worked example: 1.00 and 0.50 on Food, 0.30 on Transport. */
  lemma ThreeExpenseExample(d: Date, budgets: seq<Budget>, income: seq<Income>)
    ensures var r := ComputeInsights(
        [Expense(1, d, 100, "Food", "Cash"), Expense(2, d, 50, "Food", "Cash"), Expense(3, d, 30, "Transport", "Cash")],
        budgets, income);
      && r.totalExpenses == 180 && r.maxExpense == 100 && r.minExpense == 30
      && r.totalTransactions == 3 && r.mostSpentCategory == "Food"
  {
    var e0, e1, e2 := Expense(1, d, 100, "Food", "Cash"), Expense(2, d, 50, "Food", "Cash"), Expense(3, d, 30, "Transport", "Cash");
    var rows := [e0, e1, e2];
    var two := rows[..2];
    assert two == [e0, e1] && two[..1] == [e0] && two[..1][..0] == [];
    assert "Food" != "Transport" by { assert "Food"[0] != "Transport"[0]; }
    assert Total(two[..1]) == 100;
    assert Total(two) == Total(two[..1]) + two[1].amount == 150;
    assert Total(rows) == Total(two) + rows[2].amount == 180;
    assert MaxAmount(rows) == 100 && MinAmount(rows) == 30;
    assert CategoryTotal(two[..1], "Food", AllTime) == 100;
    assert CategoryTotal(two, "Food", AllTime) == 150;
    assert CategoryTotal(rows, "Food", AllTime) == 150;
    assert CategoryTotal(two[..1], "Transport", AllTime) == 0;
    assert CategoryTotal(two, "Transport", AllTime) == 0;
    assert CategoryTotal(rows, "Transport", AllTime) == 30;
    MostSpentCategoryIsMaximal(rows, budgets, income);
    var top := ComputeInsights(rows, budgets, income).mostSpentCategory;
    assert Occurs(rows, "Food", AllTime);
    var i :| 0 <= i < 3 && Matches(rows[i], AllTime) && rows[i].category == top;
  }
}
