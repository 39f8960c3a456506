/** The three tables of the expense tracker: their row types, the limits of
    their columns, and the calendar dates they store.

    Money is held as an integer number of cents: every amount column is
    DECIMAL(10, 2), a fixed-point number with two fractional digits. */
module Schema {

  datatype Option<T> = None | Some(value: T)

  /** A DATE value: a calendar day without time of day. */
  datatype Date = Date(year: int, month: int, day: int)

  predicate IsLeapYear(year: int) {
    year % 4 == 0 && (year % 100 != 0 || year % 400 == 0)
  }

  function DaysInMonth(year: int, month: int): int
    requires 1 <= month <= 12
  {
    if month == 2 then (if IsLeapYear(year) then 29 else 28)
    else if month == 4 || month == 6 || month == 9 || month == 11 then 30
    else 31
  }

  /** The dates the application can hand to the store (the range of a
      Python `datetime.date`). */
  predicate ValidDate(d: Date) {
    && 1 <= d.year <= 9999
    && 1 <= d.month <= 12
    && 1 <= d.day <= DaysInMonth(d.year, d.month)
  }

  /** Chronological order on dates: `a` is on or before `b`. */
  predicate DateLe(a: Date, b: Date) {
    || a.year < b.year
    || (a.year == b.year && a.month < b.month)
    || (a.year == b.year && a.month == b.month && a.day <= b.day)
  }

  /** DECIMAL(10, 2) holds at most 99999999.99 in absolute value. */
  const MaxCents := 9_999_999_999

  /** A SERIAL column draws from an integer sequence ending at 2^31 - 1. */
  const MaxSerial := 2_147_483_647

  predicate FitsAmount(cents: int) {
    -MaxCents <= cents <= MaxCents
  }

  /** VARCHAR(n): at most n characters. */
  predicate FitsVarchar(s: string, n: nat) {
    |s| <= n
  }

  /** A row of `expenses`. */
  datatype Expense = Expense(id: int, date: Date, amount: int, category: string, paymentMethod: string)

  /** A row of `budgets` as the application sees it (the row's own SERIAL id is
      never read back). */
  datatype Budget = Budget(category: string, monthly: int, annual: int)

  /** A row of `income`. */
  datatype Income = Income(id: int, date: Date, amount: int, source: string)

  /** The column limits an expense row's written values must respect. */
  predicate FitsExpenseColumns(amount: int, category: string, paymentMethod: string) {
    FitsAmount(amount) && FitsVarchar(category, 50) && FitsVarchar(paymentMethod, 50)
  }

  predicate FitsBudgetColumns(b: Budget) {
    FitsVarchar(b.category, 50) && FitsAmount(b.monthly) && FitsAmount(b.annual)
  }

  predicate FitsIncomeColumns(r: Income) {
    ValidDate(r.date) && FitsAmount(r.amount) && FitsVarchar(r.source, 100)
  }

  predicate StoredExpense(e: Expense) {
    ValidDate(e.date) && FitsExpenseColumns(e.amount, e.category, e.paymentMethod)
  }
}
