/**
 * `FinancesViewModel`: the home screen's balance of the current month and the
 * expense total of each category in that month, both read from the table.
 */
module Finances {
  import opened Wrappers
  import opened Entities
  import opened JavaTime
  import opened Store

  /** `startOfMonth`: the first day of `ym` at 00:00:00.000 local time. */
  function MonthStart(z: Zone, ym: YearMonth): Date {
    Date(StartOfDay(z, AtDay(ym, 1)))
  }

  /** `endOfMonth`: the last day of `ym` (its `getActualMaximum`) at 23:59:59.999 local time. */
  function MonthEnd(z: Zone, ym: YearMonth): Date {
    Date(StartOfDay(z, AtDay(ym, LengthOfMonth(ym))) + 23 * 3_600_000 + 59 * 60_000 + 59 * 1000 + 999)
  }

  /** Whether the instant `ms` falls, in local time, on day `day` of `ym`. */
  predicate OnDayOfMonth(z: Zone, ym: YearMonth, ms: int, day: int) {
    1 <= day <= LengthOfMonth(ym) && DayOf(z, ms) == AtDay(ym, day)
  }

  /** The inclusive range `startOfMonth..endOfMonth` holds exactly the instants of the month's days. */
  lemma MonthRange(z: Zone, ym: YearMonth, ms: int)
    ensures MonthStart(z, ym).time <= ms <= MonthEnd(z, ym).time <==>
      exists day :: OnDayOfMonth(z, ym, ms, day)
  {
    var n := LengthOfMonth(ym);
    AtDayConsecutive(ym, n);
    DaysWindow(z, AtDay(ym, 1), AtDay(ym, n), ms);
    var day := DayOf(z, ms) - AtDay(ym, 1) + 1;
    AtDayConsecutive(ym, day);
    if exists day :: OnDayOfMonth(z, ym, ms, day) {
      var k :| OnDayOfMonth(z, ym, ms, k);
      AtDayConsecutive(ym, k);
    }
    if MonthStart(z, ym).time <= ms <= MonthEnd(z, ym).time {
      assert OnDayOfMonth(z, ym, ms, day);
    }
  }

  /** A nullable `SUM` read with `?: 0.0` is the plain total of the selected rows. */
  lemma SumOrZero(s: seq<Transaction>, f: SumFilter, start: Date, end: Date)
    ensures RangeSum(s, f, start, end).GetOr(0.0) == Total(Matching(s, f, start, end))
  {
  }

  /** `calculateMonthlyBalance`: INCOME sum minus EXPENSE sum over `start..end`, a NULL sum read as 0. */
  function MonthlyBalance(rows: seq<Transaction>, start: Date, end: Date): real {
    RangeSum(rows, ByType(INCOME), start, end).GetOr(0.0) - RangeSum(rows, ByType(EXPENSE), start, end).GetOr(0.0)
  }

  /** The balance is the signed total of the rows in the range. */
  lemma {:induction false} MonthlyBalanceIsSignedTotal(rows: seq<Transaction>, start: Date, end: Date)
    ensures MonthlyBalance(rows, start, end) == SignedTotal(Filter(rows, InWindow(start.time, end.time)))
  {
    SumOrZero(rows, ByType(INCOME), start, end);
    SumOrZero(rows, ByType(EXPENSE), start, end);
    BalanceSplit(rows, start, end);
  }

  lemma {:induction false} BalanceSplit(rows: seq<Transaction>, start: Date, end: Date)
    ensures Total(Matching(rows, ByType(INCOME), start, end)) - Total(Matching(rows, ByType(EXPENSE), start, end))
      == SignedTotal(Filter(rows, InWindow(start.time, end.time)))
  {
    if rows != [] {
      BalanceSplit(rows[1..], start, end);
    }
  }

  /** `updateCategoryTotal(category)`: EXPENSE sum of the category over `start..end`, a NULL sum read as 0. */
  function CategoryTotal(rows: seq<Transaction>, category: TransactionCategory, start: Date, end: Date): real {
    RangeSum(rows, ByCategoryAndType(category, EXPENSE), start, end).GetOr(0.0)
  }

  /** Whether a row is an expense of `category` inside `start..end`. */
  function ExpenseIn(category: TransactionCategory, start: Date, end: Date): Transaction -> bool {
    (t: Transaction) => t.kind == EXPENSE && t.category == category && start.time <= t.date.time <= end.time
  }

  /** A category total counts the category's expenses in the range and nothing else: its incomes never count. */
  lemma {:induction false} CategoryTotalIsExpenses(rows: seq<Transaction>, category: TransactionCategory, start: Date, end: Date)
    ensures CategoryTotal(rows, category, start, end) == Total(Filter(rows, ExpenseIn(category, start, end)))
  {
    SumOrZero(rows, ByCategoryAndType(category, EXPENSE), start, end);
    CategoryMatching(rows, category, start, end);
  }

  lemma {:induction false} CategoryMatching(rows: seq<Transaction>, category: TransactionCategory, start: Date, end: Date)
    ensures Matching(rows, ByCategoryAndType(category, EXPENSE), start, end) == Filter(rows, ExpenseIn(category, start, end))
  {
    if rows != [] {
      CategoryMatching(rows[1..], category, start, end);
    }
  }

  /** The category totals of the categories in `cs`, added up. */
  function CategorySum(rows: seq<Transaction>, cs: seq<TransactionCategory>, start: Date, end: Date): real {
    if cs == [] then 0.0 else CategoryTotal(rows, cs[0], start, end) + CategorySum(rows, cs[1..], start, end)
  }

  /** One row adds its amount to the sum over `cs` once, when it is an expense in the range of a category listed in `cs`. */
  lemma {:induction false} CategorySumCons(x: Transaction, rows: seq<Transaction>, cs: seq<TransactionCategory>, start: Date, end: Date)
    requires forall i, j :: 0 <= i < j < |cs| ==> cs[i] != cs[j]
    ensures CategorySum([x] + rows, cs, start, end) ==
      (if x.kind == EXPENSE && x.category in cs && start.time <= x.date.time <= end.time then x.amount else 0.0)
      + CategorySum(rows, cs, start, end)
  {
    if cs != [] {
      assert ([x] + rows)[1..] == rows;
      SumOrZero([x] + rows, ByCategoryAndType(cs[0], EXPENSE), start, end);
      SumOrZero(rows, ByCategoryAndType(cs[0], EXPENSE), start, end);
      CategorySumCons(x, rows, cs[1..], start, end);
      assert x.category in cs <==> x.category == cs[0] || x.category in cs[1..];
      assert x.category == cs[0] ==> x.category !in cs[1..];
    }
  }

  /** The totals of all categories add up to the month's expense sum: every expense has exactly one category. */
  lemma {:induction false} CategoryTotalsAddUp(rows: seq<Transaction>, start: Date, end: Date)
    ensures CategorySum(rows, AllCategories(), start, end) == RangeSum(rows, ByType(EXPENSE), start, end).GetOr(0.0)
  {
    SumOrZero(rows, ByType(EXPENSE), start, end);
    if rows == [] {
      EmptyCategorySum(AllCategories(), start, end);
    } else {
      var x := rows[0];
      assert rows == [x] + rows[1..];
      CategorySumCons(x, rows[1..], AllCategories(), start, end);
      CategoryListed(x.category);
      CategoryTotalsAddUp(rows[1..], start, end);
      SumOrZero(rows[1..], ByType(EXPENSE), start, end);
    }
  }

  lemma {:induction false} EmptyCategorySum(cs: seq<TransactionCategory>, start: Date, end: Date)
    ensures CategorySum([], cs, start, end) == 0.0
  {
    if cs != [] {
      EmptyCategorySum(cs[1..], start, end);
    }
  }

  /**
   * The view model's state. `categoryTotals` holds the current value of each
   * category's flow. The two month computations are launched as coroutines
   * that read the table later; a call of `CalculateMonthlyBalance` or
   * `UpdateCategoryTotal` is the moment one of them completes, reading the
   * table and the clock at that moment.
   */
  class FinancesViewModel {
    const dao: TransactionDao
    const zone: Zone
    var transactions: seq<Transaction>
    var monthlyBalance: real
    var categoryTotals: map<TransactionCategory, real>

    ghost predicate Valid()
      reads this, dao
    {
      dao.Valid()
    }

    /** `init`: before any snapshot and any query result, the list is empty and every total is 0. */
    constructor (dao: TransactionDao, zone: Zone)
      requires dao.Valid()
      ensures Valid()
      ensures this.dao == dao && this.zone == zone
      ensures transactions == [] && monthlyBalance == 0.0
      ensures forall c :: c in categoryTotals && categoryTotals[c] == 0.0
    {
      this.dao := dao;
      this.zone := zone;
      transactions := [];
      monthlyBalance := 0.0;
      categoryTotals := map[];
      new;
      InitCategoryTotals();
    }

    /** `initCategoryTotals`: an entry holding 0 for every category, SALARY included. */
    method InitCategoryTotals()
      modifies this`categoryTotals
      ensures forall c :: c in categoryTotals && categoryTotals[c] == 0.0
    {
      var cs := AllCategories();
      for i := 0 to |cs|
        invariant forall j :: 0 <= j < i ==> cs[j] in categoryTotals && categoryTotals[cs[j]] == 0.0
      {
        categoryTotals := categoryTotals[cs[i] := 0.0];
      }
      forall c ensures c in categoryTotals && categoryTotals[c] == 0.0 {
        CategoryListed(c);
      }
    }

    /** `calculateMonthlyBalance`, in the month `clock` the device clock shows. */
    method CalculateMonthlyBalance(clock: YearMonth)
      modifies this`monthlyBalance
      ensures monthlyBalance == MonthlyBalance(dao.rows, MonthStart(zone, clock), MonthEnd(zone, clock))
    {
      var startOfMonth := MonthStart(zone, clock);
      var endOfMonth := MonthEnd(zone, clock);
      var income := dao.GetTotalAmountByTypeAndDateRange(INCOME, startOfMonth, endOfMonth).GetOr(0.0);
      var expenses := dao.GetTotalAmountByTypeAndDateRange(EXPENSE, startOfMonth, endOfMonth).GetOr(0.0);
      monthlyBalance := income - expenses;
    }

    /** `updateCategoryTotal`: writes the entry of `category` only, and only when it exists (`?.value`). */
    method UpdateCategoryTotal(category: TransactionCategory, clock: YearMonth)
      modifies this`categoryTotals
      ensures category in old(categoryTotals) ==>
        categoryTotals == old(categoryTotals)[category := CategoryTotal(dao.rows, category, MonthStart(zone, clock), MonthEnd(zone, clock))]
      ensures category !in old(categoryTotals) ==> categoryTotals == old(categoryTotals)
    {
      var startOfMonth := MonthStart(zone, clock);
      var endOfMonth := MonthEnd(zone, clock);
      var total := dao.GetTotalAmountByCategoryAndDateRange(category, EXPENSE, startOfMonth, endOfMonth).GetOr(0.0);
      if category in categoryTotals {
        categoryTotals := categoryTotals[category := total];
      }
    }

    /** `getCategoryTotal`: the entry's value, or a fresh 0 for a missing entry. */
    function GetCategoryTotal(category: TransactionCategory): (r: real)
      reads this
      ensures category in categoryTotals ==> r == categoryTotals[category]
      ensures category !in categoryTotals ==> r == 0.0
    {
      if category in categoryTotals then categoryTotals[category] else 0.0
    }

    /**
     * The `collect` handler of `loadTransactions`: the snapshot replaces the list,
     * then the balance and every existing category entry are recomputed.
     */
    method OnTransactions(snapshot: seq<Transaction>, clock: YearMonth)
      modifies this
      ensures transactions == snapshot
      ensures monthlyBalance == MonthlyBalance(dao.rows, MonthStart(zone, clock), MonthEnd(zone, clock))
      ensures categoryTotals.Keys == old(categoryTotals).Keys
      ensures forall c :: c in categoryTotals ==>
        categoryTotals[c] == CategoryTotal(dao.rows, c, MonthStart(zone, clock), MonthEnd(zone, clock))
    {
      transactions := snapshot;
      CalculateMonthlyBalance(clock);
      var cs := AllCategories();
      for i := 0 to |cs|
        invariant transactions == snapshot
        invariant monthlyBalance == MonthlyBalance(dao.rows, MonthStart(zone, clock), MonthEnd(zone, clock))
        invariant categoryTotals.Keys == old(categoryTotals).Keys
        invariant forall c :: c in categoryTotals && c in cs[..i] ==>
          categoryTotals[c] == CategoryTotal(dao.rows, c, MonthStart(zone, clock), MonthEnd(zone, clock))
      {
        UpdateCategoryTotal(cs[i], clock);
      }
      assert cs[..|cs|] == cs;
      forall c | c in categoryTotals
        ensures categoryTotals[c] == CategoryTotal(dao.rows, c, MonthStart(zone, clock), MonthEnd(zone, clock))
      {
        CategoryListed(c);
      }
    }

    /**
     * `addTransaction`: forwards to the table; the derived values wait for the next snapshot.
     * An explicit key already in the table is reported as `Conflict` (the `ABORT` of the insert).
     */
    method AddTransaction(transaction: Transaction) returns (result: InsertResult)
      requires Valid()
      modifies dao
      ensures Valid()
      ensures result.Conflict? <==> transaction.id != 0 && HasId(old(dao.rows), transaction.id)
      ensures transaction.id == 0 ==> dao.rows == old(dao.rows) + [transaction.(id := old(dao.nextId))]
      ensures transaction.id != 0 && !HasId(old(dao.rows), transaction.id) ==> dao.rows == old(dao.rows) + [transaction]
      ensures transaction.id != 0 && HasId(old(dao.rows), transaction.id) ==> dao.rows == old(dao.rows)
      ensures transactions == old(transactions) && monthlyBalance == old(monthlyBalance)
      ensures categoryTotals == old(categoryTotals)
    {
      result := dao.InsertTransaction(transaction);
    }

    /** `deleteTransaction`: forwards to the table. */
    method DeleteTransaction(transaction: Transaction)
      requires Valid()
      modifies dao
      ensures Valid()
      ensures dao.rows == WithoutId(old(dao.rows), transaction.id)
      ensures transactions == old(transactions) && monthlyBalance == old(monthlyBalance)
      ensures categoryTotals == old(categoryTotals)
    {
      dao.DeleteTransaction(transaction);
    }

    /** `deleteAllTransactions`: forwards to the table. */
    method DeleteAllTransactions()
      requires Valid()
      modifies dao
      ensures Valid()
      ensures dao.rows == []
      ensures transactions == old(transactions) && monthlyBalance == old(monthlyBalance)
      ensures categoryTotals == old(categoryTotals)
    {
      dao.DeleteAllTransactions();
    }
  }
}
