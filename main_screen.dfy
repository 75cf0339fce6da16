/**
 * The decision rules of the home screen: the category summary, the reset
 * confirmation dialog, the amount colours, the category emoji and the locale
 * that formats amounts for each currency.
 */
module Home {
  import opened Entities
  import opened Finances
  import opened Settings
  import opened Theme

  /** Whether `r` is `s` with some elements left out, the rest kept in order. */
  predicate KeepsOrder(r: seq<TransactionCategory>, s: seq<TransactionCategory>) {
    if r == [] then true
    else if s == [] then false
    else if r[0] == s[0] then KeepsOrder(r[1..], s[1..])
    else KeepsOrder(r, s[1..])
  }

  /** `cs` without SALARY, in the same order. */
  function WithoutSalary(cs: seq<TransactionCategory>): (r: seq<TransactionCategory>)
    ensures forall c :: c in r <==> c in cs && c != SALARY
    ensures forall c :: multiset(r)[c] == if c == SALARY then 0 else multiset(cs)[c]
    ensures |r| <= |cs|
    ensures KeepsOrder(r, cs)
  {
    if cs == [] then []
    else
      assert cs == [cs[0]] + cs[1..];
      if cs[0] == SALARY then
        var rest := WithoutSalary(cs[1..]);
        assert rest != [] ==> rest[0] in rest && rest[0] != cs[0];
        rest
      else [cs[0]] + WithoutSalary(cs[1..])
  }

  /** The categories of "Gastos por Categoría": every category but SALARY, in declaration order. */
  function SummaryCategories(): (cs: seq<TransactionCategory>)
    ensures forall c :: c in cs <==> c != SALARY
  {
    forall c ensures c in AllCategories() {
      CategoryListed(c);
    }
    WithoutSalary(AllCategories())
  }

  lemma SummaryInDeclarationOrder()
    ensures SummaryCategories() == [SUBSCRIPTION, DAILY_EXPENSE, LEISURE, MONTHLY_EXPENSE, OTHER]
  {
    var all := AllCategories();
    assert all == [SALARY, SUBSCRIPTION, DAILY_EXPENSE, LEISURE, MONTHLY_EXPENSE, OTHER];
    assert all[1..] == [SUBSCRIPTION, DAILY_EXPENSE, LEISURE, MONTHLY_EXPENSE, OTHER];
    assert all[1..][1..] == [DAILY_EXPENSE, LEISURE, MONTHLY_EXPENSE, OTHER];
    assert all[1..][1..][1..] == [LEISURE, MONTHLY_EXPENSE, OTHER];
    assert all[1..][1..][1..][1..] == [MONTHLY_EXPENSE, OTHER];
    assert all[1..][1..][1..][1..][1..] == [OTHER];
  }

  /** The emoji put before a row's description. */
  function Emoji(c: TransactionCategory): (e: string)
    ensures e == "" <==> c == SALARY || c == OTHER
  {
    match c
    case SUBSCRIPTION => "\U{1F3AC}"
    case DAILY_EXPENSE => "\U{1F4B2}"
    case LEISURE => "\U{1FA87}"
    case MONTHLY_EXPENSE => "\U{1F3E1}"
    case _ => ""
  }

  /** The four categories with an emoji each get a different one. */
  lemma EmojiDistinct(a: TransactionCategory, b: TransactionCategory)
    requires Emoji(a) != "" && a != b
    ensures Emoji(a) != Emoji(b)
  {
  }

  /** A `java.util.Locale`, by language and country. */
  datatype Locale = Locale(language: string, country: string)

  /** The locale of `NumberFormat.getCurrencyInstance` for the chosen currency. */
  function LocaleFor(c: CurrencyType): (l: Locale)
    ensures c == EURO <==> l == Locale("es", "ES")
    ensures c == DOLLAR <==> l == Locale("en", "US")
    ensures c == YEN <==> l == Locale("ja", "JP")
  {
    match c
    case EURO => Locale("es", "ES")
    case DOLLAR => Locale("en", "US")
    case YEN => Locale("ja", "JP")
  }

  /** The monthly balance's colour. */
  function BalanceTone(monthlyBalance: real): (t: Tone)
    ensures t == IncomeTone <==> monthlyBalance >= 0.0
  {
    ToneOf(monthlyBalance)
  }

  /** A row's amount colour, chosen by its type and not by the amount's sign. */
  function RowTone(t: Transaction): (tone: Tone)
    ensures tone == IncomeTone <==> t.kind == INCOME
  {
    if t.kind == INCOME then IncomeTone else ExpenseTone
  }

  /** For positive amounts the row colour is the colour of the row's signed amount. */
  lemma RowToneIsSignTone(t: Transaction)
    requires t.amount > 0.0
    ensures RowTone(t) == ToneOf(Signed(t))
  {
  }

  /** The balance is shown in the income colour iff the month's incomes cover its expenses. */
  lemma BalanceToneOfMonth(rows: seq<Transaction>, start: Date, end: Date)
    ensures BalanceTone(MonthlyBalance(rows, start, end)) == IncomeTone <==>
      SignedTotal(Filter(rows, InWindow(start.time, end.time))) >= 0.0
  {
    MonthlyBalanceIsSignedTotal(rows, start, end);
  }

  /** The screen's own state: whether the reset dialog is shown. */
  class MainScreenState {
    const vm: FinancesViewModel
    var showConfirmDialog: bool

    constructor (vm: FinancesViewModel)
      ensures this.vm == vm && !showConfirmDialog
    {
      this.vm := vm;
      showConfirmDialog := false;
    }

    /** The "Reiniciar Balance" drawer item: closes the drawer and shows the dialog. */
    method OpenResetDialog()
      modifies this
      ensures showConfirmDialog
    {
      showConfirmDialog := true;
    }

    /** "Confirmar": deletes every transaction and closes the dialog. */
    method Confirm()
      requires showConfirmDialog && vm.Valid()
      modifies this, vm.dao
      ensures vm.Valid()
      ensures !showConfirmDialog
      ensures vm.dao.rows == []
    {
      vm.DeleteAllTransactions();
      showConfirmDialog := false;
    }

    /** "Cancelar": closes the dialog; the table is not touched. */
    method Cancel()
      requires showConfirmDialog
      modifies this
      ensures !showConfirmDialog
      ensures vm.dao.rows == old(vm.dao.rows)
    {
      showConfirmDialog := false;
    }

    /** A tap outside the dialog: closes it; the table is not touched. */
    method Dismiss()
      requires showConfirmDialog
      modifies this
      ensures !showConfirmDialog
      ensures vm.dao.rows == old(vm.dao.rows)
    {
      showConfirmDialog := false;
    }
  }
}
