/**
 * The add-transaction form: its amount filter, the rule that enables "Guardar",
 * the parse of the amount, and the `Transaction` a save hands to the view model.
 */
module AddTransaction {
  import opened Wrappers
  import opened Entities
  import opened Store
  import opened Finances

  /**
   * `Char.isWhitespace()` on the JVM: the controls 9..13 and 28..31, and the
   * space, line and paragraph separators (no-break spaces included).
   */
  predicate IsWhitespace(c: char) {
    || 9 <= c as int <= 13 || 28 <= c as int <= 32
    || c as int == 0xA0 || c as int == 0x1680 || 0x2000 <= c as int <= 0x200A
    || c as int == 0x2028 || c as int == 0x2029 || c as int == 0x202F
    || c as int == 0x205F || c as int == 0x3000
  }

  /** `isBlank()`: empty, or whitespace only. */
  predicate IsBlank(s: string) {
    forall i :: 0 <= i < |s| ==> IsWhitespace(s[i])
  }

  /**
   * What the model needs of `Char.isDigit()` (its Unicode table is taken as
   * given): on ASCII it holds exactly for '0'..'9', and no whitespace is a digit.
   */
  predicate DigitClassifier(isDigit: char -> bool) {
    && (forall c: char :: c as int < 128 ==> (isDigit(c) <==> '0' <= c <= '9'))
    && (forall c: char :: isDigit(c) ==> !IsWhitespace(c))
  }

  /** Whether the amount field keeps `c`. */
  predicate Kept(isDigit: char -> bool, c: char) {
    isDigit(c) || c == '.'
  }

  /** `r` is `s` with some characters left out, the rest in their order. */
  predicate IsCharSubsequence(r: string, s: string) {
    if r == [] then true
    else if s == [] then false
    else if r[0] == s[0] then IsCharSubsequence(r[1..], s[1..])
    else IsCharSubsequence(r, s[1..])
  }

  /** The amount field's `onValueChange` filter: digits and '.', in order, as many dots as typed. */
  function FilterAmount(isDigit: char -> bool, s: string): (r: string)
    ensures forall i :: 0 <= i < |r| ==> Kept(isDigit, r[i])
    ensures forall c :: multiset(r)[c] == if Kept(isDigit, c) then multiset(s)[c] else 0
    ensures IsCharSubsequence(r, s)
  {
    if s == [] then []
    else
      var rest := FilterAmount(isDigit, s[1..]);
      assert s == [s[0]] + s[1..];
      assert multiset(s) == multiset{s[0]} + multiset(s[1..]);
      if Kept(isDigit, s[0]) then
        var r := [s[0]] + rest;
        assert r[1..] == rest;
        r
      else
        assert rest != [] ==> rest[0] != s[0];
        rest
  }

  /** Filtering an already filtered amount changes nothing. */
  lemma {:induction false} FilterAmountIdempotent(isDigit: char -> bool, s: string)
    ensures FilterAmount(isDigit, FilterAmount(isDigit, s)) == FilterAmount(isDigit, s)
  {
    if s != [] {
      FilterAmountIdempotent(isDigit, s[1..]);
      var rest := FilterAmount(isDigit, s[1..]);
      if Kept(isDigit, s[0]) {
        assert ([s[0]] + rest)[1..] == rest;
      }
    }
  }

  /** The filter works character by character: typing after a filtered text filters only what was typed. */
  lemma {:induction false} FilterAmountAppend(isDigit: char -> bool, s: string, t: string)
    ensures FilterAmount(isDigit, s + t) == FilterAmount(isDigit, s) + FilterAmount(isDigit, t)
  {
    if s == [] {
      assert s + t == t;
    } else {
      assert (s + t)[1..] == s[1..] + t;
      FilterAmountAppend(isDigit, s[1..], t);
    }
  }

  /** The filter keeps every dot: it does not limit their number. */
  lemma DotsAreKept(isDigit: char -> bool, s: string)
    ensures DotCount(FilterAmount(isDigit, s)) == DotCount(s)
  {
    DotCountIsMultiplicity(s);
    DotCountIsMultiplicity(FilterAmount(isDigit, s));
  }

  lemma {:induction false} DotCountIsMultiplicity(s: string)
    ensures DotCount(s) == multiset(s)['.']
  {
    if s != [] {
      DotCountIsMultiplicity(s[1..]);
      assert s == [s[0]] + s[1..];
      assert multiset(s) == multiset{s[0]} + multiset(s[1..]);
    }
  }

  /** The ASCII characters of `s` are digits and dots only: the strings the filter can produce. */
  predicate Screened(s: string) {
    forall i :: 0 <= i < |s| ==> s[i] as int >= 128 || s[i] == '.' || '0' <= s[i] <= '9'
  }

  /** A filtered amount is screened, holds no '-' and is blank only when empty. */
  lemma FilteredAmount(isDigit: char -> bool, s: string)
    requires DigitClassifier(isDigit)
    ensures Screened(FilterAmount(isDigit, s))
    ensures '-' !in FilterAmount(isDigit, s)
    ensures IsBlank(FilterAmount(isDigit, s)) <==> FilterAmount(isDigit, s) == ""
  {
    var r := FilterAmount(isDigit, s);
    assert !isDigit('-');
    if r != "" {
      assert isDigit(r[0]) || r[0] == '.';
    }
  }

  predicate IsAsciiDigit(c: char) {
    '0' <= c <= '9'
  }

  function DotCount(s: string): nat {
    if s == [] then 0 else (if s[0] == '.' then 1 else 0) + DotCount(s[1..])
  }

  /**
   * The strings `toDoubleOrNull` accepts among screened ones: ASCII digits and at
   * most one dot, with at least one digit ("1.", ".5" and "7" parse; "." does not).
   */
  predicate DecimalLiteral(s: string) {
    && (forall i :: 0 <= i < |s| ==> s[i] == '.' || IsAsciiDigit(s[i]))
    && DotCount(s) <= 1
    && (exists i :: 0 <= i < |s| && IsAsciiDigit(s[i]))
  }

  /** The value of a string of ASCII digits (0 for the empty one). */
  function DigitsValue(s: string): nat
    requires forall i :: 0 <= i < |s| ==> IsAsciiDigit(s[i])
  {
    if s == [] then 0
    else
      var init := s[..|s| - 1];
      assert forall i :: 0 <= i < |init| ==> init[i] == s[i];
      assert IsAsciiDigit(s[|s| - 1]);
      DigitsValue(init) * 10 + (s[|s| - 1] as int - '0' as int)
  }

  function Pow10(n: nat): (p: nat)
    ensures p >= 1
  {
    if n == 0 then 1 else 10 * Pow10(n - 1)
  }

  /** The position of the first dot, or `|s|` when there is none. */
  function DotIndex(s: string): (k: nat)
    ensures k <= |s|
    ensures k < |s| ==> s[k] == '.'
    ensures forall i :: 0 <= i < k ==> s[i] != '.'
  {
    if s == [] then 0 else if s[0] == '.' then 0 else 1 + DotIndex(s[1..])
  }

  /** With at most one dot, none follows the first. */
  lemma {:induction false} AfterFirstDot(s: string)
    requires DotCount(s) <= 1
    ensures forall i :: DotIndex(s) < i < |s| ==> s[i] != '.'
  {
    if s != [] {
      if s[0] == '.' {
        NoDotCount(s[1..]);
      } else {
        AfterFirstDot(s[1..]);
      }
    }
  }

  lemma {:induction false} NoDotCount(s: string)
    requires DotCount(s) == 0
    ensures forall i :: 0 <= i < |s| ==> s[i] != '.'
  {
    if s != [] {
      NoDotCount(s[1..]);
    }
  }

  /**
   * `amount.toDoubleOrNull()` on a screened string, in exact decimal arithmetic:
   * the integer digits plus the fraction digits over the matching power of ten.
   */
  function ParseAmount(s: string): (r: Option<real>)
    requires Screened(s)
    ensures r.Some? <==> DecimalLiteral(s)
    ensures r.Some? ==> r.value >= 0.0
  {
    if !DecimalLiteral(s) then None
    else
      var k := DotIndex(s);
      var whole := s[..k];
      var fraction := if k < |s| then s[k + 1..] else "";
      AfterFirstDot(s);
      Some(DigitsValue(whole) as real + DigitsValue(fraction) as real / Pow10(|fraction|) as real)
  }

  /** The decimal digits of `n`. */
  function NatString(n: nat): (s: string)
    ensures |s| >= 1
    ensures forall i :: 0 <= i < |s| ==> IsAsciiDigit(s[i])
  {
    var d := [(n % 10 + '0' as int) as char];
    if n < 10 then d else NatString(n / 10) + d
  }

  lemma {:induction false} NatStringValue(n: nat)
    ensures DigitsValue(NatString(n)) == n
  {
    var s := NatString(n);
    if n >= 10 {
      NatStringValue(n / 10);
      assert s[..|s| - 1] == NatString(n / 10);
    }
  }

  /** A whole number typed as digits is read back as that number. */
  lemma ParseWholeNumber(n: nat)
    ensures Screened(NatString(n))
    ensures ParseAmount(NatString(n)) == Some(n as real)
  {
    var s := NatString(n);
    NoDots(s);
    assert IsAsciiDigit(s[0]);
    NatStringValue(n);
    assert s[..|s|] == s;
  }

  lemma {:induction false} NoDots(s: string)
    requires forall i :: 0 <= i < |s| ==> IsAsciiDigit(s[i])
    ensures DotCount(s) == 0 && DotIndex(s) == |s|
  {
    if s != [] {
      NoDots(s[1..]);
    }
  }

  /** A string of ASCII digits. */
  predicate AllDigits(s: string) {
    forall i :: 0 <= i < |s| ==> IsAsciiDigit(s[i])
  }

  /**
   * Digits, a dot and digits, with at least one digit, parse to the whole part plus
   * the fraction digits over ten to the power of their count.
   */
  lemma {:induction false} ParseDecimal(w: string, f: string)
    requires AllDigits(w) && AllDigits(f) && |w| + |f| >= 1
    ensures Screened(w + "." + f)
    ensures ParseAmount(w + "." + f) == Some(DigitsValue(w) as real + DigitsValue(f) as real / Pow10(|f|) as real)
  {
    var s := w + "." + f;
    DecimalShape(w, f);
    assert DotIndex(s) == |w| by {
      DotAt(w, f);
    }
    assert s[..|w|] == w && s[|w| + 1..] == f;
    ParseAt(s, |w|);
  }

  lemma {:induction false} DotAt(w: string, f: string)
    requires AllDigits(w)
    ensures DotIndex(w + "." + f) == |w|
  {
    DotIndexAfterDigits(w, "." + f);
    assert w + "." + f == w + ("." + f);
    assert DotIndex("." + f) == 0;
  }

  /** The value of a decimal literal whose first dot is at `k`. */
  lemma {:induction false} ParseAt(s: string, k: nat)
    requires Screened(s) && DecimalLiteral(s) && DotIndex(s) == k < |s|
    ensures AllDigits(s[..k]) && AllDigits(s[k + 1..])
    ensures ParseAmount(s) == Some(DigitsValue(s[..k]) as real + DigitsValue(s[k + 1..]) as real / Pow10(|s| - k - 1) as real)
  {
    AfterFirstDot(s);
  }

  /** Digits, a dot and digits, with at least one digit, form a decimal literal. */
  lemma {:induction false} DecimalShape(w: string, f: string)
    requires AllDigits(w) && AllDigits(f) && |w| + |f| >= 1
    ensures Screened(w + "." + f) && DecimalLiteral(w + "." + f)
  {
    var s := w + "." + f;
    forall i | 0 <= i < |s| ensures s[i] == '.' || IsAsciiDigit(s[i]) {
      if i < |w| {
        assert s[i] == w[i];
      } else if i > |w| {
        assert s[i] == f[i - |w| - 1];
      }
    }
    NoDots(w);
    NoDots(f);
    DotCountAppend(w, "." + f);
    assert s == w + ("." + f);
    assert ("." + f)[1..] == f;
    assert DotCount("." + f) == 1 + DotCount(f);
    if |w| > 0 {
      assert s[0] == w[0];
      assert IsAsciiDigit(s[0]);
    } else {
      assert s[1] == f[0];
      assert IsAsciiDigit(s[1]);
    }
  }

  lemma {:induction false} DotCountAppend(a: string, b: string)
    ensures DotCount(a + b) == DotCount(a) + DotCount(b)
  {
    if a != [] {
      assert (a + b)[1..] == a[1..] + b;
      DotCountAppend(a[1..], b);
    } else {
      assert a + b == b;
    }
  }

  lemma {:induction false} DotIndexAfterDigits(w: string, t: string)
    requires AllDigits(w)
    ensures DotIndex(w + t) == |w| + DotIndex(t)
  {
    if w != [] {
      assert (w + t)[0] == w[0];
      assert (w + t)[1..] == w[1..] + t;
      DotIndexAfterDigits(w[1..], t);
    } else {
      assert w + t == t;
    }
  }

  /** "12.5" is read as 12.5: the decimal digits of `a` and `b` either side of a dot. */
  lemma {:induction false} ParseNumbers(a: nat, b: nat)
    ensures Screened(NatString(a) + "." + NatString(b))
    ensures ParseAmount(NatString(a) + "." + NatString(b)) == Some(a as real + b as real / Pow10(|NatString(b)|) as real)
  {
    NatStringValue(a);
    NatStringValue(b);
    ParseDecimal(NatString(a), NatString(b));
  }

  /** A trailing zero after the dot does not change the value: "1.50" reads as "1.5". */
  lemma {:induction false} TrailingZero(w: string, f: string)
    requires AllDigits(w) && AllDigits(f) && |w| + |f| >= 1
    ensures Screened(w + "." + f + "0") && Screened(w + "." + f)
    ensures ParseAmount(w + "." + f + "0") == ParseAmount(w + "." + f)
  {
    var f0 := f + "0";
    assert AllDigits(f0) by {
      assert forall i :: 0 <= i < |f| ==> f0[i] == f[i];
    }
    assert w + "." + f + "0" == w + "." + f0;
    ParseDecimal(w, f0);
    ParseDecimal(w, f);
    assert DigitsValue(f0) == DigitsValue(f) * 10 by {
      assert f0[..|f0| - 1] == f;
    }
    assert Pow10(|f0|) == 10 * Pow10(|f|);
    ScaleFraction(DigitsValue(f), Pow10(|f|));
  }

  lemma ScaleFraction(x: nat, p: nat)
    requires p >= 1
    ensures (x * 10) as real / (10 * p) as real == x as real / p as real
  {
    assert (x * 10) as real == x as real * 10.0;
    assert (10 * p) as real == 10.0 * p as real;
  }

  /** The "Guardar" button's `enabled`: both amount and description non-blank. */
  predicate SaveEnabled(amount: string, description: string) {
    !IsBlank(amount) && !IsBlank(description)
  }

  /**
   * The transaction a save builds: the default id 0 (so the table picks one),
   * the parsed amount or 0 when it does not parse, and `Date()` read as `now`.
   */
  function BuildTransaction(amount: string, description: string, kind: TransactionType, category: TransactionCategory, now: Date): (t: Transaction)
    requires Screened(amount)
    ensures t.id == 0 && t.description == description && t.date == now
    ensures t.kind == kind && t.category == category
    ensures DecimalLiteral(amount) ==> Some(t.amount) == ParseAmount(amount)
    ensures !DecimalLiteral(amount) ==> t.amount == 0.0
    ensures t.amount >= 0.0
  {
    Transaction(0, ParseAmount(amount).GetOr(0.0), description, now, kind, category)
  }

  /** A lone dot enables the button and saves an amount of 0. */
  lemma LoneDotSavesZero(description: string, kind: TransactionType, category: TransactionCategory, now: Date)
    requires !IsBlank(description)
    ensures SaveEnabled(".", description)
    ensures BuildTransaction(".", description, kind, category, now).amount == 0.0
  {
    assert !IsWhitespace("."[0]);
    assert DotCount(".") == 1;
    assert !DecimalLiteral(".");
  }

  /** The form's state, over the finances view model it saves through. */
  class AddTransactionForm {
    const vm: FinancesViewModel
    const isDigit: char -> bool
    var amount: string
    var description: string
    var selectedType: TransactionType
    var selectedCategory: TransactionCategory
    var typeMenuExpanded: bool
    var categoryMenuExpanded: bool

    /** The amount always holds what the filter can produce. */
    ghost predicate Valid()
      reads this
    {
      DigitClassifier(isDigit) && (forall i :: 0 <= i < |amount| ==> Kept(isDigit, amount[i]))
    }

    /** Empty fields, EXPENSE, DAILY_EXPENSE, menus closed. */
    constructor (vm: FinancesViewModel, isDigit: char -> bool)
      requires DigitClassifier(isDigit)
      ensures Valid()
      ensures this.vm == vm && this.isDigit == isDigit
      ensures amount == "" && description == ""
      ensures selectedType == EXPENSE && selectedCategory == DAILY_EXPENSE
      ensures !typeMenuExpanded && !categoryMenuExpanded
    {
      this.vm := vm;
      this.isDigit := isDigit;
      amount := "";
      description := "";
      selectedType := EXPENSE;
      selectedCategory := DAILY_EXPENSE;
      typeMenuExpanded := false;
      categoryMenuExpanded := false;
    }

    /** The amount field's `onValueChange`. */
    method ChangeAmount(newValue: string)
      requires Valid()
      modifies this`amount
      ensures Valid()
      ensures amount == FilterAmount(isDigit, newValue)
    {
      amount := FilterAmount(isDigit, newValue);
    }

    /** The description field's `onValueChange`: taken verbatim. */
    method ChangeDescription(newValue: string)
      modifies this`description
      ensures description == newValue
    {
      description := newValue;
    }

    /** The "Ingreso" button. */
    method ChooseIncome()
      modifies this`selectedType
      ensures selectedType == INCOME
    {
      selectedType := INCOME;
    }

    /** The "Gasto" button. */
    method ChooseExpense()
      modifies this`selectedType
      ensures selectedType == EXPENSE
    {
      selectedType := EXPENSE;
    }

    /** `onExpandedChange` of the category box: flips the menu. */
    method ToggleCategoryMenu()
      modifies this`categoryMenuExpanded
      ensures categoryMenuExpanded == !old(categoryMenuExpanded)
    {
      categoryMenuExpanded := !categoryMenuExpanded;
    }

    /** `onDismissRequest` of the category menu. */
    method DismissCategoryMenu()
      modifies this`categoryMenuExpanded
      ensures !categoryMenuExpanded
    {
      categoryMenuExpanded := false;
    }

    /** A menu item: sets the category and closes the menu. */
    method PickCategory(category: TransactionCategory)
      modifies this`selectedCategory, this`categoryMenuExpanded
      ensures selectedCategory == category && !categoryMenuExpanded
    {
      selectedCategory := category;
      categoryMenuExpanded := false;
    }

    /** "Guardar", when enabled: builds the transaction and adds it; the table appends it under the next key. */
    method Save(now: Date) returns (t: Transaction)
      requires Valid() && vm.Valid()
      requires SaveEnabled(amount, description)
      modifies vm.dao
      ensures vm.Valid()
      ensures t == BuildTransaction(amount, description, selectedType, selectedCategory, now)
      ensures vm.dao.rows == old(vm.dao.rows) + [t.(id := old(vm.dao.nextId))]
      ensures t.amount >= 0.0
    {
      assert Screened(amount) by {
        forall i | 0 <= i < |amount| ensures amount[i] as int >= 128 || amount[i] == '.' || '0' <= amount[i] <= '9' {
          assert Kept(isDigit, amount[i]);
        }
      }
      t := BuildTransaction(amount, description, selectedType, selectedCategory, now);
      var _ := vm.AddTransaction(t);
    }
  }
}
