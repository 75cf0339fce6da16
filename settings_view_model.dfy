/**
 * `SettingsViewModel`: the currency and dark-mode settings kept in the
 * `settings_prefs` file, and the `CurrencyType` enum of the settings screen.
 */
module Settings {
  import opened Wrappers
  import opened Preferences

  datatype CurrencyType = EURO | DOLLAR | YEN

  /** The enum's declared properties. */
  function DisplayName(c: CurrencyType): string {
    match c
    case EURO => "Euro"
    case DOLLAR => "Dólar"
    case YEN => "Yen"
  }

  function Symbol(c: CurrencyType): string {
    match c
    case EURO => "€"
    case DOLLAR => "$"
    case YEN => "¥"
  }

  /** `CurrencyType.name`. */
  function CurrencyName(c: CurrencyType): string {
    match c
    case EURO => "EURO"
    case DOLLAR => "DOLLAR"
    case YEN => "YEN"
  }

  /** `CurrencyType.valueOf`: the case with that name; any other string throws. */
  function CurrencyValueOf(s: string): (r: Option<CurrencyType>)
    ensures r.Some? ==> CurrencyName(r.value) == s
    ensures forall c :: CurrencyName(c) == s ==> r == Some(c)
  {
    if s == "EURO" then Some(EURO)
    else if s == "DOLLAR" then Some(DOLLAR)
    else if s == "YEN" then Some(YEN)
    else None
  }

  const CurrencyKey := "currencyType"
  const DarkModeKey := "isDarkMode"

  /** The two keys hold values of the kind the view model reads. */
  predicate SettingsTyped(entries: map<string, PrefValue>) {
    HoldsText(entries, CurrencyKey) && HoldsFlag(entries, DarkModeKey)
  }

  /** `currencyType`'s initialiser: the stored name's case; EURO when absent or not a name. */
  function ReadCurrency(entries: map<string, PrefValue>): (c: CurrencyType)
    requires SettingsTyped(entries)
    ensures forall d :: CurrencyKey in entries && entries[CurrencyKey] == Text(CurrencyName(d)) ==> c == d
    ensures CurrencyKey !in entries ==> c == EURO
    ensures CurrencyKey in entries && CurrencyValueOf(entries[CurrencyKey].text).None? ==> c == EURO
  {
    match GetString(entries, CurrencyKey, None)
    case None => EURO
    case Some(s) =>
      match CurrencyValueOf(s)
      case Some(c) => c
      case None => EURO
  }

  /** `_isDarkMode`'s initial value: the stored flag, false when absent. */
  function ReadDarkMode(entries: map<string, PrefValue>): (b: bool)
    requires SettingsTyped(entries)
    ensures DarkModeKey in entries ==> b == entries[DarkModeKey].flag
    ensures DarkModeKey !in entries ==> !b
  {
    GetBoolean(entries, DarkModeKey, false)
  }

  /** The encoding `saveCurrencyType` writes decodes to the same currency in any store. */
  lemma CurrencyRoundTrip(entries: map<string, PrefValue>, c: CurrencyType)
    requires SettingsTyped(entries)
    ensures SettingsTyped(entries[CurrencyKey := Text(CurrencyName(c))])
    ensures ReadCurrency(entries[CurrencyKey := Text(CurrencyName(c))]) == c
  {
  }

  /** A written flag reads back, and writing the currency leaves the flag alone. */
  lemma DarkModeRoundTrip(entries: map<string, PrefValue>, b: bool, c: CurrencyType)
    requires SettingsTyped(entries)
    ensures SettingsTyped(entries[DarkModeKey := Flag(b)])
    ensures ReadDarkMode(entries[DarkModeKey := Flag(b)]) == b
    ensures ReadCurrency(entries[DarkModeKey := Flag(b)]) == ReadCurrency(entries)
    ensures ReadDarkMode(entries[CurrencyKey := Text(CurrencyName(c))]) == ReadDarkMode(entries)
  {
  }

  /**
   * The view model. `currencyType` is read once, at construction; `isDarkMode`
   * is the value of its flow. Each instance keeps its own flag.
   */
  class SettingsViewModel {
    const prefs: SharedPreferences
    const currencyType: CurrencyType
    var isDarkMode: bool

    ghost predicate Valid()
      reads this, prefs
    {
      SettingsTyped(prefs.entries)
    }

    constructor (prefs: SharedPreferences)
      requires SettingsTyped(prefs.entries)
      ensures Valid()
      ensures this.prefs == prefs
      ensures currencyType == ReadCurrency(prefs.entries)
      ensures isDarkMode == ReadDarkMode(prefs.entries)
    {
      this.prefs := prefs;
      currencyType := ReadCurrency(prefs.entries);
      isDarkMode := GetBoolean(prefs.entries, DarkModeKey, false);
    }

    /** `saveCurrencyType`: stores the name; this instance's `currencyType` stays as it was read. */
    method SaveCurrencyType(c: CurrencyType)
      requires Valid()
      modifies prefs
      ensures Valid()
      ensures prefs.entries == old(prefs.entries)[CurrencyKey := Text(CurrencyName(c))]
      ensures isDarkMode == old(isDarkMode)
    {
      prefs.PutStringAndApply(CurrencyKey, Some(CurrencyName(c)));
    }

    /** `toggleDarkMode`: flips the flag and stores the new value. */
    method ToggleDarkMode()
      requires Valid()
      modifies this, prefs
      ensures Valid()
      ensures isDarkMode == !old(isDarkMode)
      ensures prefs.entries == old(prefs.entries)[DarkModeKey := Flag(isDarkMode)]
    {
      var newValue := !isDarkMode;
      isDarkMode := newValue;
      prefs.PutBooleanAndApply(DarkModeKey, newValue);
    }
  }

  /** Two toggles restore the flag, and restore the store whenever it held the flag this instance shows. */
  method ToggleTwice(vm: SettingsViewModel)
    requires vm.Valid()
    modifies vm, vm.prefs
    ensures vm.Valid()
    ensures vm.isDarkMode == old(vm.isDarkMode)
    ensures old(vm.prefs.entries) == old(vm.prefs.entries)[DarkModeKey := Flag(old(vm.isDarkMode))] ==>
      vm.prefs.entries == old(vm.prefs.entries)
    ensures vm.prefs.entries == old(vm.prefs.entries)[DarkModeKey := Flag(old(vm.isDarkMode))]
  {
    vm.ToggleDarkMode();
    vm.ToggleDarkMode();
  }

  /** After a save and a toggle, a view model opened on the same file reads back the currency and the new flag. */
  method SaveToggleReload(vm: SettingsViewModel, c: CurrencyType) returns (reloaded: SettingsViewModel)
    requires vm.Valid()
    modifies vm, vm.prefs
    ensures reloaded.currencyType == c
    ensures reloaded.isDarkMode == vm.isDarkMode == !old(vm.isDarkMode)
  {
    vm.SaveCurrencyType(c);
    vm.ToggleDarkMode();
    reloaded := new SettingsViewModel(vm.prefs);
  }

  /** `Companion.instance`: the view model `getInstance` hands out, once created. */
  class SettingsRegistry {
    var instance: SettingsViewModel?

    constructor ()
      ensures instance == null
    {
      instance := null;
    }

    /** `getInstance`: creates the instance on the first call and returns that same one afterwards. */
    method GetInstance(prefs: SharedPreferences) returns (vm: SettingsViewModel)
      requires SettingsTyped(prefs.entries)
      modifies this
      ensures instance == vm
      ensures old(instance) != null ==> vm == old(instance)
      ensures old(instance) == null ==>
        && fresh(vm) && vm.prefs == prefs && vm.Valid()
        && vm.currencyType == ReadCurrency(prefs.entries) && vm.isDarkMode == ReadDarkMode(prefs.entries)
    {
      if instance == null {
        instance := new SettingsViewModel(prefs);
      }
      vm := instance;
    }
  }

  /** Every call after the first returns the instance the first call made. */
  method GetInstanceTwice(registry: SettingsRegistry, prefs: SharedPreferences) returns (first: SettingsViewModel, second: SettingsViewModel)
    requires SettingsTyped(prefs.entries)
    modifies registry
    ensures first == second == registry.instance
  {
    first := registry.GetInstance(prefs);
    second := registry.GetInstance(prefs);
  }
}
