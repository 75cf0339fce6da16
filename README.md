# FinancesZan, modelled in Dafny

FinancesZan is an Android app that records income and expense transactions. It
keeps them in a Room table, shows a monthly balance and per-category expense
totals on its main screen, and shows a calendar in which each day with
transactions is tinted by the sign of its net amount. This project models the
core of the app and proves what the app promises about it:

- **Entities and converters** (`entities.dfy`, `converters.dfy`). Covers the
  `Transaction` record and the two enums. It also covers the six Room type
  converters and their round trips.
- **The transaction table** (`transaction_dao.dfy`). The class
  `Store.TransactionDao` holds the rows and the next auto-increment key. Insert,
  update, delete and delete-all change the rows in place. The three list queries
  and the two `SUM` range queries are functions of the rows, with SQL's NULL sum
  on an empty selection and an inclusive `BETWEEN`.
- **Calendar aggregation** (`calendar_view_model.dfy`). The class
  `Calendar.CalendarViewModel` covers the selected date, the day filter, and the
  `processDailyTotals` loop that folds a snapshot into a map from date to net
  amount. Lemmas prove that the map has exactly the days with transactions, that
  each value is that day's signed total, and that the values add up to the
  snapshot's signed total.
- **Monthly aggregation** (`finances_view_model.dfy`). The class
  `Finances.FinancesViewModel` covers the month window, the monthly balance, and
  the per-category expense totals. It also has the three forwarding mutations.
- **Preference-backed view models** (`preferences.dfy`,
  `settings_view_model.dfy`, `profile_view_model.dfy`). The preference file is
  a map from key to a string or a boolean. Covered: the currency and dark-mode
  settings, the `getInstance` singleton, and the profile fields with their
  fallbacks and save.
- **Screen rules** (`calendar_screen.dfy`, `add_transaction_screen.dfy`,
  `main_screen.dfy`, `profile_screen.dfy`, `theme.dfy`). Covered: the month grid
  and its cell colouring, the amount filter, the amount parse and the save rule
  of the add form, the category summary, the emoji and the locale choice, the
  reset dialog, and the profile form's change tracking.

Conventions of the model:

- Amounts are exact `real` numbers.
- An instant is a `Date` holding its milliseconds since the epoch.
- A `LocalDate` is its epoch-day number. The device zone is a fixed offset from
  UTC.
- Each emission of a collected `Flow` is a call of an `OnTransactions` method
  with the emitted list.
- Each completion of a launched month query is a call of
  `CalculateMonthlyBalance` or `UpdateCategoryTotal`, with the current month as
  a parameter.
- The Kotlin property `type` of a transaction is called `kind`.

Notes on behaviour that follows from the code:

- The settings screen obtains its own `SettingsViewModel` through `viewModel()`,
  while the theme uses `SettingsViewModel.getInstance`. The dark-mode flag is
  therefore held per instance: a toggle on the settings screen changes the
  stored value and that instance's flag, but not the flag of the other
  instance. This follows from `Settings.SettingsViewModel.ToggleDarkMode`,
  whose effect is confined to its own instance.
- On the profile screen, the camera path replaces the photo URI before the
  camera runs, and a failed or cancelled capture does not restore it. A later
  edit followed by a save then stores the temporary file's URI
  (`ProfileScreen.CancelledCapture`).
- The amount field keeps every dot, so "1.2.3" is accepted by the field, enables
  the save button, fails to parse and is saved as 0. So is a lone ".".
- The `TransactionType` enum's own file is not part of this model; its two
  cases INCOME and EXPENSE are taken from their uses in the converters, the DAO
  and the screens.

## Model

| member | source | states |
|---|---|---|
| Entities.AllCategories | app/src/main/java/com/example/financeszan/data/entities/TransactionCategory.kt:3-10 | the six categories, pairwise distinct, in declaration order |
| Entities.CategoryListed | app/src/main/java/com/example/financeszan/data/entities/TransactionCategory.kt:3-10 | every category is among `values()` |
| Entities.Filter | app/src/main/java/com/example/financeszan/ui/viewmodel/CalendarViewModel.kt:54-56 | Kotlin's `filter`: every kept element satisfies the predicate, each satisfying element keeps its multiplicity, the others are dropped, and the result is a subsequence (order kept) |
| JavaTime.DayWindow | app/src/main/java/com/example/financeszan/ui/viewmodel/CalendarViewModel.kt:51-52 | the instants from the start of day d to one millisecond before the next day are exactly those whose local day is d |
| JavaTime.DaysWindow | app/src/main/java/com/example/financeszan/ui/viewmodel/FinancesViewModel.kt:75-89 | the instants from the start of day a to the last millisecond of day b are exactly those whose local day lies in a..b |
| JavaTime.DayOfWeek | app/src/main/java/com/example/financeszan/ui/screens/CalendarScreen.kt:229 | the ISO weekday value lies in 1..7 |
| JavaTime.LengthOfMonth | app/src/main/java/com/example/financeszan/ui/screens/CalendarScreen.kt:237 | a month has 28 to 31 days, and 29 exactly for February of a leap year |
| JavaTime.PlusOneMonth | app/src/main/java/com/example/financeszan/ui/screens/CalendarScreen.kt:191-193 | the next month is one step further on the line of months |
| JavaTime.MinusOneMonth | app/src/main/java/com/example/financeszan/ui/screens/CalendarScreen.kt:180-182 | the previous month is one step back on the line of months |
| Converters.FromTimestamp | app/src/main/java/com/example/financeszan/data/Converters.kt:9-12 | null maps to null; a value maps to the Date of that many milliseconds |
| Converters.DateToTimestamp | app/src/main/java/com/example/financeszan/data/Converters.kt:14-17 | null maps to null; a Date maps to its milliseconds |
| Converters.DateRoundTrip | app/src/main/java/com/example/financeszan/data/Converters.kt:9-17 | `fromTimestamp(dateToTimestamp(d)) == d`, null included |
| Converters.TimestampRoundTrip | app/src/main/java/com/example/financeszan/data/Converters.kt:9-17 | `dateToTimestamp(fromTimestamp(ms)) == ms`, null included |
| Converters.ToTransactionType | app/src/main/java/com/example/financeszan/data/Converters.kt:24-27 | `valueOf` succeeds exactly on a case name and returns that case; any other string is an error |
| Converters.ToTransactionCategory | app/src/main/java/com/example/financeszan/data/Converters.kt:34-37 | `valueOf` succeeds exactly on a case name and returns that case; any other string is an error |
| Converters.TransactionTypeRoundTrip | app/src/main/java/com/example/financeszan/data/Converters.kt:19-27 | decoding the stored name of a type gives the type back |
| Converters.TransactionCategoryRoundTrip | app/src/main/java/com/example/financeszan/data/Converters.kt:29-37 | decoding the stored name of a category gives the category back |
| Converters.FromTransactionTypeInjective | app/src/main/java/com/example/financeszan/data/Converters.kt:19-22 | distinct types are stored under distinct names |
| Converters.FromTransactionCategoryInjective | app/src/main/java/com/example/financeszan/data/Converters.kt:29-32 | distinct categories are stored under distinct names |
| Store.InsertByDate | app/src/main/java/com/example/financeszan/data/dao/TransactionDao.kt:24-25 | inserting into a date-descending list keeps it date-descending and adds exactly that row |
| Store.SortByDateDesc | app/src/main/java/com/example/financeszan/data/dao/TransactionDao.kt:24-25 | `ORDER BY date DESC`: the result is date-descending and a permutation of the input |
| Store.WithoutId | app/src/main/java/com/example/financeszan/data/dao/TransactionDao.kt:18-19 | exactly the rows with another key remain, in order |
| Store.ReplaceById | app/src/main/java/com/example/financeszan/data/dao/TransactionDao.kt:15-16 | the row with the key of `t` becomes `t`; every other row is unchanged |
| Store.Matching | app/src/main/java/com/example/financeszan/data/dao/TransactionDao.kt:33-46 | the selected rows all satisfy the WHERE clause (type, category when given, inclusive BETWEEN); none is selected iff no row satisfies it |
| Store.MatchingIsFilter | app/src/main/java/com/example/financeszan/data/dao/TransactionDao.kt:33-46 | the rows a range sum adds are exactly the table filtered by its WHERE clause: every matching row, once each, in table order |
| Store.RangeSum | app/src/main/java/com/example/financeszan/data/dao/TransactionDao.kt:33-46 | `SUM` is NULL iff no row is selected, and otherwise the total of the selected amounts |
| Store.TransactionDao.constructor | app/src/main/java/com/example/financeszan/data/dao/TransactionDao.kt:10-11 | a new table is empty and valid |
| Store.TransactionDao.InsertTransaction | app/src/main/java/com/example/financeszan/data/dao/TransactionDao.kt:12-13 | id 0 appends the row under a fresh key; a new explicit key appends the row as given; a key already present aborts and changes nothing; the keys stay distinct and non-zero |
| Store.TransactionDao.UpdateTransaction | app/src/main/java/com/example/financeszan/data/dao/TransactionDao.kt:15-16 | only the row with the matching key is replaced; with no such row nothing changes |
| Store.TransactionDao.DeleteTransaction | app/src/main/java/com/example/financeszan/data/dao/TransactionDao.kt:18-19 | only the row with the matching key is removed |
| Store.TransactionDao.DeleteAllTransactions | app/src/main/java/com/example/financeszan/data/dao/TransactionDao.kt:21-31 | the table is empty afterwards, so all three list queries return empty lists; the key counter is kept |
| Store.TransactionDao.GetAllTransactions | app/src/main/java/com/example/financeszan/data/dao/TransactionDao.kt:24-25 | every row, each once, date-descending |
| Store.TransactionDao.GetTransactionsByType | app/src/main/java/com/example/financeszan/data/dao/TransactionDao.kt:27-28 | exactly the rows of that type, with their multiplicities, date-descending |
| Store.TransactionDao.GetTransactionsByCategory | app/src/main/java/com/example/financeszan/data/dao/TransactionDao.kt:30-31 | exactly the rows of that category, with their multiplicities, date-descending |
| Store.TransactionDao.GetTotalAmountByTypeAndDateRange | app/src/main/java/com/example/financeszan/data/dao/TransactionDao.kt:33-38 | NULL iff no row has the type and a date in start..end both ends included; otherwise the total of the table filtered by that clause, every matching row counted once |
| Store.TransactionDao.GetTotalAmountByCategoryAndDateRange | app/src/main/java/com/example/financeszan/data/dao/TransactionDao.kt:40-46 | the same, with the category filter as well: NULL iff no row matches, otherwise the total of every matching row |
| Calendar.DailyAmount | app/src/main/java/com/example/financeszan/ui/viewmodel/CalendarViewModel.kt:71 | the name test `type.name == "INCOME"` gives +amount for an income and -amount for an expense |
| Calendar.SelectedDayBounds | app/src/main/java/com/example/financeszan/ui/viewmodel/CalendarViewModel.kt:50-52 | the bounds exist iff the start of the day and the last millisecond of the day both fit a Java long (otherwise `Date.from` throws) |
| Calendar.TransactionsForDate | app/src/main/java/com/example/financeszan/ui/viewmodel/CalendarViewModel.kt:49-60 | the result is a subsequence of the snapshot, every element falls on the selected local day, and a failure gives the empty list |
| Calendar.SelectedDayIsLocalDay | app/src/main/java/com/example/financeszan/ui/viewmodel/CalendarViewModel.kt:51-56 | when the bounds exist, the list is exactly the snapshot transactions of that local day, in snapshot order |
| Calendar.SelectedDayAgreesWithTotals | app/src/main/java/com/example/financeszan/ui/viewmodel/CalendarViewModel.kt:49-75 | the selected-day list is nonempty iff the day is a key of the totals map, and its signed total is the map value or 0 |
| Calendar.DailyTotalsKeys | app/src/main/java/com/example/financeszan/ui/viewmodel/CalendarViewModel.kt:64-73 | a day is a key iff some transaction of the snapshot falls on it; no day is present with a made-up 0 |
| Calendar.DailyTotalsValue | app/src/main/java/com/example/financeszan/ui/viewmodel/CalendarViewModel.kt:71-72 | every day's value, or 0 when absent, is the +income/-expense sum of that day's transactions |
| Calendar.DailyTotalsAddUp | app/src/main/java/com/example/financeszan/ui/viewmodel/CalendarViewModel.kt:66-75 | along any repetition-free list of the keys, the values add up to the signed total of the whole snapshot |
| Calendar.CalendarViewModel.constructor | app/src/main/java/com/example/financeszan/ui/viewmodel/CalendarViewModel.kt:18-33 | the selected date is today, the lists and the map start empty, and a repository decides whether snapshots are received |
| Calendar.CalendarViewModel.SelectDate | app/src/main/java/com/example/financeszan/ui/viewmodel/CalendarViewModel.kt:44-47 | sets the date and recomputes its list; the snapshot and the totals map are unchanged |
| Calendar.CalendarViewModel.UpdateTransactionsForSelectedDate | app/src/main/java/com/example/financeszan/ui/viewmodel/CalendarViewModel.kt:49-60 | the list becomes the filter of the stored snapshot to the selected day |
| Calendar.CalendarViewModel.OnTransactions | app/src/main/java/com/example/financeszan/ui/viewmodel/CalendarViewModel.kt:33-39 | a snapshot replaces the stored list, then the totals map, then the selected-day list; without a repository nothing changes |
| Calendar.CalendarViewModel.ProcessDailyTotals | app/src/main/java/com/example/financeszan/ui/viewmodel/CalendarViewModel.kt:62-79 | the loop builds the fold of the snapshot; its keys are exactly the days with transactions and each value is that day's signed total |
| Finances.MonthRange | app/src/main/java/com/example/financeszan/ui/viewmodel/FinancesViewModel.kt:74-89 | first day 00:00:00.000 to last day 23:59:59.999, both included, holds exactly the instants that fall on a day of the month |
| Finances.MonthlyBalanceIsSignedTotal | app/src/main/java/com/example/financeszan/ui/viewmodel/FinancesViewModel.kt:91-103 | INCOME sum minus EXPENSE sum, each NULL read as 0, is the signed total of the rows in the range |
| Finances.CategoryTotalIsExpenses | app/src/main/java/com/example/financeszan/ui/viewmodel/FinancesViewModel.kt:126-131 | a category total is the sum of that category's EXPENSE amounts in the range, NULL read as 0; its INCOME rows never count |
| Finances.CategorySumCons | app/src/main/java/com/example/financeszan/ui/viewmodel/FinancesViewModel.kt:126-131 | one more row adds its amount to the category sum exactly once, when it is an expense in the range of a listed category |
| Finances.CategoryTotalsAddUp | app/src/main/java/com/example/financeszan/ui/viewmodel/FinancesViewModel.kt:36-38 | the totals of all categories, SALARY included, add up to the month's EXPENSE sum |
| Finances.FinancesViewModel.constructor | app/src/main/java/com/example/financeszan/ui/viewmodel/FinancesViewModel.kt:21-40 | before any snapshot or query result the list is empty, the balance is 0 and every category has an entry holding 0 |
| Finances.FinancesViewModel.InitCategoryTotals | app/src/main/java/com/example/financeszan/ui/viewmodel/FinancesViewModel.kt:35-40 | every category, SALARY included, gets an entry holding 0 |
| Finances.FinancesViewModel.CalculateMonthlyBalance | app/src/main/java/com/example/financeszan/ui/viewmodel/FinancesViewModel.kt:72-105 | the balance becomes INCOME sum minus EXPENSE sum over the current month, NULL read as 0 |
| Finances.FinancesViewModel.UpdateCategoryTotal | app/src/main/java/com/example/financeszan/ui/viewmodel/FinancesViewModel.kt:107-135 | writes the category's month expense total into its entry only, and only when the entry exists |
| Finances.FinancesViewModel.GetCategoryTotal | app/src/main/java/com/example/financeszan/ui/viewmodel/FinancesViewModel.kt:137-139 | the entry's value, or 0 for a missing entry |
| Finances.FinancesViewModel.OnTransactions | app/src/main/java/com/example/financeszan/ui/viewmodel/FinancesViewModel.kt:44-49 | a snapshot replaces the list, then the balance and every existing category entry are recomputed; no entry is added or removed |
| Finances.FinancesViewModel.AddTransaction | app/src/main/java/com/example/financeszan/ui/viewmodel/FinancesViewModel.kt:54-58 | forwards to insert and reports a conflict exactly when an explicit id is already in the table; the list, the balance and the category totals are unchanged |
| Finances.FinancesViewModel.DeleteTransaction | app/src/main/java/com/example/financeszan/ui/viewmodel/FinancesViewModel.kt:60-64 | forwards to delete; the derived values are unchanged |
| Finances.FinancesViewModel.DeleteAllTransactions | app/src/main/java/com/example/financeszan/ui/viewmodel/FinancesViewModel.kt:66-70 | forwards to delete-all; the derived values are unchanged |
| Preferences.GetString | app/src/main/java/com/example/financeszan/ui/viewmodel/SettingsViewModel.kt:14 | the stored string, or the default when the key is absent |
| Preferences.GetBoolean | app/src/main/java/com/example/financeszan/ui/viewmodel/SettingsViewModel.kt:22 | the stored boolean, or the default when the key is absent |
| Preferences.PutString | app/src/main/java/com/example/financeszan/ui/viewmodel/ProfileViewModel.kt:50-55 | a value is stored under the key, null removes the key, and no other key is touched |
| Preferences.PutThenGetString | app/src/main/java/com/example/financeszan/ui/viewmodel/ProfileViewModel.kt:50-55 | what `getString` reads after `putString` is the value written, or the default after a null |
| Settings.CurrencyValueOf | app/src/main/java/com/example/financeszan/ui/viewmodel/SettingsViewModel.kt:16 | `valueOf` succeeds exactly on a case name and returns that case |
| Settings.ReadCurrency | app/src/main/java/com/example/financeszan/ui/viewmodel/SettingsViewModel.kt:14-20 | a stored case name gives that currency; a missing key or an unrecognised name gives EURO |
| Settings.ReadDarkMode | app/src/main/java/com/example/financeszan/ui/viewmodel/SettingsViewModel.kt:22 | the stored flag, false when absent |
| Settings.CurrencyRoundTrip | app/src/main/java/com/example/financeszan/ui/viewmodel/SettingsViewModel.kt:14-26 | after the name of c is stored, a fresh read gives c |
| Settings.DarkModeRoundTrip | app/src/main/java/com/example/financeszan/ui/viewmodel/SettingsViewModel.kt:14-32 | after a flag is stored, a fresh read gives it; storing one setting does not change how the other reads |
| Settings.SettingsViewModel.constructor | app/src/main/java/com/example/financeszan/ui/viewmodel/SettingsViewModel.kt:11-23 | the currency and the flag are read from the preference file |
| Settings.SettingsViewModel.SaveCurrencyType | app/src/main/java/com/example/financeszan/ui/viewmodel/SettingsViewModel.kt:25-27 | stores the name under `currencyType`; this instance keeps its currency and its flag |
| Settings.SettingsViewModel.ToggleDarkMode | app/src/main/java/com/example/financeszan/ui/viewmodel/SettingsViewModel.kt:29-33 | flips the flag and stores the new value |
| Settings.ToggleTwice | app/src/main/java/com/example/financeszan/ui/viewmodel/SettingsViewModel.kt:29-33 | two toggles restore the flag, and restore the file whenever it held the flag shown |
| Settings.SaveToggleReload | app/src/main/java/com/example/financeszan/ui/viewmodel/SettingsViewModel.kt:14-32 | after a save and a toggle, a fresh instance reads back the currency and the new flag |
| Settings.SettingsRegistry.GetInstance | app/src/main/java/com/example/financeszan/ui/viewmodel/SettingsViewModel.kt:36-43 | the first call creates the instance; every later call returns that same instance |
| Settings.GetInstanceTwice | app/src/main/java/com/example/financeszan/ui/viewmodel/SettingsViewModel.kt:38-43 | two calls return the same instance |
| Profile.StatusValueOf | app/src/main/java/com/example/financeszan/ui/screens/ProfileScreen.kt:33-38 | `valueOf` succeeds exactly on a case name and returns that case |
| Profile.ReadStatus | app/src/main/java/com/example/financeszan/ui/viewmodel/ProfileViewModel.kt:20-26 | absent gives null, an unrecognised name gives null, a case name gives that case |
| Profile.ReadProfile | app/src/main/java/com/example/financeszan/ui/viewmodel/ProfileViewModel.kt:14-35 | names default to "", the status is read as above, the photo is the stored string or null |
| Profile.WriteProfile | app/src/main/java/com/example/financeszan/ui/viewmodel/ProfileViewModel.kt:50-55 | writes the four keys, a null status or photo removing its key, and touches no other key |
| Profile.ProfileRoundTrip | app/src/main/java/com/example/financeszan/ui/viewmodel/ProfileViewModel.kt:14-55 | reading back what a save wrote gives the saved names, status and photo |
| Profile.ProfileViewModel.constructor | app/src/main/java/com/example/financeszan/ui/viewmodel/ProfileViewModel.kt:11-35 | the four fields are read from the preference file |
| Profile.ProfileViewModel.SaveProfileData | app/src/main/java/com/example/financeszan/ui/viewmodel/ProfileViewModel.kt:38-58 | the four fields take the arguments and the four keys are written from them |
| Profile.SaveThenReload | app/src/main/java/com/example/financeszan/ui/viewmodel/ProfileViewModel.kt:14-55 | a fresh instance after a save shows what was saved |
| CalendarScreen.HeaderAt | app/src/main/java/com/example/financeszan/ui/screens/CalendarScreen.kt:203-206 | the header of grid position i is weekday i mod 7 + 1, Monday first, in 7 columns |
| CalendarScreen.GridOffset | app/src/main/java/com/example/financeszan/ui/screens/CalendarScreen.kt:228-230 | the blank count lies in 0..6: 0 when the month starts on Sunday, the weekday value otherwise |
| CalendarScreen.AlignedGridOffset | app/src/main/java/com/example/financeszan/ui/screens/CalendarScreen.kt:203-230 | the blank count a Monday-first header needs: 0 exactly when the month starts on Monday |
| CalendarScreen.MonthGrid | app/src/main/java/com/example/financeszan/ui/screens/CalendarScreen.kt:228-239 | the offset blanks, then exactly `lengthOfMonth` cells, cell k showing day k+1 and its date |
| CalendarScreen.AlignedGridMatchesHeader | app/src/main/java/com/example/financeszan/ui/screens/CalendarScreen.kt:203-239 | with the corrected offset every day sits under its own weekday |
| CalendarScreen.SourceGridShifted | app/src/main/java/com/example/financeszan/ui/screens/CalendarScreen.kt:203-239 | as written, every day of every month sits under the weekday after its own |
| CalendarScreen.SeptemberTwentyTwentyFive | app/src/main/java/com/example/financeszan/ui/screens/CalendarScreen.kt:228-230 | September 2025 starts on a Monday, gets one blank, and shows day 1 under Tuesday |
| CalendarScreen.CellBackground | app/src/main/java/com/example/financeszan/ui/screens/CalendarScreen.kt:249-260 | selected first; otherwise a tint of the total's sign when the day is a key; otherwise transparent |
| CalendarScreen.CellDot | app/src/main/java/com/example/financeszan/ui/screens/CalendarScreen.kt:241-295 | a dot iff the day is a key, coloured by the sign of its total (amount read as 0 when absent) |
| CalendarScreen.DayBalance | app/src/main/java/com/example/financeszan/ui/screens/CalendarScreen.kt:323-324 | the selected day's map value, 0 when absent |
| CalendarScreen.CellReflectsSnapshot | app/src/main/java/com/example/financeszan/ui/screens/CalendarScreen.kt:241-295 | on a snapshot's totals, a cell has a dot iff some transaction falls on its day, in the colour of that day's signed total |
| CalendarScreen.DayBalanceIsListTotal | app/src/main/java/com/example/financeszan/ui/screens/CalendarScreen.kt:323-331 | the day balance shown is the signed total of the transaction list shown below it |
| CalendarScreen.MonthArrowsInverse | app/src/main/java/com/example/financeszan/ui/screens/CalendarScreen.kt:180-193 | the two arrows undo each other |
| CalendarScreen.CalendarScreenState.PreviousMonth | app/src/main/java/com/example/financeszan/ui/screens/CalendarScreen.kt:180-182 | the month on show moves one month back |
| CalendarScreen.CalendarScreenState.NextMonth | app/src/main/java/com/example/financeszan/ui/screens/CalendarScreen.kt:191-193 | the month on show moves one month on |
| CalendarScreen.CalendarScreenState.ClickDay | app/src/main/java/com/example/financeszan/ui/screens/CalendarScreen.kt:262-267 | clicking cell k selects day k+1 of the month on show, recomputing only the selected-day list |
| Theme.ToneOf | app/src/main/java/com/example/financeszan/ui/screens/CalendarScreen.kt:324-331 | the income colour iff the amount is at least 0 |
| AddTransaction.FilterAmount | app/src/main/java/com/example/financeszan/ui/screens/AddTransactionScreen.kt:95-98 | keeps exactly the digits and dots, each with its multiplicity, in their order |
| AddTransaction.FilterAmountIdempotent | app/src/main/java/com/example/financeszan/ui/screens/AddTransactionScreen.kt:96-98 | filtering a filtered amount changes nothing |
| AddTransaction.FilterAmountAppend | app/src/main/java/com/example/financeszan/ui/screens/AddTransactionScreen.kt:96-98 | the filter works character by character, so it distributes over concatenation |
| AddTransaction.DotsAreKept | app/src/main/java/com/example/financeszan/ui/screens/AddTransactionScreen.kt:96-97 | the filter keeps every dot: it does not limit their number |
| AddTransaction.FilteredAmount | app/src/main/java/com/example/financeszan/ui/screens/AddTransactionScreen.kt:96-98 | a filtered amount has no '-', its ASCII characters are digits and dots, and it is blank only when empty |
| AddTransaction.ParseAmount | app/src/main/java/com/example/financeszan/ui/screens/AddTransactionScreen.kt:159 | a screened string parses iff it is ASCII digits with at most one dot and at least one digit; the value is never negative |
| AddTransaction.ParseDecimal | app/src/main/java/com/example/financeszan/ui/screens/AddTransactionScreen.kt:159 | digits w, a dot and digits f (at least one digit in all) pass the filter and parse to w + f / 10^|f| |
| AddTransaction.ParseNumbers | app/src/main/java/com/example/financeszan/ui/screens/AddTransactionScreen.kt:159 | the decimal text of a, a dot and the decimal text of b parses to a + b / 10^(digits of b) |
| AddTransaction.TrailingZero | app/src/main/java/com/example/financeszan/ui/screens/AddTransactionScreen.kt:159 | a trailing zero after the dot does not change the parsed amount ("1.50" parses like "1.5") |
| AddTransaction.ParseWholeNumber | app/src/main/java/com/example/financeszan/ui/screens/AddTransactionScreen.kt:159 | the decimal digits of n parse to n |
| AddTransaction.BuildTransaction | app/src/main/java/com/example/financeszan/ui/screens/AddTransactionScreen.kt:157-164 | id 0, the parsed amount or 0 when it does not parse, the description verbatim, the chosen type and category, the save instant; the amount is never negative |
| AddTransaction.LoneDotSavesZero | app/src/main/java/com/example/financeszan/ui/screens/AddTransactionScreen.kt:159-169 | an amount of "." enables the button and saves the amount 0 |
| AddTransaction.AddTransactionForm.constructor | app/src/main/java/com/example/financeszan/ui/screens/AddTransactionScreen.kt:34-39 | empty amount and description, EXPENSE, DAILY_EXPENSE, menus closed |
| AddTransaction.AddTransactionForm.ChangeAmount | app/src/main/java/com/example/financeszan/ui/screens/AddTransactionScreen.kt:96-98 | the amount becomes the filter of the typed text |
| AddTransaction.AddTransactionForm.ChangeDescription | app/src/main/java/com/example/financeszan/ui/screens/AddTransactionScreen.kt:113 | the description is taken verbatim |
| AddTransaction.AddTransactionForm.ChooseIncome | app/src/main/java/com/example/financeszan/ui/screens/AddTransactionScreen.kt:71 | the type becomes INCOME |
| AddTransaction.AddTransactionForm.ChooseExpense | app/src/main/java/com/example/financeszan/ui/screens/AddTransactionScreen.kt:82 | the type becomes EXPENSE |
| AddTransaction.AddTransactionForm.ToggleCategoryMenu | app/src/main/java/com/example/financeszan/ui/screens/AddTransactionScreen.kt:124 | the category menu flips open or closed |
| AddTransaction.AddTransactionForm.DismissCategoryMenu | app/src/main/java/com/example/financeszan/ui/screens/AddTransactionScreen.kt:140 | the category menu closes |
| AddTransaction.AddTransactionForm.PickCategory | app/src/main/java/com/example/financeszan/ui/screens/AddTransactionScreen.kt:145-148 | the category is set and the menu closes |
| AddTransaction.AddTransactionForm.Save | app/src/main/java/com/example/financeszan/ui/screens/AddTransactionScreen.kt:157-169 | when enabled, the built transaction is appended to the table under the next key, with a non-negative amount |
| Home.WithoutSalary | app/src/main/java/com/example/financeszan/ui/screens/MainScreen.kt:228-229 | exactly the categories other than SALARY remain, each as often as before and in the original order |
| Home.SummaryCategories | app/src/main/java/com/example/financeszan/ui/screens/MainScreen.kt:228-229 | the summary lists every category except SALARY |
| Home.SummaryInDeclarationOrder | app/src/main/java/com/example/financeszan/ui/screens/MainScreen.kt:228-229 | the summary order is SUBSCRIPTION, DAILY_EXPENSE, LEISURE, MONTHLY_EXPENSE, OTHER |
| Home.Emoji | app/src/main/java/com/example/financeszan/ui/screens/MainScreen.kt:282-288 | SALARY and OTHER get ""; the other four get an emoji |
| Home.EmojiDistinct | app/src/main/java/com/example/financeszan/ui/screens/MainScreen.kt:282-288 | the four emoji are pairwise different |
| Home.LocaleFor | app/src/main/java/com/example/financeszan/ui/screens/MainScreen.kt:46-51 | EURO uses es-ES, DOLLAR en-US and YEN ja-JP, each locale for one currency only |
| Home.BalanceTone | app/src/main/java/com/example/financeszan/ui/screens/MainScreen.kt:195 | the balance is in the income colour iff it is at least 0 |
| Home.RowTone | app/src/main/java/com/example/financeszan/ui/screens/MainScreen.kt:315 | a row is in the income colour iff its type is INCOME |
| Home.RowToneIsSignTone | app/src/main/java/com/example/financeszan/ui/screens/MainScreen.kt:315 | for a positive amount the row colour is the colour of its signed amount |
| Home.BalanceToneOfMonth | app/src/main/java/com/example/financeszan/ui/screens/MainScreen.kt:195 | the balance is in the income colour iff the signed total of the month's rows is at least 0 |
| Home.MainScreenState.constructor | app/src/main/java/com/example/financeszan/ui/screens/MainScreen.kt:53 | the dialog starts hidden |
| Home.MainScreenState.OpenResetDialog | app/src/main/java/com/example/financeszan/ui/screens/MainScreen.kt:141-145 | the drawer item shows the dialog |
| Home.MainScreenState.Confirm | app/src/main/java/com/example/financeszan/ui/screens/MainScreen.kt:64-67 | deletes every transaction and hides the dialog |
| Home.MainScreenState.Cancel | app/src/main/java/com/example/financeszan/ui/screens/MainScreen.kt:74 | hides the dialog; the table is untouched |
| Home.MainScreenState.Dismiss | app/src/main/java/com/example/financeszan/ui/screens/MainScreen.kt:59 | hides the dialog; the table is untouched |
| ProfileScreen.ProfileForm.constructor | app/src/main/java/com/example/financeszan/ui/screens/ProfileScreen.kt:47-52 | the fields start as the view model's, with no change and no dialog |
| ProfileScreen.ProfileForm.EditFirstName | app/src/main/java/com/example/financeszan/ui/screens/ProfileScreen.kt:222-224 | the name is set and a change is recorded, even for the same value |
| ProfileScreen.ProfileForm.EditLastName | app/src/main/java/com/example/financeszan/ui/screens/ProfileScreen.kt:234-236 | the name is set and a change is recorded, even for the same value |
| ProfileScreen.ProfileForm.OpenStatusDialog | app/src/main/java/com/example/financeszan/ui/screens/ProfileScreen.kt:257 | the status card opens the status dialog |
| ProfileScreen.ProfileForm.DismissStatusDialog | app/src/main/java/com/example/financeszan/ui/screens/ProfileScreen.kt:117 | dismissing the status dialog closes it |
| ProfileScreen.ProfileForm.PickStatus | app/src/main/java/com/example/financeszan/ui/screens/ProfileScreen.kt:125-139 | the status is set, a change is recorded and the dialog closes |
| ProfileScreen.ProfileForm.OpenChooseImageDialog | app/src/main/java/com/example/financeszan/ui/screens/ProfileScreen.kt:188 | the photo opens the image dialog |
| ProfileScreen.ProfileForm.DismissChooseImageDialog | app/src/main/java/com/example/financeszan/ui/screens/ProfileScreen.kt:88 | dismissing the image dialog closes it |
| ProfileScreen.ProfileForm.ChooseGallery | app/src/main/java/com/example/financeszan/ui/screens/ProfileScreen.kt:103-106 | the image dialog closes before the picker runs |
| ProfileScreen.ProfileForm.GalleryResult | app/src/main/java/com/example/financeszan/ui/screens/ProfileScreen.kt:56-60 | a picked image replaces the photo and records a change; no image changes nothing |
| ProfileScreen.ProfileForm.ChooseCamera | app/src/main/java/com/example/financeszan/ui/screens/ProfileScreen.kt:92-96 | the dialog closes and the photo becomes the temporary file's URI before the camera runs |
| ProfileScreen.ProfileForm.CameraResult | app/src/main/java/com/example/financeszan/ui/screens/ProfileScreen.kt:65-69 | a change is recorded only on success with a photo URI; the photo is not restored on failure |
| ProfileScreen.ProfileForm.Save | app/src/main/java/com/example/financeszan/ui/screens/ProfileScreen.kt:162-166 | enabled iff something changed; saves the four current values and clears the flag |
| ProfileScreen.CancelledCapture | app/src/main/java/com/example/financeszan/ui/screens/ProfileScreen.kt:65-96 | after a cancelled capture and another edit, the save stores the temporary file's URI |
| Converters.FromTransactionType | app/src/main/java/com/example/financeszan/data/Converters.kt:19-22 | a type is stored as its case name; `ToTransactionType` and the round-trip lemma are its partners |
| Converters.FromTransactionCategory | app/src/main/java/com/example/financeszan/data/Converters.kt:29-32 | a category is stored as its case name; `ToTransactionCategory` and the round-trip lemma are its partners |
| JavaTime.StartOfDayIsInDay | app/src/main/java/com/example/financeszan/ui/viewmodel/CalendarViewModel.kt:51 | the start of a day falls on that day |
| JavaTime.AtDayConsecutive | app/src/main/java/com/example/financeszan/ui/screens/CalendarScreen.kt:239 | the days of a month are consecutive dates |
| JavaTime.AtDayEpoch | app/src/main/java/com/example/financeszan/ui/screens/CalendarScreen.kt:239 | 1970-01-01 is epoch day 0 |
| JavaTime.AtDayNextMonth | app/src/main/java/com/example/financeszan/ui/screens/CalendarScreen.kt:237-239 | the day after the last day of any month is the first day of the next month, so the months tile the line of days |
| JavaTime.MarchYearStep | app/src/main/java/com/example/financeszan/ui/screens/CalendarScreen.kt:237-239 | the year from one March 1 to the next has 366 days exactly when its February has a 29th |
| JavaTime.MonthIndexInjective | app/src/main/java/com/example/financeszan/ui/screens/CalendarScreen.kt:162 | a month is determined by its place on the line of months |
| Finances.SumOrZero | app/src/main/java/com/example/financeszan/ui/viewmodel/FinancesViewModel.kt:91-101 | a NULL-able SUM read with `?: 0.0` is the plain total of the selected rows |
| Store.SubsequenceKeepsDistinctIds | app/src/main/java/com/example/financeszan/data/dao/TransactionDao.kt:18-19 | removing rows cannot make two primary keys equal |
| Preferences.SharedPreferences.constructor | app/src/main/java/com/example/financeszan/ui/viewmodel/SettingsViewModel.kt:12 | the file holds what was stored before |
| Preferences.SharedPreferences.PutStringAndApply | app/src/main/java/com/example/financeszan/ui/viewmodel/SettingsViewModel.kt:26 | the file becomes `PutString` of its old contents |
| Preferences.SharedPreferences.PutBooleanAndApply | app/src/main/java/com/example/financeszan/ui/viewmodel/SettingsViewModel.kt:32 | the key now holds the flag; every other key is unchanged |
| Settings.SettingsRegistry.constructor | app/src/main/java/com/example/financeszan/ui/viewmodel/SettingsViewModel.kt:36 | no instance exists before the first call |
| CalendarScreen.CalendarScreenState.constructor | app/src/main/java/com/example/financeszan/ui/screens/CalendarScreen.kt:162 | the screen opens on the current month |

## Left out

- Daylight-saving time and zone rules: the device zone is a fixed UTC offset, so `ZoneId.systemDefault()` and `java.util.Calendar` are reduced to that offset. `java.time` is re-implemented only for the proleptic Gregorian calendar, the weekday and the month length, without its year range limits.
- `Double` rounding: amounts are exact reals. `toDoubleOrNull` is modelled on strings of ASCII digits and dots, which is what the amount filter lets through on ASCII input. Exponents, signs, `NaN` and `Infinity` cannot reach it.
- `Char.isDigit` on non-ASCII digits: it is a parameter of the add form, constrained to agree with '0'..'9' on ASCII and to reject whitespace. `AddTransaction.ParseAmount` requires its input to be screened this way, so a non-ASCII digit is not parsed.
- `NumberFormat` currency formatting, the text of dates and months, colours as pixel values, dark-mode shades, layout, and the drawer animation: these are display only.
- Coroutines, `StateFlow` and `collect`: emissions and query completions are sequential calls, and the transient states between them are not modelled.
- `CalendarViewModel.getInstance` and `TransactionRepository`: the first is a synchronised singleton, and races are not modelled. The second only delegates to the DAO, so the view models talk to `Store.TransactionDao` directly.
- `FinancesDatabase` and the Room builder, and the navigation routes of `MainActivity`.
- The disk write behind `apply()`: the preference map changes at once.
- The image picker, the camera, `FileProvider`, the temporary file and `Uri.parse`: a URI is its string, and the file the camera writes is a parameter of `ChooseCamera`.
- `typeMenuExpanded` of the add form: it is declared but never changed by any handler, so it stays false.
- The `catch` in `processDailyTotals`: for timestamps that fit a Java `long` nothing in the loop can throw, so the model has no failure branch there. The `catch` of the selected-day filter is modelled: it is the case where a bound does not fit a `long`.
- The `else` branch of the currency-to-locale `when`: the three enum cases cover every value, so the es-ES fallback is unreachable.
- SQL leaves the order of rows with equal dates unspecified: `Store.SortByDateDesc` keeps them in table order, and no contract depends on that order.
- The `CurrencyType` display names and symbols of the settings screen are transcribed (`Settings.DisplayName`, `Settings.Symbol`), but the screen around them only forwards clicks.
- Preferences.GetString, Preferences.GetBoolean, Settings.ReadCurrency, Settings.ReadDarkMode, Settings.SettingsViewModel.constructor, Settings.SettingsRegistry.GetInstance, Settings.CurrencyRoundTrip, Settings.DarkModeRoundTrip, Profile.ReadStatus, Profile.ReadProfile and Profile.ProfileViewModel.constructor require that each key they read holds a value of the type it is read with. `getString` on a key holding a boolean throws in Android; the model makes the matching type a precondition instead of modelling the throw. The app writes each key only with its own type (SettingsViewModel.kt:26 and 32, ProfileViewModel.kt:51-54), so the throw cannot arise from the app's own writes.
- Finances.FinancesViewModel.AddTransaction: in the app a duplicate explicit id makes Room's `ABORT` throw inside `viewModelScope.launch`, where nothing catches it. The model returns `Conflict` from the call instead of modelling the uncaught exception. The only caller, the add form, always builds id 0 (AddTransactionScreen.kt:158-165), so the case does not arise from the app.

## Findings

| source | as written | input that shows it | evidently intended | confidence | as-written member | corrected member |
|---|---|---|---|---|---|---|
| app/src/main/java/com/example/financeszan/ui/screens/CalendarScreen.kt:228-230 | the number of leading blanks is 0 for a Sunday start and the weekday value otherwise, which counts from a Sunday-first week, while the header of lines 203-206 is Monday-first | September 2025 starts on a Monday: it gets one blank, so day 1 sits under Tuesday, and every day of every month sits one column to the right of its weekday | one blank per weekday before the first, that is the weekday value minus 1, so that each day sits under its own weekday | not executed | CalendarScreen.SourceGridShifted, CalendarScreen.SeptemberTwentyTwentyFive | CalendarScreen.AlignedGridOffset, CalendarScreen.AlignedGridMatchesHeader |
