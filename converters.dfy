/**
 * Room's type converters: a `Date` is stored as its millisecond value and an
 * enumeration as its case name. Decoding a name that is not a case is the
 * `IllegalArgumentException` of `valueOf`, modelled as `None`.
 */
module Converters {
  import opened Wrappers
  import opened Entities

  /** `fromTimestamp`: a nullable millisecond value to a nullable `Date`. */
  function FromTimestamp(value: Option<int>): (r: Option<Date>)
    ensures r.None? <==> value.None?
    ensures r.Some? ==> r.value.time == value.value
  {
    match value
    case None => None
    case Some(ms) => Some(Date(ms))
  }

  /** `dateToTimestamp`: a nullable `Date` to its nullable millisecond value. */
  function DateToTimestamp(date: Option<Date>): (r: Option<int>)
    ensures r.None? <==> date.None?
    ensures r.Some? ==> r.value == date.value.time
  {
    match date
    case None => None
    case Some(d) => Some(d.time)
  }

  lemma DateRoundTrip(d: Option<Date>)
    ensures FromTimestamp(DateToTimestamp(d)) == d
  {
  }

  lemma TimestampRoundTrip(ms: Option<int>)
    ensures DateToTimestamp(FromTimestamp(ms)) == ms
  {
  }

  /** `fromTransactionType`: the case name. */
  function FromTransactionType(value: TransactionType): string {
    TypeName(value)
  }

  /** `toTransactionType`: `TransactionType.valueOf`, failing on anything but a case name. */
  function ToTransactionType(value: string): (r: Option<TransactionType>)
    ensures r.Some? ==> FromTransactionType(r.value) == value
    ensures forall t :: FromTransactionType(t) == value ==> r == Some(t)
  {
    if value == "INCOME" then Some(INCOME)
    else if value == "EXPENSE" then Some(EXPENSE)
    else None
  }

  /** `fromTransactionCategory`: the case name. */
  function FromTransactionCategory(value: TransactionCategory): string {
    CategoryName(value)
  }

  /** `toTransactionCategory`: `TransactionCategory.valueOf`, failing on anything but a case name. */
  function ToTransactionCategory(value: string): (r: Option<TransactionCategory>)
    ensures r.Some? ==> FromTransactionCategory(r.value) == value
    ensures forall c :: FromTransactionCategory(c) == value ==> r == Some(c)
  {
    if value == "SALARY" then Some(SALARY)
    else if value == "SUBSCRIPTION" then Some(SUBSCRIPTION)
    else if value == "DAILY_EXPENSE" then Some(DAILY_EXPENSE)
    else if value == "LEISURE" then Some(LEISURE)
    else if value == "MONTHLY_EXPENSE" then Some(MONTHLY_EXPENSE)
    else if value == "OTHER" then Some(OTHER)
    else None
  }

  lemma TransactionTypeRoundTrip(t: TransactionType)
    ensures ToTransactionType(FromTransactionType(t)) == Some(t)
  {
  }

  lemma TransactionCategoryRoundTrip(c: TransactionCategory)
    ensures ToTransactionCategory(FromTransactionCategory(c)) == Some(c)
  {
  }

  /** Distinct types are stored under distinct names. */
  lemma FromTransactionTypeInjective(a: TransactionType, b: TransactionType)
    requires FromTransactionType(a) == FromTransactionType(b)
    ensures a == b
  {
    TransactionTypeRoundTrip(a);
    TransactionTypeRoundTrip(b);
  }

  /** Distinct categories are stored under distinct names. */
  lemma FromTransactionCategoryInjective(a: TransactionCategory, b: TransactionCategory)
    requires FromTransactionCategory(a) == FromTransactionCategory(b)
    ensures a == b
  {
    TransactionCategoryRoundTrip(a);
    TransactionCategoryRoundTrip(b);
  }
}
