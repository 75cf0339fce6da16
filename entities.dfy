/**
 * The transaction record and its two enumerations, as the Room entity declares them.
 */
module Entities {

  /** The two transaction kinds; a transaction's sign is implied by its kind. */
  datatype TransactionType = INCOME | EXPENSE

  /** The categories, in declaration order. */
  datatype TransactionCategory =
    | SALARY
    | SUBSCRIPTION
    | DAILY_EXPENSE
    | LEISURE
    | MONTHLY_EXPENSE
    | OTHER

  /** A `java.util.Date`: an instant, as milliseconds since the epoch. */
  datatype Date = Date(time: int)

  /**
   * One row of the `transactions` table. An `id` of 0 means "not yet assigned":
   * the store generates one on insert. `amount` is a non-negative magnitude in
   * every row the application builds; the sign comes from `kind` (the source's `type` field; `type` is a Dafny keyword).
   */
  datatype Transaction = Transaction(
    id: int,
    amount: real,
    description: string,
    date: Date,
    kind: TransactionType,
    category: TransactionCategory)

  /** `TransactionCategory.values()`: every category, in declaration order. */
  function AllCategories(): (cs: seq<TransactionCategory>)
    ensures |cs| == 6
    ensures forall i, j :: 0 <= i < j < |cs| ==> cs[i] != cs[j]
  {
    [SALARY, SUBSCRIPTION, DAILY_EXPENSE, LEISURE, MONTHLY_EXPENSE, OTHER]
  }

  /** Every category appears in `AllCategories()`. */
  lemma CategoryListed(c: TransactionCategory)
    ensures c in AllCategories()
  {
    match c
    case SALARY => assert AllCategories()[0] == c;
    case SUBSCRIPTION => assert AllCategories()[1] == c;
    case DAILY_EXPENSE => assert AllCategories()[2] == c;
    case LEISURE => assert AllCategories()[3] == c;
    case MONTHLY_EXPENSE => assert AllCategories()[4] == c;
    case OTHER => assert AllCategories()[5] == c;
  }

  /** `TransactionType.name`. */
  function TypeName(t: TransactionType): string {
    match t
    case INCOME => "INCOME"
    case EXPENSE => "EXPENSE"
  }

  /** `TransactionCategory.name`. */
  function CategoryName(c: TransactionCategory): string {
    match c
    case SALARY => "SALARY"
    case SUBSCRIPTION => "SUBSCRIPTION"
    case DAILY_EXPENSE => "DAILY_EXPENSE"
    case LEISURE => "LEISURE"
    case MONTHLY_EXPENSE => "MONTHLY_EXPENSE"
    case OTHER => "OTHER"
  }

  /** `TransactionCategory.displayName`. */
  function CategoryDisplayName(c: TransactionCategory): string {
    match c
    case SALARY => "Salario"
    case SUBSCRIPTION => "Subscripcion"
    case DAILY_EXPENSE => "Gasto Diario"
    case LEISURE => "Ocio"
    case MONTHLY_EXPENSE => "Gastos Mensuales"
    case OTHER => "Otros"
  }

  /** The net contribution of a row to any balance: +amount for income, -amount for expense. */
  function Signed(t: Transaction): real {
    if t.kind == INCOME then t.amount else -t.amount
  }

  /** Sum of the amounts of `s`. */
  function Total(s: seq<Transaction>): real {
    if s == [] then 0.0 else s[0].amount + Total(s[1..])
  }

  /** Sum of the signed contributions of `s`. */
  function SignedTotal(s: seq<Transaction>): real {
    if s == [] then 0.0 else Signed(s[0]) + SignedTotal(s[1..])
  }

  lemma {:induction false} TotalAppend(s: seq<Transaction>, t: seq<Transaction>)
    ensures Total(s + t) == Total(s) + Total(t)
  {
    if s == [] {
      assert s + t == t;
    } else {
      assert (s + t)[1..] == s[1..] + t;
      TotalAppend(s[1..], t);
    }
  }

  lemma {:induction false} SignedTotalAppend(s: seq<Transaction>, t: seq<Transaction>)
    ensures SignedTotal(s + t) == SignedTotal(s) + SignedTotal(t)
  {
    if s == [] {
      assert s + t == t;
    } else {
      assert (s + t)[1..] == s[1..] + t;
      SignedTotalAppend(s[1..], t);
    }
  }

  /** Whether `r` is `s` with some elements left out, the rest kept in order. */
  predicate IsSubsequence(r: seq<Transaction>, s: seq<Transaction>) {
    if r == [] then true
    else if s == [] then false
    else if r[0] == s[0] then IsSubsequence(r[1..], s[1..])
    else IsSubsequence(r, s[1..])
  }

  /** Kotlin's `filter`: the elements of `s` that satisfy `p`, in order. */
  function Filter(s: seq<Transaction>, p: Transaction -> bool): (r: seq<Transaction>)
    ensures forall i :: 0 <= i < |r| ==> p(r[i])
    ensures forall x :: multiset(r)[x] == if p(x) then multiset(s)[x] else 0
    ensures IsSubsequence(r, s)
  {
    if s == [] then []
    else
      var rest := Filter(s[1..], p);
      assert s == [s[0]] + s[1..];
      assert multiset(s) == multiset{s[0]} + multiset(s[1..]);
      if p(s[0]) then
        assert ([s[0]] + rest)[1..] == rest;
        assert multiset([s[0]] + rest) == multiset{s[0]} + multiset(rest);
        [s[0]] + rest
      else
        assert rest != [] ==> rest[0] != s[0];
        rest
  }

  /** Whether a transaction's instant lies in `lo..hi`, both ends included. */
  function InWindow(lo: int, hi: int): Transaction -> bool {
    (t: Transaction) => lo <= t.date.time <= hi
  }

  lemma {:induction false} FilterAppend(s: seq<Transaction>, t: seq<Transaction>, p: Transaction -> bool)
    ensures Filter(s + t, p) == Filter(s, p) + Filter(t, p)
  {
    if s == [] {
      assert s + t == t;
    } else {
      assert (s + t)[1..] == s[1..] + t;
      FilterAppend(s[1..], t, p);
    }
  }

  /** Two tests that agree on every element of `s` select the same elements. */
  lemma {:induction false} FilterAgrees(s: seq<Transaction>, p: Transaction -> bool, q: Transaction -> bool)
    requires forall i :: 0 <= i < |s| ==> p(s[i]) == q(s[i])
    ensures Filter(s, p) == Filter(s, q)
  {
    if s != [] {
      assert forall i :: 0 <= i < |s[1..]| ==> s[1..][i] == s[i + 1];
      FilterAgrees(s[1..], p, q);
    }
  }
}
