/**
 * The `transactions` table behind `TransactionDao`: the four mutations change the
 * table in place, the three list queries and the two range sums are functions of
 * its rows. SQL leaves the order of rows with equal dates open; the model keeps
 * such rows in table order, and no contract depends on that choice.
 */
module Store {
  import opened Wrappers
  import opened Entities

  /** Newest first: the `ORDER BY date DESC` of the list queries. */
  predicate SortedByDateDesc(s: seq<Transaction>) {
    forall i, j :: 0 <= i < j < |s| ==> s[i].date.time >= s[j].date.time
  }

  /** Placing `t` before the first row that is not newer keeps the order. */
  function InsertByDate(t: Transaction, s: seq<Transaction>): (r: seq<Transaction>)
    requires SortedByDateDesc(s)
    ensures SortedByDateDesc(r)
    ensures multiset(r) == multiset(s) + multiset{t}
    ensures forall x :: x in r ==> x == t || x in s
  {
    if s == [] || s[0].date.time <= t.date.time then
      SortedCons(t, s);
      [t] + s
    else
      var rest := InsertByDate(t, s[1..]);
      assert s == [s[0]] + s[1..];
      forall k | 0 <= k < |rest| ensures s[0].date.time >= rest[k].date.time {
        assert rest[k] in rest;
      }
      SortedCons(s[0], rest);
      [s[0]] + rest
  }

  lemma SortedCons(x: Transaction, s: seq<Transaction>)
    requires SortedByDateDesc(s)
    requires forall k :: 0 <= k < |s| ==> x.date.time >= s[k].date.time
    ensures SortedByDateDesc([x] + s)
  {
    forall i, j | 0 <= i < j < |[x] + s|
      ensures ([x] + s)[i].date.time >= ([x] + s)[j].date.time
    {
      if i > 0 {
        assert ([x] + s)[i] == s[i - 1];
      }
      assert ([x] + s)[j] == s[j - 1];
    }
  }

  /** The rows of `s`, newest first. */
  function SortByDateDesc(s: seq<Transaction>): (r: seq<Transaction>)
    ensures SortedByDateDesc(r)
    ensures multiset(r) == multiset(s)
  {
    if s == [] then []
    else
      assert s == [s[0]] + s[1..];
      InsertByDate(s[0], SortByDateDesc(s[1..]))
  }

  /** Whether some row of `s` has primary key `id`. */
  predicate HasId(s: seq<Transaction>, id: int) {
    exists i :: 0 <= i < |s| && s[i].id == id
  }

  /** `DELETE ... WHERE id = :id`: every row but the one with that key. */
  function WithoutId(s: seq<Transaction>, id: int): (r: seq<Transaction>)
    ensures forall x :: multiset(r)[x] == if x.id == id then 0 else multiset(s)[x]
    ensures IsSubsequence(r, s)
  {
    Filter(s, (x: Transaction) => x.id != id)
  }

  /** `UPDATE ... WHERE id = :t.id`: the row with that key becomes `t`, the others stay. */
  function ReplaceById(s: seq<Transaction>, t: Transaction): (r: seq<Transaction>)
    ensures |r| == |s|
    ensures forall i :: 0 <= i < |s| ==> r[i] == if s[i].id == t.id then t else s[i]
  {
    seq(|s|, i requires 0 <= i < |s| => if s[i].id == t.id then t else s[i])
  }

  /** The rows a range sum adds. Both filters compare the type; the second also the category. */
  datatype SumFilter =
    | ByType(kind: TransactionType)
    | ByCategoryAndType(category: TransactionCategory, kind: TransactionType)

  /** The `WHERE` clause of a range sum, with SQL's inclusive `BETWEEN`. */
  predicate Matches(f: SumFilter, start: Date, end: Date, t: Transaction) {
    && t.kind == f.kind
    && (f.ByCategoryAndType? ==> t.category == f.category)
    && start.time <= t.date.time <= end.time
  }

  /** The rows of `s` that the `WHERE` clause selects, in order. */
  function Matching(s: seq<Transaction>, f: SumFilter, start: Date, end: Date): (r: seq<Transaction>)
    ensures forall i :: 0 <= i < |r| ==> Matches(f, start, end, r[i])
    ensures r == [] <==> forall i :: 0 <= i < |s| ==> !Matches(f, start, end, s[i])
  {
    if s == [] then []
    else
      var rest := Matching(s[1..], f, start, end);
      assert forall i :: 1 <= i < |s| ==> s[i] == s[1..][i - 1];
      if Matches(f, start, end, s[0]) then [s[0]] + rest else rest
  }

  /** The `WHERE` clause of a range sum as a test on one row. */
  function Selects(f: SumFilter, start: Date, end: Date): Transaction -> bool {
    (x: Transaction) => Matches(f, start, end, x)
  }

  /** The rows a range sum adds are the table filtered by its `WHERE` clause: every matching row, each once, in order. */
  lemma {:induction false} MatchingIsFilter(s: seq<Transaction>, f: SumFilter, start: Date, end: Date)
    ensures Matching(s, f, start, end) == Filter(s, Selects(f, start, end))
  {
    if s != [] {
      MatchingIsFilter(s[1..], f, start, end);
    }
  }

  /**
   * `SELECT SUM(amount) ... WHERE ...`, evaluated as SQL does: the aggregate is
   * NULL until a first row is selected, and then adds up the selected amounts.
   */
  function RangeSum(s: seq<Transaction>, f: SumFilter, start: Date, end: Date): (r: Option<real>)
    ensures r.None? <==> Matching(s, f, start, end) == []
    ensures r.Some? ==> r.value == Total(Matching(s, f, start, end))
  {
    if s == [] then None
    else
      var rest := RangeSum(s[1..], f, start, end);
      if Matches(f, start, end, s[0]) then Some(s[0].amount + rest.GetOr(0.0)) else rest
  }

  /** The outcome of an insert: the key of the new row, or an `ABORT` on a duplicate key. */
  datatype InsertResult = Inserted(id: int) | Conflict

  /** The table: its rows in insertion order and the next key `AUTOINCREMENT` hands out. */
  class TransactionDao {
    var rows: seq<Transaction>
    var nextId: int

    /** Keys are never 0, pairwise distinct, and below the next generated key. */
    ghost predicate Valid()
      reads this
    {
      && nextId >= 1
      && (forall i :: 0 <= i < |rows| ==> rows[i].id != 0 && rows[i].id < nextId)
      && (forall i, j :: 0 <= i < j < |rows| ==> rows[i].id != rows[j].id)
    }

    /** A new, empty database. */
    constructor ()
      ensures Valid()
      ensures rows == []
    {
      rows := [];
      nextId := 1;
    }

    /**
     * `@Insert`: an `id` of 0 means "generate one", which picks a key larger than any
     * used so far; an explicit key already in the table aborts the insert.
     */
    method InsertTransaction(t: Transaction) returns (result: InsertResult)
      requires Valid()
      modifies this
      ensures Valid()
      ensures t.id != 0 && HasId(old(rows), t.id) ==>
        result == Conflict && rows == old(rows) && nextId == old(nextId)
      ensures t.id == 0 ==>
        result == Inserted(old(nextId)) && rows == old(rows) + [t.(id := old(nextId))]
      ensures t.id != 0 && !HasId(old(rows), t.id) ==>
        result == Inserted(t.id) && rows == old(rows) + [t]
      ensures result.Inserted? ==> !HasId(old(rows), result.id)
    {
      if t.id != 0 && HasId(rows, t.id) {
        return Conflict;
      }
      var id := if t.id == 0 then nextId else t.id;
      rows := rows + [t.(id := id)];
      nextId := if id + 1 > nextId then id + 1 else nextId;
      result := Inserted(id);
    }

    /** `@Update`: replaces the row whose key is `t.id`; without one, nothing changes. */
    method UpdateTransaction(t: Transaction)
      requires Valid()
      modifies this
      ensures Valid()
      ensures rows == ReplaceById(old(rows), t) && nextId == old(nextId)
    {
      rows := ReplaceById(rows, t);
    }

    /** `@Delete`: removes the row whose key is `t.id`, whatever its other fields. */
    method DeleteTransaction(t: Transaction)
      requires Valid()
      modifies this
      ensures Valid()
      ensures rows == WithoutId(old(rows), t.id) && nextId == old(nextId)
    {
      var r := WithoutId(rows, t.id);
      forall i | 0 <= i < |r|
        ensures r[i].id != 0 && r[i].id < nextId
      {
        assert r[i] in multiset(r);
      }
      SubsequenceKeepsDistinctIds(r, rows);
      rows := r;
    }

    /** `DELETE FROM transactions`. The `AUTOINCREMENT` counter is kept. */
    method DeleteAllTransactions()
      requires Valid()
      modifies this
      ensures Valid()
      ensures rows == [] && nextId == old(nextId)
      ensures GetAllTransactions() == []
      ensures forall kind :: GetTransactionsByType(kind) == []
      ensures forall category :: GetTransactionsByCategory(category) == []
    {
      rows := [];
    }

    /** `SELECT * FROM transactions ORDER BY date DESC`. */
    function GetAllTransactions(): (r: seq<Transaction>)
      reads this
      ensures SortedByDateDesc(r)
      ensures multiset(r) == multiset(rows)
    {
      SortByDateDesc(rows)
    }

    /** `SELECT * ... WHERE type = :type ORDER BY date DESC`. */
    function GetTransactionsByType(kind: TransactionType): (r: seq<Transaction>)
      reads this
      ensures SortedByDateDesc(r)
      ensures forall x :: multiset(r)[x] == if x.kind == kind then multiset(rows)[x] else 0
    {
      SortByDateDesc(Filter(rows, (x: Transaction) => x.kind == kind))
    }

    /** `SELECT * ... WHERE category = :category ORDER BY date DESC`. */
    function GetTransactionsByCategory(category: TransactionCategory): (r: seq<Transaction>)
      reads this
      ensures SortedByDateDesc(r)
      ensures forall x :: multiset(r)[x] == if x.category == category then multiset(rows)[x] else 0
    {
      SortByDateDesc(Filter(rows, (x: Transaction) => x.category == category))
    }

    /** `SUM(amount) ... WHERE type = :type AND date BETWEEN :startDate AND :endDate`; NULL when nothing matches. */
    function GetTotalAmountByTypeAndDateRange(kind: TransactionType, startDate: Date, endDate: Date): (r: Option<real>)
      reads this
      ensures r.None? <==> forall i :: 0 <= i < |rows| ==> !(rows[i].kind == kind && startDate.time <= rows[i].date.time <= endDate.time)
      ensures r.Some? ==> r.value == Total(Filter(rows, Selects(ByType(kind), startDate, endDate)))
    {
      MatchingIsFilter(rows, ByType(kind), startDate, endDate);
      RangeSum(rows, ByType(kind), startDate, endDate)
    }

    /** The same sum restricted to one category as well; NULL when nothing matches. */
    function GetTotalAmountByCategoryAndDateRange(category: TransactionCategory, kind: TransactionType, startDate: Date, endDate: Date): (r: Option<real>)
      reads this
      ensures r.None? <==> forall i :: 0 <= i < |rows| ==>
        !(rows[i].category == category && rows[i].kind == kind && startDate.time <= rows[i].date.time <= endDate.time)
      ensures r.Some? ==> r.value == Total(Filter(rows, Selects(ByCategoryAndType(category, kind), startDate, endDate)))
    {
      MatchingIsFilter(rows, ByCategoryAndType(category, kind), startDate, endDate);
      RangeSum(rows, ByCategoryAndType(category, kind), startDate, endDate)
    }
  }

  /** Leaving rows out cannot make two keys equal. */
  lemma {:induction false} SubsequenceKeepsDistinctIds(r: seq<Transaction>, s: seq<Transaction>)
    requires IsSubsequence(r, s)
    requires forall i, j :: 0 <= i < j < |s| ==> s[i].id != s[j].id
    ensures forall i, j :: 0 <= i < j < |r| ==> r[i].id != r[j].id
  {
    if r != [] && s != [] {
      if r[0] == s[0] {
        SubsequenceKeepsDistinctIds(r[1..], s[1..]);
        SubsequenceElements(r[1..], s[1..]);
        forall j | 0 < j < |r| ensures r[0].id != r[j].id {
          assert r[j] == r[1..][j - 1];
        }
      } else {
        SubsequenceKeepsDistinctIds(r, s[1..]);
      }
    }
  }

  /** Every element of a subsequence is an element of the sequence. */
  lemma {:induction false} SubsequenceElements(r: seq<Transaction>, s: seq<Transaction>)
    requires IsSubsequence(r, s)
    ensures forall i :: 0 <= i < |r| ==> exists j :: 0 <= j < |s| && s[j] == r[i]
  {
    if r != [] && s != [] {
      if r[0] == s[0] {
        SubsequenceElements(r[1..], s[1..]);
        forall i | 0 < i < |r| ensures exists j :: 0 <= j < |s| && s[j] == r[i] {
          assert r[i] == r[1..][i - 1];
          var j :| 0 <= j < |s[1..]| && s[1..][j] == r[i];
          assert s[j + 1] == r[i];
        }
        assert s[0] == r[0];
      } else {
        SubsequenceElements(r, s[1..]);
        forall i | 0 <= i < |r| ensures exists j :: 0 <= j < |s| && s[j] == r[i] {
          var j :| 0 <= j < |s[1..]| && s[1..][j] == r[i];
          assert s[j + 1] == r[i];
        }
      }
    }
  }
}
