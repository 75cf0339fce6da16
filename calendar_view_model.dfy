/**
 * `CalendarViewModel`: keeps the last snapshot of the table, the signed total of
 * each local day that has transactions, and the transactions of the selected day.
 */
module Calendar {
  import opened Wrappers
  import opened Entities
  import opened JavaTime

  /** The amount `processDailyTotals` adds for `t`; it tests the type by its name. */
  function DailyAmount(t: Transaction): (a: real)
    ensures a == Signed(t)
  {
    if TypeName(t.kind) == "INCOME" then t.amount else -t.amount
  }

  /** The total of day `d` in `m`, with an absent day read as 0 (`?: 0.0`). */
  function TotalOr0(m: map<LocalDate, real>, d: LocalDate): real {
    if d in m then m[d] else 0.0
  }

  /** One step of `processDailyTotals`: add `t`'s amount to the total of its local day. */
  function AddToDay(z: Zone, m: map<LocalDate, real>, t: Transaction): map<LocalDate, real> {
    var d := DayOf(z, t.date.time);
    m[d := TotalOr0(m, d) + DailyAmount(t)]
  }

  /** The map `processDailyTotals` builds from `s`, taking the transactions in order. */
  function DailyTotals(z: Zone, s: seq<Transaction>): map<LocalDate, real> {
    if s == [] then map[] else AddToDay(z, DailyTotals(z, s[..|s| - 1]), s[|s| - 1])
  }

  /** Whether a transaction falls on local day `d`. */
  function OnDay(z: Zone, d: LocalDate): Transaction -> bool {
    (t: Transaction) => DayOf(z, t.date.time) == d
  }

  /**
   * The first and last millisecond of day `d`: its start, and the next day's
   * start minus one. `Date.from` throws when either does not fit a `long`.
   */
  function SelectedDayBounds(z: Zone, d: LocalDate): (r: Option<(int, int)>)
    ensures r.Some? <==> IsLong(StartOfDay(z, d)) && IsLong(StartOfDay(z, d + 1) - 1)
  {
    var lo := StartOfDay(z, d);
    var hi := StartOfDay(z, d + 1) - 1;
    if IsLong(lo) && IsLong(hi) then Some((lo, hi)) else None
  }

  /**
   * `updateTransactionsForSelectedDate`: the snapshot filtered to the selected
   * day's milliseconds; a failure while computing the bounds gives the empty list.
   */
  function TransactionsForDate(z: Zone, s: seq<Transaction>, d: LocalDate): (r: seq<Transaction>)
    ensures IsSubsequence(r, s)
    ensures SelectedDayBounds(z, d).None? ==> r == []
    ensures forall i :: 0 <= i < |r| ==> DayOf(z, r[i].date.time) == d
  {
    match SelectedDayBounds(z, d)
    case None => []
    case Some((lo, hi)) =>
      var r := Filter(s, InWindow(lo, hi));
      forall i | 0 <= i < |r| ensures DayOf(z, r[i].date.time) == d {
        DayWindow(z, d, r[i].date.time);
      }
      r
  }

  /** When the bounds can be computed, the selected-day list is exactly the snapshot's transactions of that local day. */
  lemma SelectedDayIsLocalDay(z: Zone, s: seq<Transaction>, d: LocalDate)
    requires SelectedDayBounds(z, d).Some?
    ensures TransactionsForDate(z, s, d) == Filter(s, OnDay(z, d))
  {
    var (lo, hi) := SelectedDayBounds(z, d).value;
    forall i | 0 <= i < |s| ensures InWindow(lo, hi)(s[i]) == OnDay(z, d)(s[i]) {
      DayWindow(z, d, s[i].date.time);
    }
    FilterAgrees(s, InWindow(lo, hi), OnDay(z, d));
  }

  /**
   * The calendar's two views of a day agree: the selected-day list is nonempty
   * iff the day has a total, and the list's signed total is that total.
   */
  lemma SelectedDayAgreesWithTotals(z: Zone, s: seq<Transaction>, d: LocalDate)
    requires SelectedDayBounds(z, d).Some?
    ensures TransactionsForDate(z, s, d) != [] <==> d in DailyTotals(z, s)
    ensures SignedTotal(TransactionsForDate(z, s, d)) == TotalOr0(DailyTotals(z, s), d)
  {
    SelectedDayIsLocalDay(z, s, d);
    DailyTotalsValue(z, s, d);
    DailyTotalsKeys(z, s, d);
    var r := Filter(s, OnDay(z, d));
    if r != [] {
      assert r[0] in multiset(r);
      assert r[0] in multiset(s);
      var i :| 0 <= i < |s| && s[i] == r[0];
      assert DayOf(z, s[i].date.time) == d;
    }
    if exists i :: 0 <= i < |s| && DayOf(z, s[i].date.time) == d {
      var i :| 0 <= i < |s| && DayOf(z, s[i].date.time) == d;
      assert s[i] in multiset(s);
      assert s[i] in multiset(r);
    }
  }

  /** A day is a key iff some transaction of the snapshot falls on it: no day is present with a made-up 0. */
  lemma {:induction false} DailyTotalsKeys(z: Zone, s: seq<Transaction>, d: LocalDate)
    ensures d in DailyTotals(z, s) <==> exists i :: 0 <= i < |s| && DayOf(z, s[i].date.time) == d
  {
    if s != [] {
      var init := s[..|s| - 1];
      DailyTotalsKeys(z, init, d);
      if d in DailyTotals(z, init) {
        var i :| 0 <= i < |init| && DayOf(z, init[i].date.time) == d;
        assert s[i] == init[i];
      }
      if exists i :: 0 <= i < |s| && DayOf(z, s[i].date.time) == d {
        var i :| 0 <= i < |s| && DayOf(z, s[i].date.time) == d;
        if i < |s| - 1 {
          assert init[i] == s[i];
        }
      }
    }
  }

  /** The total of every day, present or not, is the signed total of that day's transactions. */
  lemma {:induction false} DailyTotalsValue(z: Zone, s: seq<Transaction>, d: LocalDate)
    ensures TotalOr0(DailyTotals(z, s), d) == SignedTotal(Filter(s, OnDay(z, d)))
  {
    if s != [] {
      var init, t := s[..|s| - 1], s[|s| - 1];
      assert s == init + [t];
      DailyTotalsValue(z, init, d);
      FilterAppend(init, [t], OnDay(z, d));
      SignedTotalAppend(Filter(init, OnDay(z, d)), Filter([t], OnDay(z, d)));
      assert Filter([t], OnDay(z, d)) == if OnDay(z, d)(t) then [t] else [] by {
        assert [t][1..] == [];
      }
    }
  }

  /** The sum of the map's values taken along `ks`. */
  function SumAlong(m: map<LocalDate, real>, ks: seq<LocalDate>): real
    requires forall i :: 0 <= i < |ks| ==> ks[i] in m
  {
    if ks == [] then 0.0 else m[ks[0]] + SumAlong(m, ks[1..])
  }

  predicate Distinct(ks: seq<LocalDate>) {
    forall i, j :: 0 <= i < j < |ks| ==> ks[i] != ks[j]
  }

  /** Adding `a` to one key's value adds `a` to the sum along any repetition-free list that holds the key. */
  lemma {:induction false} SumAlongUpdate(m: map<LocalDate, real>, ks: seq<LocalDate>, d: LocalDate, a: real)
    requires forall i :: 0 <= i < |ks| ==> ks[i] in m
    requires Distinct(ks) && d in ks && d in m
    ensures SumAlong(m[d := m[d] + a], ks) == SumAlong(m, ks) + a
  {
    if ks[0] == d {
      assert d !in ks[1..];
      SumAlongSame(m, m[d := m[d] + a], ks[1..]);
    } else {
      SumAlongUpdate(m, ks[1..], d, a);
    }
  }

  /** Maps that agree along `ks` have the same sum along it. */
  lemma {:induction false} SumAlongSame(m: map<LocalDate, real>, m': map<LocalDate, real>, ks: seq<LocalDate>)
    requires forall i :: 0 <= i < |ks| ==> ks[i] in m && ks[i] in m' && m[ks[i]] == m'[ks[i]]
    ensures SumAlong(m, ks) == SumAlong(m', ks)
  {
    if ks != [] {
      SumAlongSame(m, m', ks[1..]);
    }
  }

  /** Taking one key out of the list takes its value out of the sum. */
  lemma {:induction false} SumAlongRemove(m: map<LocalDate, real>, ks: seq<LocalDate>, i: nat)
    requires forall j :: 0 <= j < |ks| ==> ks[j] in m
    requires i < |ks|
    ensures SumAlong(m, ks) == SumAlong(m, ks[..i] + ks[i + 1..]) + m[ks[i]]
  {
    if i > 0 {
      SumAlongRemove(m, ks[1..], i - 1);
      assert ks[1..][..i - 1] + ks[1..][i..] == (ks[..i] + ks[i + 1..])[1..];
    } else {
      assert ks[..i] + ks[i + 1..] == ks[1..];
    }
  }

  /** Taking the `i`-th key out of a repetition-free list leaves exactly the other keys, still without repetition. */
  lemma RemoveKey(ks: seq<LocalDate>, i: nat)
    requires Distinct(ks) && i < |ks|
    ensures Distinct(ks[..i] + ks[i + 1..])
    ensures forall e :: e in ks[..i] + ks[i + 1..] <==> e in ks && e != ks[i]
  {
    var rest := ks[..i] + ks[i + 1..];
    assert forall j :: 0 <= j < |rest| ==> rest[j] == (if j < i then ks[j] else ks[j + 1]);
    forall e | e in ks && e != ks[i] ensures e in rest {
      var j :| 0 <= j < |ks| && ks[j] == e;
      if j < i {
        assert rest[j] == e;
      } else {
        assert rest[j - 1] == e;
      }
    }
  }

  /** The day totals add up to the signed total of the whole snapshot, along any enumeration of the days. */
  lemma {:induction false} DailyTotalsAddUp(z: Zone, s: seq<Transaction>, ks: seq<LocalDate>)
    requires Distinct(ks)
    requires forall i :: 0 <= i < |ks| ==> ks[i] in DailyTotals(z, s)
    requires forall d :: d in DailyTotals(z, s) ==> d in ks
    ensures SumAlong(DailyTotals(z, s), ks) == SignedTotal(s)
  {
    if s != [] {
      var init, t := s[..|s| - 1], s[|s| - 1];
      assert s == init + [t];
      SignedTotalAppend(init, [t]);
      assert SignedTotal([t]) == Signed(t) by {
        assert [t][1..] == [];
      }
      var ks' := SumAlongAdd(DailyTotals(z, init), ks, DayOf(z, t.date.time), DailyAmount(t));
      DailyTotalsAddUp(z, init, ks');
    }
  }

  /**
   * Adding `a` to the value of `d` (a new key starting from 0) adds `a` to the
   * sum; `ks'` enumerates the keys of the map before the step.
   */
  lemma SumAlongAdd(m: map<LocalDate, real>, ks: seq<LocalDate>, d: LocalDate, a: real) returns (ks': seq<LocalDate>)
    requires Distinct(ks)
    requires forall i :: 0 <= i < |ks| ==> ks[i] in m[d := TotalOr0(m, d) + a]
    requires forall e :: e in m[d := TotalOr0(m, d) + a] ==> e in ks
    ensures Distinct(ks')
    ensures forall i :: 0 <= i < |ks'| ==> ks'[i] in m
    ensures forall e :: e in m ==> e in ks'
    ensures SumAlong(m[d := TotalOr0(m, d) + a], ks) == SumAlong(m, ks') + a
  {
    var m' := m[d := TotalOr0(m, d) + a];
    if d in m {
      ks' := ks;
      SumAlongUpdate(m, ks, d, a);
    } else {
      assert d in m';
      assert d in ks;
      var i :| 0 <= i < |ks| && ks[i] == d;
      ks' := ks[..i] + ks[i + 1..];
      RemoveKey(ks, i);
      forall e | e in m ensures e in ks' {
        assert e in m' && e != d;
        assert e in ks;
      }
      SumAlongRemove(m', ks, i);
      SumAlongSame(m, m', ks');
    }
  }

  /**
   * The state of `CalendarViewModel`: the stored snapshot (`_monthTransactions`),
   * the selected date and the two derived values. A view model built without a
   * repository subscribes to nothing.
   */
  class CalendarViewModel {
    const subscribed: bool
    const zone: Zone
    var selectedDate: LocalDate
    var transactionsForSelectedDate: seq<Transaction>
    var dailyTransactionTotals: map<LocalDate, real>
    var monthTransactions: seq<Transaction>

    /** `CalendarViewModel(repository)`, on the day `today` of the device clock. */
    constructor (hasRepository: bool, today: LocalDate, zone: Zone)
      ensures this.subscribed == hasRepository && this.zone == zone
      ensures selectedDate == today
      ensures transactionsForSelectedDate == [] && dailyTransactionTotals == map[] && monthTransactions == []
    {
      subscribed := hasRepository;
      this.zone := zone;
      selectedDate := today;
      transactionsForSelectedDate := [];
      dailyTransactionTotals := map[];
      monthTransactions := [];
    }

    /** `selectDate`: only the selected date and its list change. */
    method SelectDate(date: LocalDate)
      modifies this
      ensures selectedDate == date
      ensures transactionsForSelectedDate == TransactionsForDate(zone, monthTransactions, date)
      ensures monthTransactions == old(monthTransactions)
      ensures dailyTransactionTotals == old(dailyTransactionTotals)
    {
      selectedDate := date;
      UpdateTransactionsForSelectedDate();
    }

    /** `updateTransactionsForSelectedDate`. */
    method UpdateTransactionsForSelectedDate()
      modifies this`transactionsForSelectedDate
      ensures transactionsForSelectedDate == TransactionsForDate(zone, monthTransactions, selectedDate)
    {
      transactionsForSelectedDate := TransactionsForDate(zone, monthTransactions, selectedDate);
    }

    /**
     * The `collect` handler: one emission of `getAllTransactions` replaces the
     * snapshot, then the day totals, then the selected-day list. Without a
     * subscription an emission never reaches this view model.
     */
    method OnTransactions(transactions: seq<Transaction>)
      modifies this
      ensures selectedDate == old(selectedDate)
      ensures !subscribed ==>
        && monthTransactions == old(monthTransactions)
        && dailyTransactionTotals == old(dailyTransactionTotals)
        && transactionsForSelectedDate == old(transactionsForSelectedDate)
      ensures subscribed ==>
        && monthTransactions == transactions
        && dailyTransactionTotals == DailyTotals(zone, transactions)
        && transactionsForSelectedDate == TransactionsForDate(zone, transactions, selectedDate)
    {
      if subscribed {
        monthTransactions := transactions;
        dailyTransactionTotals := ProcessDailyTotals(transactions);
        UpdateTransactionsForSelectedDate();
      }
    }

    /** `processDailyTotals`: one pass over the snapshot, accumulating into a fresh map. */
    method ProcessDailyTotals(transactions: seq<Transaction>) returns (totals: map<LocalDate, real>)
      ensures totals == DailyTotals(zone, transactions)
      ensures forall d :: d in totals <==> exists i :: 0 <= i < |transactions| && DayOf(zone, transactions[i].date.time) == d
      ensures forall d :: d in totals ==> totals[d] == SignedTotal(Filter(transactions, OnDay(zone, d)))
    {
      totals := map[];
      var i := 0;
      while i < |transactions|
        invariant 0 <= i <= |transactions|
        invariant totals == DailyTotals(zone, transactions[..i])
      {
        var t := transactions[i];
        var localDate := DayOf(zone, t.date.time);
        var amount := if TypeName(t.kind) == "INCOME" then t.amount else -t.amount;
        totals := totals[localDate := (if localDate in totals then totals[localDate] else 0.0) + amount];
        assert transactions[..i + 1][..i] == transactions[..i];
        i := i + 1;
      }
      assert transactions[..i] == transactions;
      forall d ensures d in totals <==> exists i :: 0 <= i < |transactions| && DayOf(zone, transactions[i].date.time) == d {
        DailyTotalsKeys(zone, transactions, d);
      }
      forall d | d in totals ensures totals[d] == SignedTotal(Filter(transactions, OnDay(zone, d))) {
        DailyTotalsValue(zone, transactions, d);
      }
    }
  }
}
