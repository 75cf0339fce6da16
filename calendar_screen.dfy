/**
 * The decision rules of the calendar screen (`SafeCalendarContent`): the month
 * grid under a Monday-first header, the look of each day cell, the selected
 * day's balance, and the month arrows.
 */
module CalendarScreen {
  import opened Wrappers
  import opened Entities
  import opened JavaTime
  import opened Calendar
  import opened Theme

  /** The header row: MONDAY .. SUNDAY, as `DayOfWeek` values, one per column of the 7-column grid. */
  const WeekHeader: seq<int> := [1, 2, 3, 4, 5, 6, 7]

  /** The weekday named above grid position `i`. */
  function HeaderAt(i: nat): (w: int)
    ensures 1 <= w <= 7 && w == i % 7 + 1
  {
    WeekHeader[i % 7]
  }

  /** The number of blank cells before day 1, as the screen computes it: 0 for Sunday, the `DayOfWeek` value otherwise. */
  function GridOffset(ym: YearMonth): (offset: int)
    ensures 0 <= offset <= 6
    ensures DayOfWeek(AtDay(ym, 1)) == 7 <==> offset == 0
    ensures offset != 0 ==> offset == DayOfWeek(AtDay(ym, 1))
  {
    var firstWeekDayOfMonth := DayOfWeek(AtDay(ym, 1));
    if firstWeekDayOfMonth == 7 then 0 else firstWeekDayOfMonth
  }

  /** The number of blanks a Monday-first header needs: one per weekday before the first day. */
  function AlignedGridOffset(ym: YearMonth): (offset: int)
    ensures 0 <= offset <= 6
    ensures offset == 0 <==> DayOfWeek(AtDay(ym, 1)) == 1
  {
    DayOfWeek(AtDay(ym, 1)) - 1
  }

  /** A grid cell: a blank, or day `day` of the month showing that number. */
  datatype GridCell = Blank | Day(day: int, date: LocalDate)

  /** The grid: `offset` blanks, then one cell per day of the month, cell `k` showing day `k + 1`. */
  function MonthGrid(ym: YearMonth, offset: nat): (cells: seq<GridCell>)
    ensures |cells| == offset + LengthOfMonth(ym)
    ensures forall i :: 0 <= i < offset ==> cells[i] == Blank
    ensures forall i :: offset <= i < |cells| ==> cells[i] == Day(i - offset + 1, AtDay(ym, i - offset + 1))
  {
    seq(offset, _ => Blank) + seq(LengthOfMonth(ym), (k: int) => Day(k + 1, AtDay(ym, k + 1)))
  }

  /** The grid as the screen lays it out. */
  function SourceGrid(ym: YearMonth): seq<GridCell> {
    MonthGrid(ym, GridOffset(ym))
  }

  /** The grid with the offset the header needs. */
  function AlignedGrid(ym: YearMonth): seq<GridCell> {
    MonthGrid(ym, AlignedGridOffset(ym))
  }

  lemma ModShift(x: int, k: nat)
    ensures (x % 7 + k) % 7 == (x + k) % 7
  {
    var q := x / 7;
    assert x == 7 * q + x % 7;
    assert x + k == 7 * q + (x % 7 + k);
  }

  /** With the aligned offset every day sits under its own weekday. */
  lemma AlignedGridMatchesHeader(ym: YearMonth, k: nat)
    requires k < LengthOfMonth(ym)
    ensures AlignedGrid(ym)[AlignedGridOffset(ym) + k] == Day(k + 1, AtDay(ym, k + 1))
    ensures HeaderAt(AlignedGridOffset(ym) + k) == DayOfWeek(AtDay(ym, k + 1))
  {
    AtDayConsecutive(ym, k + 1);
    ModShift(AtDay(ym, 1) + 3, k);
  }

  /** As laid out, every day sits under the weekday after its own, in every month. */
  lemma SourceGridShifted(ym: YearMonth, k: nat)
    requires k < LengthOfMonth(ym)
    ensures SourceGrid(ym)[GridOffset(ym) + k] == Day(k + 1, AtDay(ym, k + 1))
    ensures HeaderAt(GridOffset(ym) + k) == DayOfWeek(AtDay(ym, k + 1)) % 7 + 1
    ensures HeaderAt(GridOffset(ym) + k) != DayOfWeek(AtDay(ym, k + 1))
  {
    AtDayConsecutive(ym, k + 1);
    ShiftedWeekday(AtDay(ym, 1), k);
  }

  /** The screen's offset for a month whose first day is `first` puts day `k + 1` one weekday late. */
  lemma ShiftedWeekday(first: int, k: nat)
    ensures var w := DayOfWeek(first);
      HeaderAt((if w == 7 then 0 else w) + k) == DayOfWeek(first + k) % 7 + 1
  {
    ModShift(first + 3, k);
    ModShift(first + 4, k);
  }

  /** September 2025 starts on a Monday, gets one blank, and shows its 1st under Tuesday. */
  lemma SeptemberTwentyTwentyFive()
    ensures AtDay(YearMonth(2025, 9), 1) == 20332
    ensures DayOfWeek(AtDay(YearMonth(2025, 9), 1)) == 1
    ensures GridOffset(YearMonth(2025, 9)) == 1
    ensures SourceGrid(YearMonth(2025, 9))[1] == Day(1, 20332)
    ensures HeaderAt(1) == 2
    ensures AlignedGridOffset(YearMonth(2025, 9)) == 0 && AlignedGrid(YearMonth(2025, 9))[0] == Day(1, 20332)
  {
    assert AtDay(YearMonth(2025, 9), 1) == 20332;
    assert SourceGrid(YearMonth(2025, 9))[1 + 0] == Day(0 + 1, AtDay(YearMonth(2025, 9), 0 + 1));
    assert AlignedGrid(YearMonth(2025, 9))[0 + 0] == Day(0 + 1, AtDay(YearMonth(2025, 9), 0 + 1));
  }

  datatype Background = SelectedBackground | TintBackground(tone: Tone) | TransparentBackground

  /** A cell's background: selected first, then a tint of its total's tone when the day has transactions, else none. */
  function CellBackground(date: LocalDate, selected: LocalDate, totals: map<LocalDate, real>): (b: Background)
    ensures b == SelectedBackground <==> date == selected
    ensures b.TintBackground? <==> date != selected && date in totals
    ensures b.TintBackground? ==> b.tone == ToneOf(totals[date])
  {
    if date == selected then SelectedBackground
    else if date in totals then TintBackground(ToneOf(TotalOr0(totals, date)))
    else TransparentBackground
  }

  /** The dot under a cell's number: present iff the day has transactions, in its total's tone. */
  function CellDot(date: LocalDate, totals: map<LocalDate, real>): (dot: Option<Tone>)
    ensures dot.Some? <==> date in totals
    ensures dot.Some? ==> dot.value == ToneOf(totals[date])
  {
    if date in totals then Some(ToneOf(TotalOr0(totals, date))) else None
  }

  /** "Balance del día": the selected day's total, 0 when it has none. */
  function DayBalance(totals: map<LocalDate, real>, selected: LocalDate): (b: real)
    ensures selected in totals ==> b == totals[selected]
    ensures selected !in totals ==> b == 0.0
  {
    TotalOr0(totals, selected)
  }

  /**
   * On the totals of a snapshot, a cell has a dot iff some transaction falls on
   * its day, and the dot's tone is that of the day's signed total.
   */
  lemma CellReflectsSnapshot(z: Zone, s: seq<Transaction>, date: LocalDate)
    ensures CellDot(date, DailyTotals(z, s)).Some? <==> exists i :: 0 <= i < |s| && DayOf(z, s[i].date.time) == date
    ensures CellDot(date, DailyTotals(z, s)).Some? ==>
      CellDot(date, DailyTotals(z, s)).value == ToneOf(SignedTotal(Filter(s, OnDay(z, date))))
  {
    DailyTotalsKeys(z, s, date);
    DailyTotalsValue(z, s, date);
  }

  /** The day balance shown is the signed total of the transaction list shown under it. */
  lemma DayBalanceIsListTotal(z: Zone, s: seq<Transaction>, selected: LocalDate)
    requires SelectedDayBounds(z, selected).Some?
    ensures DayBalance(DailyTotals(z, s), selected) == SignedTotal(TransactionsForDate(z, s, selected))
  {
    SelectedDayAgreesWithTotals(z, s, selected);
  }

  /** The two arrows undo each other. */
  lemma MonthArrowsInverse(ym: YearMonth)
    ensures PlusOneMonth(MinusOneMonth(ym)) == ym
    ensures MinusOneMonth(PlusOneMonth(ym)) == ym
  {
    MonthIndexInjective(PlusOneMonth(MinusOneMonth(ym)), ym);
    MonthIndexInjective(MinusOneMonth(PlusOneMonth(ym)), ym);
  }

  /** The screen's own state: the month on show, over the calendar view model. */
  class CalendarScreenState {
    const vm: CalendarViewModel
    var currentMonth: YearMonth

    /** `YearMonth.now()` is the month `now` of the device clock. */
    constructor (vm: CalendarViewModel, now: YearMonth)
      ensures this.vm == vm && currentMonth == now
    {
      this.vm := vm;
      currentMonth := now;
    }

    /** The left arrow. */
    method PreviousMonth()
      modifies this
      ensures currentMonth == MinusOneMonth(old(currentMonth))
    {
      currentMonth := MinusOneMonth(currentMonth);
    }

    /** The right arrow. */
    method NextMonth()
      modifies this
      ensures currentMonth == PlusOneMonth(old(currentMonth))
    {
      currentMonth := PlusOneMonth(currentMonth);
    }

    /** A click on cell `day` of the month selects that date in the view model. */
    method ClickDay(day: nat)
      requires day < LengthOfMonth(currentMonth)
      modifies vm
      ensures currentMonth == old(currentMonth)
      ensures vm.selectedDate == AtDay(currentMonth, day + 1)
      ensures vm.transactionsForSelectedDate == TransactionsForDate(vm.zone, vm.monthTransactions, vm.selectedDate)
      ensures vm.monthTransactions == old(vm.monthTransactions)
      ensures vm.dailyTransactionTotals == old(vm.dailyTransactionTotals)
    {
      var date := AtDay(currentMonth, day + 1);
      vm.SelectDate(date);
    }
  }
}
