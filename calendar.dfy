/**
  The month-grid date picker: a visible month that the user steps back and forth, a
  grid of that month's days aligned under the Su..Sa header, and single-date selection
  gated by the parent's "disabled" predicate. The selection and the predicate are
  props owned by the parent; the widget only reports a clicked date.
 */
module Calendar {
  import opened Options
  import opened Dates

  /** A grid cell: a blank placeholder (`null`) or a day of the month. */
  datatype Cell = Blank | Day(n: int)

  /** The grid of month `m` of year `y`: the weekday of its 1st in blanks, then its days in order. */
  function Grid(y: int, m: int): seq<Cell>
    requires 0 <= m < 12
  {
    seq(Weekday(Date(y, m, 1)), _ => Blank) + seq(DaysInMonth(y, m), i => Day(i + 1))
  }

  /**
    The grid is as long as the leading blanks plus the month, holds blanks exactly
    before the 1st, and day `d` at index `first + d - 1`.
   */
  lemma GridShape(y: int, m: int)
    requires 0 <= m < 12
    ensures var g, first := Grid(y, m), Weekday(Date(y, m, 1));
            && |g| == first + DaysInMonth(y, m) <= 37
            && (forall i :: 0 <= i < first ==> g[i] == Blank)
            && (forall i :: first <= i < |g| ==> g[i] == Day(i - first + 1))
  {
  }

  /**
    Every day sits in the column of its weekday: with seven columns headed Su..Sa,
    day `d` is at an index whose remainder modulo 7 is the weekday of (y, m, d).
   */
  lemma {:induction false} GridColumnIsWeekday(y: int, m: int, d: int)
    requires 0 <= m < 12 && 1 <= d <= DaysInMonth(y, m)
    ensures var i := Weekday(Date(y, m, 1)) + d - 1;
            i < |Grid(y, m)| && Grid(y, m)[i] == Day(d) && i % 7 == Weekday(Date(y, m, d))
  {
    DayNumberInMonth(y, m, d);
    ModShift7(DayNumber(y, m, 1) + 4, d - 1);
  }

  /** The leap-year and weekday examples the grid must get right. */
  lemma KnownMonths()
    ensures DaysInMonth(2024, 1) == 29 && DaysInMonth(2023, 1) == 28
    ensures DaysInMonth(2000, 1) == 29 && DaysInMonth(1900, 1) == 28
    ensures Weekday(Date(2025, 5, 2)) == 1
  {
  }

  class CalendarView {
    /** `currentMonth`: the date whose month is on display. */
    var current: Date
    /** The `selected` prop. */
    var selected: Option<Date>
    /** The `disabled` prop. */
    var disabled: Option<Date -> bool>

    ghost predicate Valid()
      reads this
    {
      ValidDate(current)
    }

    /** The widget opens on the month of `today`. */
    constructor (today: Date, selected: Option<Date>, disabled: Option<Date -> bool>)
      requires ValidDate(today)
      ensures Valid()
      ensures current == today && this.selected == selected && this.disabled == disabled
    {
      current := today;
      this.selected := selected;
      this.disabled := disabled;
    }

    /** `daysInMonth`: the day before the 1st of the next month, in the visible month. */
    function DaysInView(): (n: int)
      reads this
      requires Valid()
      ensures 28 <= n <= 31
      ensures var next := NextMonthStart(current);
              DayNumber(current.year, current.month, n) + 1 == DayNumber(next.year, next.month, 1)
    {
      LastDayThenNextMonth(current.year, current.month);
      DaysInMonth(current.year, current.month)
    }

    /** `firstDayOfMonth`: the weekday (0 = Sunday) of the 1st of the visible month. */
    function FirstDayOfMonth(): (w: int)
      reads this
      requires Valid()
      ensures 0 <= w < 7
    {
      Weekday(Date(current.year, current.month, 1))
    }

    /** `prevMonth`: show the previous month, on its 1st. */
    method PrevMonth()
      requires Valid()
      modifies this`current
      ensures Valid()
      ensures current == PrevMonthStart(old(current))
      ensures current.day == 1 && 12 * current.year + current.month == 12 * old(current.year) + old(current.month) - 1
    {
      current := MonthStart(current.year, current.month - 1);
    }

    /** `nextMonth`: show the next month, on its 1st. */
    method NextMonth()
      requires Valid()
      modifies this`current
      ensures Valid()
      ensures current == NextMonthStart(old(current))
      ensures current.day == 1 && 12 * current.year + current.month == 12 * old(current.year) + old(current.month) + 1
    {
      current := MonthStart(current.year, current.month + 1);
    }

    /** `isSelected(day)`: there is a selection and it is this day of the visible month. */
    predicate IsSelected(day: int)
      reads this
      requires Valid()
    {
      selected.Some? && selected.value == Date(current.year, current.month, day)
    }

    /** `isDisabled(day)`: the parent's predicate on this day of the visible month, or false without one. */
    predicate IsDisabled(day: int)
      reads this
      requires Valid()
    {
      disabled.Some? && disabled.value(Date(current.year, current.month, day))
    }

    /** At most one day of the visible month is highlighted, and it is the selected day when that falls in view. */
    lemma SelectionMarksOneDay(d1: int, d2: int)
      requires Valid()
      ensures IsSelected(d1) && IsSelected(d2) ==> d1 == d2
      ensures selected.None? ==> !IsSelected(d1)
      ensures selected.Some? && selected.value.year == current.year && selected.value.month == current.month
              ==> IsSelected(selected.value.day)
    {
    }

    /** `handleDayClick(day)`: emits the date of that day unless it is disabled. */
    method HandleDayClick(day: int) returns (emitted: Option<Date>)
      requires Valid() && 1 <= day <= DaysInView()
      ensures emitted.None? <==> IsDisabled(day)
      ensures emitted.Some? ==> emitted.value == Date(current.year, current.month, day) && ValidDate(emitted.value)
      ensures emitted.Some? && disabled.Some? ==> !disabled.value(emitted.value)
    {
      if IsDisabled(day) {
        return None;
      }
      emitted := Some(Date(current.year, current.month, day));
    }

    /** `days`: `firstDayOfMonth` nulls pushed one by one, then the days 1..`daysInMonth`. */
    method Days() returns (days: seq<Cell>)
      requires Valid()
      ensures days == Grid(current.year, current.month)
    {
      var first, count := FirstDayOfMonth(), DaysInView();
      days := [];
      var i := 0;
      while i < first
        invariant 0 <= i <= first
        invariant days == seq(i, _ => Blank)
      {
        days := days + [Blank];
        i := i + 1;
      }
      i := 1;
      while i <= count
        invariant 1 <= i <= count + 1
        invariant days == seq(first, _ => Blank) + seq(i - 1, k => Day(k + 1))
      {
        days := days + [Day(i)];
        i := i + 1;
      }
    }
  }
}
