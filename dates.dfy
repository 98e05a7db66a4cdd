/** Calendar dates at day resolution and the calendar-month keys that
    `Series.dt.to_period("M")` produces. */
module Dates {

  /** A calendar date; `Valid` holds for a Gregorian calendar date, and every pandas Timestamp is one. */
  datatype Date = Date(year: int, month: int, day: int) {
    predicate Valid() {
      1 <= month <= 12 && 1 <= day <= DaysInMonth(year, month)
    }
  }

  /** Gregorian leap years. */
  predicate IsLeapYear(y: int) {
    (y % 4 == 0 && y % 100 != 0) || y % 400 == 0
  }

  function DaysInMonth(y: int, m: int): int {
    if m == 2 then (if IsLeapYear(y) then 29 else 28)
    else if m == 4 || m == 6 || m == 9 || m == 11 then 30
    else 31
  }

  /** Chronological order: `a` is strictly earlier than `b`. */
  predicate Before(a: Date, b: Date) {
    a.year < b.year ||
    (a.year == b.year && (a.month < b.month || (a.month == b.month && a.day < b.day)))
  }

  /** `a` is not later than `b` (the comparison `a <= b` on timestamps). */
  predicate NotAfter(a: Date, b: Date) {
    !Before(b, a)
  }

  /** A (year, month) period key. */
  datatype MonthKey = MonthKey(year: int, month: int)

  /** The period of a date (`to_period("M")`). */
  function MonthOf(d: Date): MonthKey {
    MonthKey(d.year, d.month)
  }

  /** Chronological order of month keys. */
  predicate MonthBefore(a: MonthKey, b: MonthKey) {
    a.year < b.year || (a.year == b.year && a.month < b.month)
  }

  /** The calendar month immediately preceding `k`. */
  function PreviousMonth(k: MonthKey): MonthKey {
    if k.month == 1 then MonthKey(k.year - 1, 12) else MonthKey(k.year, k.month - 1)
  }

  /** `d - pd.offsets.MonthBegin(1)`: a date that is not the 1st rolls back to
      the 1st of its own month; a 1st of the month moves to the 1st of the
      previous month. */
  function MinusMonthBegin(d: Date): Date {
    if d.day == 1 then
      (if d.month == 1 then Date(d.year - 1, 12, 1) else Date(d.year, d.month - 1, 1))
    else Date(d.year, d.month, 1)
  }

  /** Subtracting one MonthBegin gives the latest first-of-month date strictly
      before `d`. */
  lemma MinusMonthBeginIsLatestMonthStart(d: Date)
    requires d.Valid()
    ensures var r := MinusMonthBegin(d);
      && r.Valid() && r.day == 1 && Before(r, d)
      && forall e: Date :: e.Valid() && e.day == 1 && Before(e, d) ==> NotAfter(e, r)
  {
  }

  /** The period that app.py calls the previous month: its own month for a
      start date after the 1st, the preceding calendar month for the 1st. */
  function PrevMonthKey(start: Date): (k: MonthKey)
    ensures start.day == 1 ==> k == PreviousMonth(MonthOf(start))
    ensures start.day != 1 ==> k == MonthOf(start)
  {
    MonthOf(MinusMonthBegin(start))
  }

  /** The preceding calendar month is earlier than the month. */
  lemma PreviousMonthIsEarlier(k: MonthKey)
    ensures MonthBefore(PreviousMonth(k), k)
  {
  }

  /** A date not before `start` lies in `start`'s month or a later one. */
  lemma MonthOfMonotone(start: Date, d: Date)
    requires NotAfter(start, d)
    ensures MonthOf(start) == MonthOf(d) || MonthBefore(MonthOf(start), MonthOf(d))
  {
  }
}
