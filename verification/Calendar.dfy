/** Calendar dates, and the monthly billing periods they fall in. */
module Calendar {

  datatype Date = Date(year: int, month: nat, day: nat)

  predicate Leap(year: int) { year % 4 == 0 && (year % 100 != 0 || year % 400 == 0) }

  function DaysIn(year: int, month: nat): nat {
    if month == 2 then (if Leap(year) then 29 else 28)
    else if month == 4 || month == 6 || month == 9 || month == 11 then 30
    else 31
  }

  predicate Valid(d: Date) { 1 <= d.month <= 12 && 1 <= d.day <= DaysIn(d.year, d.month) }

  /** Calendar order; dates written year first compare the same way. */
  predicate Before(a: Date, b: Date) {
    a.year < b.year || (a.year == b.year && (a.month < b.month || (a.month == b.month && a.day < b.day)))
  }

  predicate Within(a: Date, d: Date, b: Date) { !Before(d, a) && !Before(b, d) }

  function NextDay(d: Date): Date {
    if d.day < DaysIn(d.year, d.month) then d.(day := d.day + 1)
    else if d.month < 12 then Date(d.year, d.month + 1, 1)
    else Date(d.year + 1, 1, 1)
  }

  function DayBefore(d: Date): Date
    requires Valid(d)
  {
    if d.day > 1 then d.(day := d.day - 1)
    else if d.month > 1 then Date(d.year, d.month - 1, DaysIn(d.year, d.month - 1))
    else Date(d.year - 1, 12, 31)
  }

  // ---------------------------------------------------------------- billing periods

  function Min(a: int, b: int): int { if a < b then a else b }

  function Max(a: int, b: int): int { if a > b then a else b }

  /** The day of the month a number is billed on: between 1 and 28, and 1 when it is not set. */
  function CycleDay(configured: int): (c: nat)
    ensures 1 <= c <= 28
    ensures 1 <= configured <= 28 ==> c == configured
    ensures configured > 28 ==> c == 28
    ensures configured < 1 ==> c == 1
  {
    Min(28, Max(1, if configured == 0 then 1 else configured))
  }

  function InMonth(year: int, month: nat, cycle: nat): Date { Date(year, month, Min(cycle, DaysIn(year, month))) }

  function MonthAfter(year: int, month: nat): (int, nat) { if month == 12 then (year + 1, 1) else (year, month + 1) }

  function MonthBefore(year: int, month: nat): (int, nat)
    requires month >= 1
  {
    if month == 1 then (year - 1, 12) else (year, month - 1)
  }

  /** The month in which the current period started. */
  function StartMonth(today: Date, cycle: nat): (int, nat)
    requires Valid(today)
  {
    if today.day < cycle then MonthBefore(today.year, today.month) else (today.year, today.month)
  }

  function PeriodStart(today: Date, cycle: nat): Date
    requires Valid(today)
  {
    var m := StartMonth(today, cycle);
    InMonth(m.0, m.1, cycle)
  }

  /** The first day of the period after the current one. */
  function NextStart(today: Date, cycle: nat): Date
    requires Valid(today)
  {
    var m := StartMonth(today, cycle);
    var n := MonthAfter(m.0, m.1);
    InMonth(n.0, n.1, cycle)
  }

  function PeriodEnd(today: Date, cycle: nat): Date
    requires Valid(today) && 1 <= cycle <= 28
  {
    DayBefore(NextStart(today, cycle))
  }

  /** The day a number stops when its discontinuation is asked for today. */
  function StopDay(today: Date, cycle: nat): Date {
    var candidate := InMonth(today.year, today.month, cycle);
    if Before(today, candidate) then candidate
    else var m := MonthAfter(today.year, today.month); InMonth(m.0, m.1, cycle)
  }

  // ---------------------------------------------------------------- laws

  /** Whatever the date and the cycle day, the current period contains today. */
  lemma PeriodContainsToday(today: Date, cycle: nat)
    requires Valid(today) && 1 <= cycle <= 28
    ensures Within(PeriodStart(today, cycle), today, PeriodEnd(today, cycle))
    ensures Before(today, NextStart(today, cycle))
  {}

  /** Two days are in one period exactly when the second lies within the period of the first. */
  lemma SamePeriod(a: Date, b: Date, cycle: nat)
    requires Valid(a) && Valid(b) && 1 <= cycle <= 28
    ensures PeriodStart(a, cycle) == PeriodStart(b, cycle) <==> Within(PeriodStart(a, cycle), b, PeriodEnd(a, cycle))
    ensures PeriodStart(a, cycle) == PeriodStart(b, cycle) ==> PeriodEnd(a, cycle) == PeriodEnd(b, cycle)
  {}

  /** The next period starts no later than any other period that starts after today. */
  lemma NextStartIsSoonest(today: Date, other: Date, cycle: nat)
    requires Valid(today) && Valid(other) && 1 <= cycle <= 28 && PeriodStart(other, cycle) == other && Before(today, other)
    ensures !Before(other, StopDay(today, cycle))
  {}

  /** Different periods do not overlap: one ends before the other starts. */
  lemma PeriodsAreDisjoint(a: Date, b: Date, cycle: nat)
    requires Valid(a) && Valid(b) && 1 <= cycle <= 28 && PeriodStart(a, cycle) != PeriodStart(b, cycle)
    ensures Before(PeriodEnd(a, cycle), PeriodStart(b, cycle)) || Before(PeriodEnd(b, cycle), PeriodStart(a, cycle))
  {}

  /** The day after a period ends is the first day of the next one. */
  lemma PeriodsAreAdjacent(today: Date, cycle: nat)
    requires Valid(today) && 1 <= cycle <= 28
    ensures var next := NextDay(PeriodEnd(today, cycle));
            next == NextStart(today, cycle) && Valid(next) && PeriodStart(next, cycle) == next
  {}

  /** A discontinuation takes effect the day after the current period ends. */
  lemma StopsAfterThePeriod(today: Date, cycle: nat)
    requires Valid(today) && 1 <= cycle <= 28
    ensures StopDay(today, cycle) == NextDay(PeriodEnd(today, cycle))
  {}
}
