/** The access-log importer's calendar: days since 1970-01-01 of a civil date, for every year. */
module Calendar {
  datatype Date = Date(year: int, month: int, day: int)

  const EPOCH := Date(1970, 1, 1)

  function DaysFromCivil(year: int, m: nat, d: nat): int {
    var y := if m <= 2 then year - 1 else year;
    var era := y / 400;
    var yoe := y - era * 400;
    var mp := (m + 9) % 12;
    var doy := (153 * mp + 2) / 5 + d - 1;
    var doe := yoe * 365 + yoe / 4 - yoe / 100 + doy;
    era * 146_097 + doe - 719_468
  }

  // --------------------------------------------------- the proleptic Gregorian calendar

  predicate IsLeap(y: int) {
    y % 4 == 0 && (y % 100 != 0 || y % 400 == 0)
  }

  function DaysIn(y: int, m: int): int {
    if m == 2 then (if IsLeap(y) then 29 else 28)
    else if m == 4 || m == 6 || m == 9 || m == 11 then 30
    else 31
  }

  predicate Valid(t: Date) {
    1 <= t.month <= 12 && 1 <= t.day <= DaysIn(t.year, t.month)
  }

  function Next(t: Date): Date {
    if t.day < DaysIn(t.year, t.month) then t.(day := t.day + 1)
    else if t.month < 12 then Date(t.year, t.month + 1, 1)
    else Date(t.year + 1, 1, 1)
  }

  function Previous(t: Date): Date {
    if t.day > 1 then t.(day := t.day - 1)
    else if t.month > 1 then Date(t.year, t.month - 1, DaysIn(t.year, t.month - 1))
    else Date(t.year - 1, 12, 31)
  }

  predicate Before(a: Date, b: Date) {
    a.year < b.year || (a.year == b.year && (a.month < b.month || (a.month == b.month && a.day < b.day)))
  }

  function Days(t: Date): int
    requires Valid(t)
  {
    DaysFromCivil(t.year, t.month, t.day)
  }

  // ------------------------------------------------------------------------- successor

  /** Days in the years that start in March, up to year `y`. */
  function YearDays(y: int): int {
    365 * y + y / 4 - y / 100 + y / 400
  }

  lemma EraArithmetic(y: int)
    ensures var era := y / 400; var yoe := y - era * 400;
      0 <= yoe < 400 && era * 146_097 + yoe * 365 + yoe / 4 - yoe / 100 == YearDays(y)
  {
    var era := y / 400;
    var yoe := y - era * 400;
    assert y / 4 == 100 * era + yoe / 4;
    assert y / 100 == 4 * era + yoe / 100;
  }

  lemma YearStep(y: int)
    ensures YearDays(y + 1) == YearDays(y) + 365 + if IsLeap(y + 1) then 1 else 0
  {
    assert (y + 1) / 4 == y / 4 + if (y + 1) % 4 == 0 then 1 else 0;
    assert (y + 1) / 100 == y / 100 + if (y + 1) % 100 == 0 then 1 else 0;
    assert (y + 1) / 400 == y / 400 + if (y + 1) % 400 == 0 then 1 else 0;
    assert (y + 1) % 400 == 0 ==> (y + 1) % 100 == 0;
    assert (y + 1) % 100 == 0 ==> (y + 1) % 4 == 0;
  }

  /** The first of each month, in days since the first of March. */
  function MonthDays(m: int): int {
    if m == 1 then 306 else if m == 2 then 337 else if m == 3 then 0 else if m == 4 then 31
    else if m == 5 then 61 else if m == 6 then 92 else if m == 7 then 122 else if m == 8 then 153
    else if m == 9 then 184 else if m == 10 then 214 else if m == 11 then 245 else 275
  }

  lemma MonthFormula(m: int)
    requires 1 <= m <= 12
    ensures (153 * ((m + 9) % 12) + 2) / 5 == MonthDays(m)
  {
    assert (m + 9) % 12 == if m <= 2 then m + 9 else m - 3;
  }

  lemma FirstOfMonth(y: int, m: int)
    requires 1 <= m <= 12
    ensures DaysFromCivil(y, m, 1) == YearDays(if m <= 2 then y - 1 else y) + MonthDays(m) - 719_468
  {
    EraArithmetic(if m <= 2 then y - 1 else y);
    MonthFormula(m);
  }

  lemma MonthLengths(y: int, m: int)
    requires 1 <= m <= 12 && m != 2
    ensures MonthDays(if m < 12 then m + 1 else 1) == MonthDays(m) + DaysIn(y, m)
  {
  }

  function NextMonth(y: int, m: int): (int, int) {
    if m < 12 then (y, m + 1) else (y + 1, 1)
  }

  lemma MonthStep(y: int, m: int)
    requires 1 <= m <= 12
    ensures var (y', m') := NextMonth(y, m); DaysFromCivil(y', m', 1) == DaysFromCivil(y, m, 1) + DaysIn(y, m)
  {
    var (y', m') := NextMonth(y, m);
    FirstOfMonth(y, m);
    FirstOfMonth(y', m');
    if m == 2 {
      YearStep(y - 1);
    } else {
      MonthLengths(y, m);
    }
  }

  lemma DayOfMonth(t: Date)
    requires Valid(t)
    ensures Days(t) == DaysFromCivil(t.year, t.month, 1) + t.day - 1
  {
  }

  /** The next date is one day later, over month ends, leap days and centuries, in every year. */
  lemma NextDayIsOneMore(t: Date)
    requires Valid(t)
    ensures Valid(Next(t)) && Days(Next(t)) == Days(t) + 1
  {
    DayOfMonth(t);
    if t.day < DaysIn(t.year, t.month) {
      DayOfMonth(Next(t));
    } else {
      MonthStep(t.year, t.month);
    }
  }

  lemma EpochIsZero()
    ensures Valid(EPOCH) && Days(EPOCH) == 0
  {
  }

  lemma PreviousIsInverse(t: Date)
    requires Valid(t)
    ensures Valid(Previous(t)) && Next(Previous(t)) == t && Previous(Next(t)) == t && Days(Previous(t)) == Days(t) - 1
  {
    NextDayIsOneMore(Previous(t));
  }

  // ------------------------------------------------------------------------- bijection

  function FirstDay(y: int, m: int): int {
    if m >= 0 then DaysFromCivil(y, m, 1) else 0
  }

  /** Whatever counts month by month: months in calendar order start after those before have ended. */
  lemma {:induction false} MonthsAreDisjoint(f: (int, int) -> int, y: int, m: int, y': int, m': int)
    requires forall y, m {:trigger NextMonth(y, m)} :: 1 <= m <= 12 ==>
      f(NextMonth(y, m).0, NextMonth(y, m).1) == f(y, m) + DaysIn(y, m)
    requires 1 <= m <= 12 && 1 <= m' <= 12 && (y < y' || (y == y' && m < m'))
    ensures f(y, m) + DaysIn(y, m) <= f(y', m')
    decreases y' - y, 12 - m
  {
    var (y1, m1) := NextMonth(y, m);
    if y1 != y' || m1 != m' {
      MonthsAreDisjoint(f, y1, m1, y', m');
    }
  }

  lemma Ordered(a: Date, b: Date)
    requires Valid(a) && Valid(b) && Before(a, b)
    ensures Days(a) < Days(b)
  {
    DayOfMonth(a);
    DayOfMonth(b);
    if a.year != b.year || a.month != b.month {
      forall y, m | 1 <= m <= 12
        ensures FirstDay(NextMonth(y, m).0, NextMonth(y, m).1) == FirstDay(y, m) + DaysIn(y, m)
      {
        MonthStep(y, m);
      }
      MonthsAreDisjoint(FirstDay, a.year, a.month, b.year, b.month);
    }
  }

  /** Day numbers follow calendar order, so no two dates share one. */
  lemma DaysFollowDates(a: Date, b: Date)
    requires Valid(a) && Valid(b)
    ensures Before(a, b) <==> Days(a) < Days(b)
    ensures Days(a) == Days(b) <==> a == b
  {
    if Before(a, b) {
      Ordered(a, b);
    } else if Before(b, a) {
      Ordered(b, a);
    }
  }

  /** Every day number is the number of a date. */
  lemma {:induction false} EveryDayHasADate(n: int) returns (t: Date)
    ensures Valid(t) && Days(t) == n
    decreases if n < 0 then -n else n
  {
    if n == 0 {
      EpochIsZero();
      t := EPOCH;
    } else if n > 0 {
      t := EveryDayHasADate(n - 1);
      NextDayIsOneMore(t);
      t := Next(t);
    } else {
      t := EveryDayHasADate(n + 1);
      PreviousIsInverse(t);
      t := Previous(t);
    }
  }

  ghost predicate CountsDays(f: Date -> int) {
    f(EPOCH) == 0 && forall t :: Valid(t) ==> f(Next(t)) == f(t) + 1
  }

  /** Counting from the epoch one date at a time can give no other numbers. */
  lemma {:induction false} DaysAreTheOnlyCount(f: Date -> int, t: Date)
    requires CountsDays(f) && Valid(t)
    ensures f(t) == Days(t)
    decreases if Days(t) < 0 then -Days(t) else Days(t)
  {
    EpochIsZero();
    if Days(t) == 0 {
      DaysFollowDates(t, EPOCH);
    } else if Days(t) > 0 {
      PreviousIsInverse(t);
      DaysAreTheOnlyCount(f, Previous(t));
    } else {
      NextDayIsOneMore(t);
      DaysAreTheOnlyCount(f, Next(t));
    }
  }
}
