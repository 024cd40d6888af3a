/** Wall-clock recurrence over the proleptic Gregorian calendar (core/cloud_hunt_scheduler.py, `next_occurrence`).
    Time zones are fixed offsets of whole minutes. */
module Calendar {
  import opened Wrappers

  datatype Date = Date(year: int, month: int, day: int)

  datatype Wall = Wall(date: Date, hour: int, minute: int)

  predicate Leap(year: int) {
    year % 4 == 0 && (year % 100 != 0 || year % 400 == 0)
  }

  function DaysInMonth(year: int, month: int): int {
    if month == 2 then (if Leap(year) then 29 else 28)
    else if month == 4 || month == 6 || month == 9 || month == 11 then 30
    else 31
  }

  predicate ValidDate(d: Date) {
    1 <= d.year && 1 <= d.month <= 12 && 1 <= d.day <= DaysInMonth(d.year, d.month)
  }

  predicate ValidWall(w: Wall) {
    ValidDate(w.date) && 0 <= w.hour < 24 && 0 <= w.minute < 60
  }

  function DaysBeforeYear(year: int): int {
    (year - 1) * 365 + (year - 1) / 4 - (year - 1) / 100 + (year - 1) / 400
  }

  function DaysBeforeMonth(year: int, month: int): int
    requires 1 <= month <= 12
    decreases month
  {
    if month == 1 then 0 else DaysBeforeMonth(year, month - 1) + DaysInMonth(year, month - 1)
  }

  /** `date.toordinal`: 1 January of year 1 is day 1. */
  function Ordinal(d: Date): int
    requires ValidDate(d)
  {
    DaysBeforeYear(d.year) + DaysBeforeMonth(d.year, d.month) + d.day
  }

  /** Minutes on the wall clock; two valid readings are ordered as these numbers are. */
  function WallMinute(w: Wall): int
    requires ValidWall(w)
  {
    Ordinal(w.date) * 1440 + w.hour * 60 + w.minute
  }

  /** `date.weekday`: Monday is 0. */
  function Weekday(d: Date): int
    requires ValidDate(d)
  {
    (Ordinal(d) + 6) % 7
  }

  function NextDay(d: Date): (r: Date)
    requires ValidDate(d)
    ensures ValidDate(r)
  {
    if d.day < DaysInMonth(d.year, d.month) then d.(day := d.day + 1)
    else if d.month < 12 then Date(d.year, d.month + 1, 1)
    else Date(d.year + 1, 1, 1)
  }

  lemma CenturyStep(year: int)
    ensures year / 4 == (year - 1) / 4 + (if year % 4 == 0 then 1 else 0)
    ensures year / 100 == (year - 1) / 100 + (if year % 100 == 0 then 1 else 0)
    ensures year / 400 == (year - 1) / 400 + (if year % 400 == 0 then 1 else 0)
    ensures year % 100 == 0 ==> year % 4 == 0
    ensures year % 400 == 0 ==> year % 100 == 0
  {
    FourthYear(year);
    HundredthYear(year);
    FourHundredthYear(year);
    CenturiesDivide(year);
  }

  lemma FourthYear(year: int)
    ensures year / 4 == (year - 1) / 4 + (if year % 4 == 0 then 1 else 0)
  {
  }

  lemma HundredthYear(year: int)
    ensures year / 100 == (year - 1) / 100 + (if year % 100 == 0 then 1 else 0)
  {
  }

  lemma FourHundredthYear(year: int)
    ensures year / 400 == (year - 1) / 400 + (if year % 400 == 0 then 1 else 0)
  {
  }

  lemma CenturiesDivide(year: int)
    ensures year % 100 == 0 ==> year % 4 == 0
    ensures year % 400 == 0 ==> year % 100 == 0
  {
    if year % 100 == 0 {
      var q := year / 100;
      assert year == 4 * (25 * q);
    }
    if year % 400 == 0 {
      var q := year / 400;
      assert year == 100 * (4 * q);
    }
  }

  lemma YearLength(year: int)
    ensures DaysBeforeYear(year + 1) == DaysBeforeYear(year) + (if Leap(year) then 366 else 365)
  {
    CenturyStep(year);
  }

  lemma DecemberEnds(year: int)
    ensures DaysBeforeMonth(year, 12) + 31 == if Leap(year) then 366 else 365
  {
    assert DaysBeforeMonth(year, 4) == 62 + DaysInMonth(year, 2);
    assert DaysBeforeMonth(year, 7) == 153 + DaysInMonth(year, 2);
    assert DaysBeforeMonth(year, 10) == 245 + DaysInMonth(year, 2);
  }

  lemma NextDayIsNext(d: Date)
    requires ValidDate(d)
    ensures Ordinal(NextDay(d)) == Ordinal(d) + 1
  {
    if d.day == DaysInMonth(d.year, d.month) && d.month == 12 {
      YearLength(d.year);
      DecemberEnds(d.year);
    }
  }

  predicate Earlier(a: Date, b: Date) {
    a.year < b.year || (a.year == b.year && (a.month < b.month || (a.month == b.month && a.day < b.day)))
  }

  lemma {:induction false} MonthsGrow(year: int, m: int, n: int)
    requires 1 <= m < n <= 12
    ensures DaysBeforeMonth(year, m) + DaysInMonth(year, m) <= DaysBeforeMonth(year, n)
    decreases n
  {
    if m < n - 1 {
      MonthsGrow(year, m, n - 1);
    }
  }

  lemma {:induction false} YearsGrow(y: int, z: int)
    requires y <= z
    ensures DaysBeforeYear(y) + 365 * (z - y) <= DaysBeforeYear(z)
    decreases z - y
  {
    if y < z {
      YearsGrow(y, z - 1);
      YearLength(z - 1);
    }
  }

  lemma WithinYear(d: Date)
    requires ValidDate(d)
    ensures 1 <= DaysBeforeMonth(d.year, d.month) + d.day <= if Leap(d.year) then 366 else 365
  {
    DecemberEnds(d.year);
    if d.month < 12 {
      MonthsGrow(d.year, d.month, 12);
    }
    if d.month > 1 {
      MonthsGrow(d.year, 1, d.month);
    }
  }

  /** Day numbers follow the calendar order, so they name dates uniquely. */
  lemma OrdinalIsOrdered(a: Date, b: Date)
    requires ValidDate(a) && ValidDate(b) && Earlier(a, b)
    ensures Ordinal(a) < Ordinal(b)
  {
    hide DaysBeforeYear, DaysBeforeMonth, Leap;
    WithinYear(a);
    WithinYear(b);
    if a.year < b.year {
      YearLength(a.year);
      YearsGrow(a.year + 1, b.year);
    } else if a.month < b.month {
      MonthsGrow(a.year, a.month, b.month);
    }
  }

  /** `date.fromordinal`. */
  function FromOrdinal(n: int): (r: Date)
    requires 1 <= n
    ensures ValidDate(r) && Ordinal(r) == n
    decreases n
  {
    if n == 1 then Date(1, 1, 1)
    else
      var before := FromOrdinal(n - 1);
      NextDayIsNext(before);
      NextDay(before)
  }

  lemma FromOrdinalInverts(d: Date)
    requires ValidDate(d)
    ensures 1 <= Ordinal(d) && FromOrdinal(Ordinal(d)) == d
  {
    WithinYear(d);
    YearsGrow(1, d.year);
    var e := FromOrdinal(Ordinal(d));
    if Earlier(d, e) { OrdinalIsOrdered(d, e); }
    if Earlier(e, d) { OrdinalIsOrdered(e, d); }
  }

  /** A minute number names one wall-clock reading. */
  lemma WallMinuteNames(a: Wall, b: Wall)
    requires ValidWall(a) && ValidWall(b) && WallMinute(a) == WallMinute(b)
    ensures a == b
  {
    hide Ordinal;
    if Earlier(a.date, b.date) { OrdinalIsOrdered(a.date, b.date); }
    if Earlier(b.date, a.date) { OrdinalIsOrdered(b.date, a.date); }
  }

  function FromWallMinute(n: int): (r: Wall)
    requires 1440 <= n
    ensures ValidWall(r) && WallMinute(r) == n
  {
    var m := n % 1440;
    Wall(FromOrdinal(n / 1440), m / 60, m % 60)
  }

  /** `date + timedelta(days=k)` for the small shifts the scheduler makes. */
  function AddDays(d: Date, k: nat): (r: Date)
    requires ValidDate(d)
    ensures ValidDate(r) && Ordinal(r) == Ordinal(d) + k
  {
    if k == 0 then d
    else
      var before := AddDays(d, k - 1);
      NextDayIsNext(before);
      NextDay(before)
  }

  // ----- recurrence rules -----

  datatype Recurrence = Daily | Weekly | Monthly

  datatype Rule = Rule(recurrence: Recurrence, weekday: Option<int>, dayOfMonth: Option<int>, hour: int, minute: int)

  /** The field bounds of `CloudHuntSchedule`. */
  predicate ValidRule(r: Rule) {
    && (r.weekday.Some? ==> 0 <= r.weekday.value <= 6)
    && (r.dayOfMonth.Some? ==> 1 <= r.dayOfMonth.value <= 28)
    && 0 <= r.hour <= 23 && 0 <= r.minute <= 59
  }

  function DayOf(rule: Rule): int {
    if rule.dayOfMonth.Some? then rule.dayOfMonth.value else 1
  }

  function WeekdayOf(rule: Rule, local: Wall): int
    requires ValidWall(local)
  {
    if rule.weekday.Some? then rule.weekday.value else Weekday(local.date)
  }

  /** A wall-clock minute the rule names; an open weekday means the weekday of `local`. */
  predicate Matches(rule: Rule, local: Wall, w: Wall)
    requires ValidWall(local) && ValidWall(w)
  {
    && w.hour == rule.hour && w.minute == rule.minute
    && match rule.recurrence
       case Daily => true
       case Weekly => Weekday(w.date) == WeekdayOf(rule, local)
       case Monthly => w.date.day == DayOf(rule)
  }

  ghost predicate IsNext(rule: Rule, local: Wall, next: Wall)
    requires ValidWall(local)
  {
    && ValidWall(next) && Matches(rule, local, next) && WallMinute(local) < WallMinute(next)
    && forall w | ValidWall(w) && Matches(rule, local, w) && WallMinute(local) < WallMinute(w) ::
         WallMinute(next) <= WallMinute(w)
  }

  /** `candidate.replace(year=..., month=..., day=...)` one month later, with the source's carry arithmetic. */
  function MonthLater(d: Date): Date {
    var month := d.month + 1;
    Date(d.year + (month - 1) / 12, (month - 1) % 12 + 1, d.day)
  }

  function NextWall(rule: Rule, local: Wall): (r: Wall)
    requires ValidRule(rule) && ValidWall(local)
    ensures ValidWall(r)
  {
    var candidate := Wall(local.date, rule.hour, rule.minute);
    match rule.recurrence
    case Daily =>
      if WallMinute(candidate) <= WallMinute(local) then candidate.(date := AddDays(candidate.date, 1)) else candidate
    case Weekly =>
      var shifted := candidate.(date := AddDays(candidate.date, (WeekdayOf(rule, local) - Weekday(local.date)) % 7));
      if WallMinute(shifted) <= WallMinute(local) then shifted.(date := AddDays(shifted.date, 7)) else shifted
    case Monthly =>
      var placed := candidate.(date := candidate.date.(day := DayOf(rule)));
      if WallMinute(placed) <= WallMinute(local) then placed.(date := MonthLater(placed.date)) else placed
  }

  /** The source's method: the least matching wall-clock minute strictly after `local`. */
  method NextOccurrence(rule: Rule, local: Wall) returns (candidate: Wall)
    requires ValidRule(rule) && ValidWall(local)
    ensures IsNext(rule, local, candidate) && candidate == NextWall(rule, local)
  {
    hide Ordinal, Weekday, IsNext;
    candidate := Wall(local.date, rule.hour, rule.minute);
    if rule.recurrence == Daily {
      if WallMinute(candidate) <= WallMinute(local) { candidate := candidate.(date := AddDays(candidate.date, 1)); }
    } else if rule.recurrence == Weekly {
      var days := (WeekdayOf(rule, local) - Weekday(local.date)) % 7;
      candidate := candidate.(date := AddDays(candidate.date, days));
      if WallMinute(candidate) <= WallMinute(local) { candidate := candidate.(date := AddDays(candidate.date, 7)); }
    } else {
      candidate := candidate.(date := candidate.date.(day := DayOf(rule)));
      if WallMinute(candidate) <= WallMinute(local) { candidate := candidate.(date := MonthLater(candidate.date)); }
    }
    NextWallIsNext(rule, local);
  }

  lemma NextWallIsNext(rule: Rule, local: Wall)
    requires ValidRule(rule) && ValidWall(local)
    ensures IsNext(rule, local, NextWall(rule, local))
  {
    hide NextWall, IsNext;
    match rule.recurrence
    case Daily => DailyIsNext(rule, local);
    case Weekly => WeeklyIsNext(rule, local);
    case Monthly => MonthlyIsNext(rule, local);
  }

  lemma DailyIsNext(rule: Rule, local: Wall)
    requires ValidRule(rule) && ValidWall(local) && rule.recurrence == Daily
    ensures IsNext(rule, local, NextWall(rule, local))
  {
    hide Ordinal, DaysInMonth, Weekday, WeekdayOf, DayOf;
  }

  lemma WeekShift(a: int, target: int)
    requires 0 <= target < 7
    ensures (a + (target - a % 7) % 7) % 7 == target
  {
    var shift := (target - a % 7) % 7;
    assert a == 7 * (a / 7) + a % 7;
    if target >= a % 7 {
      assert shift == target - a % 7;
      assert a + shift == 7 * (a / 7) + target;
    } else {
      assert shift == target - a % 7 + 7;
      assert a + shift == 7 * (a / 7 + 1) + target;
    }
  }

  lemma SameWeekday(a: int, b: int)
    requires a % 7 == b % 7
    ensures a < b ==> a + 7 <= b
  {
  }

  lemma WeeklyIsNext(rule: Rule, local: Wall)
    requires ValidRule(rule) && ValidWall(local) && rule.recurrence == Weekly
    ensures IsNext(rule, local, NextWall(rule, local))
  {
    hide Ordinal, DaysInMonth;
    var next := NextWall(rule, local);
    var today := Ordinal(local.date) + 6;
    WeekShift(today, WeekdayOf(rule, local));
    var shift := (WeekdayOf(rule, local) - today % 7) % 7;
    WeekShift(today + 7, WeekdayOf(rule, local));
    assert Weekday(next.date) == WeekdayOf(rule, local);
    forall w | ValidWall(w) && Matches(rule, local, w) && WallMinute(local) < WallMinute(w)
      ensures WallMinute(next) <= WallMinute(w)
    {
      SameWeekday(Ordinal(w.date) + 6, Ordinal(next.date) + 6);
    }
  }

  lemma MonthlyIsNext(rule: Rule, local: Wall)
    requires ValidRule(rule) && ValidWall(local) && rule.recurrence == Monthly
    ensures IsNext(rule, local, NextWall(rule, local))
  {
    var placed := Wall(local.date.(day := DayOf(rule)), rule.hour, rule.minute);
    var next := NextWall(rule, local);
    assert Earlier(placed.date, MonthLater(placed.date));
    OrdinalIsOrdered(placed.date, MonthLater(placed.date));
    if next != placed {
      if local.date != next.date { OrdinalIsOrdered(local.date, next.date); }
    }
    forall w | ValidWall(w) && Matches(rule, local, w) && WallMinute(local) < WallMinute(w)
      ensures WallMinute(next) <= WallMinute(w)
    {
      if Earlier(w.date, local.date) { OrdinalIsOrdered(w.date, local.date); }
      if Earlier(next.date, w.date) { OrdinalIsOrdered(next.date, w.date); }
    }
  }
}
