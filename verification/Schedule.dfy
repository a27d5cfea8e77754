/**
 Report schedules: when the next run is due, on the proleptic Gregorian calendar in UTC, which dates a
 run reports on, and the runner that fires due schedules. Instants are a date and the ticks since its midnight.
 */
module Schedule {
  import opened Common
  import opened NatArithmetic

  // ---- The calendar --------------------------------------------------------------

  datatype Date = Date(year: nat, month: nat, day: nat)

  predicate IsLeap(y: nat) { y % 4 == 0 && (y % 100 != 0 || y % 400 == 0) }

  function DaysIn(y: nat, m: nat): nat {
    if m == 2 then (if IsLeap(y) then 29 else 28)
    else if m == 4 || m == 6 || m == 9 || m == 11 then 30
    else 31
  }

  predicate Valid(d: Date) { 1 <= d.year && 1 <= d.month <= 12 && 1 <= d.day <= DaysIn(d.year, d.month) }

  function DaysInYear(y: nat): nat { if IsLeap(y) then 366 else 365 }

  function DaysBeforeYear(y: nat): nat
    requires y >= 1
  {
    if y == 1 then 0 else DaysBeforeYear(y - 1) + DaysInYear(y - 1)
  }

  function DaysBeforeMonth(y: nat, m: nat): nat
    requires m >= 1
  {
    if m == 1 then 0 else DaysBeforeMonth(y, m - 1) + DaysIn(y, m - 1)
  }

  /** Days since 0001-01-01, which was a Monday. */
  function DayNumber(d: Date): nat
    requires Valid(d)
  {
    DaysBeforeYear(d.year) + DaysBeforeMonth(d.year, d.month) + d.day - 1
  }

  function Weekday(dayNumber: nat): nat { (dayNumber + 1) % 7 }

  /** `DayOfWeek`: Sunday is 0. */
  function DayOfWeek(d: Date): nat
    requires Valid(d)
  {
    Weekday(DayNumber(d))
  }

  function DaysUntilMonday(day: nat): (n: nat)
    requires day < 7
  {
    if day == 0 then 1 else 8 - day
  }

  function NextDay(d: Date): (next: Date)
    requires Valid(d)
    ensures Valid(next)
  {
    if d.day < DaysIn(d.year, d.month) then d.(day := d.day + 1)
    else if d.month < 12 then Date(d.year, d.month + 1, 1)
    else Date(d.year + 1, 1, 1)
  }

  /** The date with a given number. */
  function FromDay(n: nat): (d: Date)
    ensures Valid(d) && DayNumber(d) == n
  {
    if n == 0 then Date(1, 1, 1)
    else
      NextDayNumber(FromDay(n - 1));
      NextDay(FromDay(n - 1))
  }

  function AddDays(d: Date, k: int): (r: Date)
    requires Valid(d) && DayNumber(d) + k >= 0
    ensures Valid(r) && DayNumber(r) == DayNumber(d) + k
  {
    FromDay(DayNumber(d) + k)
  }

  /** The first of the month `k` months after the given first of a month. */
  function AddMonths(d: Date, k: nat): (r: Date)
    requires Valid(d) && d.day == 1
    ensures Valid(r) && r.day == 1
  {
    var months := d.month - 1 + k;
    Date(d.year + months / 12, months % 12 + 1, 1)
  }

  lemma ThreeMonths(y: nat, m: nat)
    requires m >= 1
    ensures DaysBeforeMonth(y, m + 3) == DaysBeforeMonth(y, m) + DaysIn(y, m) + DaysIn(y, m + 1) + DaysIn(y, m + 2)
  {
    assert DaysBeforeMonth(y, m + 1) == DaysBeforeMonth(y, m) + DaysIn(y, m);
    assert DaysBeforeMonth(y, m + 2) == DaysBeforeMonth(y, m + 1) + DaysIn(y, m + 1);
  }

  lemma MonthsOfYear(y: nat)
    ensures DaysBeforeMonth(y, 13) == DaysInYear(y)
  {
    ThreeMonths(y, 1);
    ThreeMonths(y, 4);
    ThreeMonths(y, 7);
    ThreeMonths(y, 10);
  }

  /** The day after has the next number. */
  lemma NextDayNumber(d: Date)
    requires Valid(d)
    ensures DayNumber(NextDay(d)) == DayNumber(d) + 1
  {
    if d.day == DaysIn(d.year, d.month) && d.month == 12 {
      MonthsOfYear(d.year);
      assert DaysBeforeMonth(d.year, 13) == DaysBeforeMonth(d.year, 12) + 31;
    }
  }

  predicate Earlier(a: Date, b: Date) {
    a.year < b.year || (a.year == b.year && (a.month < b.month || (a.month == b.month && a.day < b.day)))
  }

  lemma {:induction false} MonthsMonotone(y: nat, m: nat, n: nat)
    requires 1 <= m < n
    ensures DaysBeforeMonth(y, n) >= DaysBeforeMonth(y, m) + DaysIn(y, m)
  {
    if n > m + 1 { MonthsMonotone(y, m, n - 1); }
  }

  lemma {:induction false} YearsMonotone(y: nat, z: nat)
    requires 1 <= y < z
    ensures DaysBeforeYear(z) >= DaysBeforeYear(y) + DaysInYear(y)
  {
    if z > y + 1 { YearsMonotone(y, z - 1); }
  }

  lemma WithinYear(d: Date)
    requires Valid(d)
    ensures DaysBeforeYear(d.year) <= DayNumber(d) < DaysBeforeYear(d.year) + DaysInYear(d.year)
  {
    MonthsOfYear(d.year);
    MonthsMonotone(d.year, d.month, 13);
  }

  /** Numbers order dates as the calendar does. */
  lemma EarlierIsSmaller(a: Date, b: Date)
    requires Valid(a) && Valid(b) && Earlier(a, b)
    ensures DayNumber(a) < DayNumber(b)
  {
    WithinYear(a);
    WithinYear(b);
    if a.year < b.year {
      YearsMonotone(a.year, b.year);
    } else if a.month < b.month {
      MonthsMonotone(a.year, a.month, b.month);
    }
  }

  lemma NumbersOrder(a: Date, b: Date)
    requires Valid(a) && Valid(b)
    ensures Earlier(a, b) <==> DayNumber(a) < DayNumber(b)
    ensures a == b <==> DayNumber(a) == DayNumber(b)
  {
    if Earlier(a, b) { EarlierIsSmaller(a, b); }
    if Earlier(b, a) { EarlierIsSmaller(b, a); }
  }

  /** Counting days forward and back are inverse to each other. */
  lemma FromDayInverse(d: Date)
    requires Valid(d)
    ensures FromDay(DayNumber(d)) == d
  {
    NumbersOrder(FromDay(DayNumber(d)), d);
  }

  // ---- The next run -----------------------------------------------------------------

  const TICKS_PER_HOUR: nat := 36_000_000_000
  const TICKS_PER_DAY: nat := 24 * TICKS_PER_HOUR

  datatype Instant = Instant(date: Date, ticks: nat)

  type Moment = t: Instant | Valid(t.date) && t.ticks < TICKS_PER_DAY witness Instant(Date(1, 1, 1), 0)

  /** Ticks since the start of the calendar. */
  function Ticks(t: Moment): nat {
    Times(TICKS_PER_DAY, DayNumber(t.date)) + t.ticks
  }

  /** The order of instants: by date, then by the time of day. */
  predicate Precedes(a: Moment, b: Moment) {
    DayNumber(a.date) < DayNumber(b.date) || (DayNumber(a.date) == DayNumber(b.date) && a.ticks < b.ticks)
  }

  predicate NotAfter(a: Moment, b: Moment) { !Precedes(b, a) }

  lemma TicksOrder(a: Moment, b: Moment)
    ensures Precedes(a, b) <==> Ticks(a) < Ticks(b)
  {
    if DayNumber(a.date) < DayNumber(b.date) { TimesOrder(TICKS_PER_DAY, DayNumber(b.date), DayNumber(a.date)); }
    if DayNumber(b.date) < DayNumber(a.date) { TimesOrder(TICKS_PER_DAY, DayNumber(a.date), DayNumber(b.date)); }
  }

  function AtEight(d: Date): Moment
    requires Valid(d)
  {
    Instant(d, 8 * TICKS_PER_HOUR)
  }

  /** The first month of a month's quarter. */
  function QuarterMonth(m: nat): (q: nat)
    requires 1 <= m <= 12
    ensures q in {1, 4, 7, 10} && q <= m < q + 3
  {
    (m - 1) / 3 * 3 + 1
  }

  function NextQuarter(today: Date): (d: Date)
    requires Valid(today)
    ensures Valid(d)
  {
    var nextQuarterStart := QuarterMonth(today.month) + 3;
    if nextQuarterStart > 12 then Date(today.year + 1, 1, 1) else Date(today.year, nextQuarterStart, 1)
  }

  datatype Frequency = Weekly | Monthly | Quarterly

  /** What a stored frequency stands for: whatever is neither weekly nor monthly runs quarterly. */
  function FrequencyOf(name: string): Frequency {
    if name == "WEEKLY" then Weekly else if name == "MONTHLY" then Monthly else Quarterly
  }

  function NextRunDate(frequency: Frequency, today: Date): (d: Date)
    requires Valid(today)
    ensures Valid(d)
  {
    if frequency == Weekly then
      AddDays(today, DaysUntilMonday(DayOfWeek(today)))
    else if frequency == Monthly then
      AddMonths(Date(today.year, today.month, 1), 1)
    else NextQuarter(today)
  }

  function ComputeNextRunAt(frequency: Frequency, now: Moment): Moment {
    AtEight(NextRunDate(frequency, now.date))
  }

  /** The dates on which a schedule runs. */
  predicate RunDay(frequency: Frequency, d: Date)
    requires Valid(d)
  {
    if frequency == Weekly then DayOfWeek(d) == 1
    else d.day == 1 && (frequency == Monthly || d.month % 3 == 1)
  }

  function LongestGap(frequency: Frequency): nat {
    if frequency == Weekly then 7 else if frequency == Monthly then 31 else 92
  }

  lemma WeeklyNext(today: Date, d: Date)
    requires Valid(today) && Valid(d)
    ensures var next := NextRunDate(Weekly, today);
            && RunDay(Weekly, next) && DayNumber(today) < DayNumber(next) <= DayNumber(today) + 7
            && (RunDay(Weekly, d) && DayNumber(d) > DayNumber(today) ==> DayNumber(next) <= DayNumber(d))
  {
    NextMonday(DayNumber(today), DayNumber(d));
  }

  lemma NextMonday(n: nat, other: nat)
    ensures var next := n + DaysUntilMonday(Weekday(n));
            && Weekday(next) == 1 && n < next <= n + 7
            && (Weekday(other) == 1 && other > n ==> next <= other)
  {
    var next := n + DaysUntilMonday(Weekday(n));
    assert next == 7 * (n / 7 + 1);
    if Weekday(other) == 1 && other > n {
      assert other == 7 * (other / 7);
    }
  }

  lemma MonthlyNext(today: Date, d: Date)
    requires Valid(today) && Valid(d)
    ensures var next := NextRunDate(Monthly, today);
            && RunDay(Monthly, next) && DayNumber(today) < DayNumber(next) <= DayNumber(today) + 31
            && (RunDay(Monthly, d) && DayNumber(d) > DayNumber(today) ==> DayNumber(next) <= DayNumber(d))
  {
    var next := NextRunDate(Monthly, today);
    assert next == if today.month == 12 then Date(today.year + 1, 1, 1) else Date(today.year, today.month + 1, 1);
    EarlierIsSmaller(today, next);
    MonthEnd(today);
    NumbersOrder(today, d);
    NumbersOrder(d, next);
  }

  /** The number of the first day of the next month. */
  lemma MonthEnd(today: Date)
    requires Valid(today)
    ensures var next := if today.month == 12 then Date(today.year + 1, 1, 1) else Date(today.year, today.month + 1, 1);
            DayNumber(next) == DayNumber(today) - today.day + 1 + DaysIn(today.year, today.month)
  {
    var last := today.(day := DaysIn(today.year, today.month));
    var next := if today.month == 12 then Date(today.year + 1, 1, 1) else Date(today.year, today.month + 1, 1);
    NextDayNumber(last);
    assert NextDay(last) == next;
    assert DayNumber(last) - last.day == DayNumber(today) - today.day;
  }

  lemma QuarterLength(y: nat, m: nat)
    requires m == 1 || m == 4 || m == 7 || m == 10
    ensures DaysBeforeMonth(y, m + 3) <= DaysBeforeMonth(y, m) + 92
  {
    ThreeMonths(y, m);
  }

  lemma QuarterlyNext(today: Date, d: Date)
    requires Valid(today) && Valid(d)
    ensures var next := NextRunDate(Quarterly, today);
            && RunDay(Quarterly, next) && DayNumber(today) < DayNumber(next) <= DayNumber(today) + 92
            && (RunDay(Quarterly, d) && DayNumber(d) > DayNumber(today) ==> DayNumber(next) <= DayNumber(d))
  {
    QuarterBounds(today);
    if RunDay(Quarterly, d) && DayNumber(d) > DayNumber(today) {
      NumbersOrder(today, d);
      NoQuarterBetween(today, d);
      NumbersOrder(d, NextQuarter(today));
    }
  }

  lemma NoQuarterBetween(today: Date, d: Date)
    requires Valid(today) && Valid(d) && d.day == 1 && d.month % 3 == 1 && Earlier(today, d)
    ensures !Earlier(d, NextQuarter(today))
  {
    if d.year == today.year { NextQuarterMonth(today.month, d.month); }
  }

  function QuarterStart(d: Date): (q: Date)
    requires Valid(d)
    ensures Valid(q)
  {
    Date(d.year, QuarterMonth(d.month), 1)
  }

  lemma NextQuarterMonth(m: nat, other: nat)
    requires 1 <= m <= 12 && m < other && other % 3 == 1
    ensures other >= QuarterMonth(m) + 3
  {
  }

  lemma QuarterBounds(today: Date)
    requires Valid(today)
    ensures var start, next := QuarterStart(today), NextQuarter(today);
            && start.month in {1, 4, 7, 10} && next.day == 1 && next.month % 3 == 1
                && DayNumber(start) <= DayNumber(today) < DayNumber(next) <= DayNumber(start) + 92
            && next == AddMonths(start, 3)
  {
    var start, next := QuarterStart(today), NextQuarter(today);
    EarlierIsSmaller(today, next);
    NumbersOrder(start, today);
    QuarterLength(today.year, start.month);
    if start.month == 10 {
      MonthsOfYear(today.year);
    }
  }

  /**
   The next run is at 08:00 on the earliest run day dated after today, so it is strictly later than now,
   and the run day is at most 7, 31 or 92 days away.
   */
  lemma NextRunIsEarliest(frequency: Frequency, now: Moment, d: Date)
    requires Valid(d)
    ensures var next := ComputeNextRunAt(frequency, now);
            && next.ticks == 8 * TICKS_PER_HOUR && Precedes(now, next)
            && RunDay(frequency, next.date)
            && DayNumber(now.date) < DayNumber(next.date) <= DayNumber(now.date) + LongestGap(frequency)
            && (RunDay(frequency, d) && DayNumber(d) > DayNumber(now.date) ==> DayNumber(next.date) <= DayNumber(d))
  {
    if frequency == Weekly {
      WeeklyNext(now.date, d);
    } else if frequency == Monthly {
      MonthlyNext(now.date, d);
    } else {
      QuarterlyNext(now.date, d);
    }
  }

  lemma NextRunIsLater(frequency: Frequency, now: Moment)
    ensures Precedes(now, ComputeNextRunAt(frequency, now))
  {
    NextRunIsEarliest(frequency, now, now.date);
  }

  /** A run later than another is never scheduled before it. */
  lemma NextRunMonotone(frequency: Frequency, a: Moment, b: Moment)
    requires DayNumber(a.date) <= DayNumber(b.date)
    ensures DayNumber(ComputeNextRunAt(frequency, a).date) <= DayNumber(ComputeNextRunAt(frequency, b).date)
  {
    NextRunIsEarliest(frequency, b, b.date);
    NextRunIsEarliest(frequency, a, ComputeNextRunAt(frequency, b).date);
  }

  /** On time, weekly runs are exactly seven days apart and monthly ones fall in consecutive months. */
  lemma OnTimeRuns(now: Moment, late: Moment)
    ensures var next := ComputeNextRunAt(Weekly, now);
            late.date == next.date ==> DayNumber(ComputeNextRunAt(Weekly, late).date) == DayNumber(next.date) + 7
    ensures var next := ComputeNextRunAt(Monthly, now).date;
            late.date.year == next.year && late.date.month == next.month ==>
              ComputeNextRunAt(Monthly, late).date == AddMonths(next, 1)
  {
    var next := ComputeNextRunAt(Weekly, now);
    NextRunIsEarliest(Weekly, now, now.date);
  }

  /** The n-th run when every run is computed from the one before. */
  function Fed(frequency: Frequency, now: Moment, n: nat): Moment {
    if n == 0 then now else ComputeNextRunAt(frequency, Fed(frequency, now, n - 1))
  }

  lemma FedStep(frequency: Frequency, now: Moment, n: nat)
    ensures Precedes(Fed(frequency, now, n), Fed(frequency, now, n + 1))
  {
    NextRunIsLater(frequency, Fed(frequency, now, n));
  }

  lemma {:induction false} FedBeyond(frequency: Frequency, now: Moment, earlier: Moment, from: nat, n: nat)
    requires from <= n && Precedes(earlier, Fed(frequency, now, from))
    ensures Precedes(earlier, Fed(frequency, now, n))
    decreases n - from
  {
    if from < n {
      FedStep(frequency, now, from);
      FedBeyond(frequency, now, earlier, from + 1, n);
    }
  }

  /** Runs fed back are strictly later one after the other. */
  lemma FedIncreases(frequency: Frequency, now: Moment, m: nat, n: nat)
    requires m < n
    ensures Precedes(Fed(frequency, now, m), Fed(frequency, now, n))
  {
    FedStep(frequency, now, m);
    FedBeyond(frequency, now, Fed(frequency, now, m), m + 1, n);
  }

  /** Weekly runs fed back are exactly seven days apart, each at 08:00. */
  lemma {:induction false} FedWeekly(now: Moment, n: nat)
    requires n >= 1
    ensures var first, nth := Fed(Weekly, now, 1), Fed(Weekly, now, n);
            DayNumber(nth.date) == DayNumber(first.date) + 7 * (n - 1) && nth.ticks == first.ticks
  {
    if n > 1 {
      FedWeekly(now, n - 1);
      OnTimeRuns(Fed(Weekly, now, n - 2), Fed(Weekly, now, n - 1));
    }
  }

  // ---- Periods ------------------------------------------------------------------------

  /** The number of the week (from Monday), month or quarter a date lies in. */
  function Period(frequency: Frequency, d: Date): nat
    requires Valid(d)
  {
    if frequency == Weekly then DayNumber(d) / 7
    else if frequency == Monthly then 12 * d.year + d.month
    else 4 * d.year + (d.month - 1) / 3
  }

  lemma PeriodMonotone(frequency: Frequency, a: Date, b: Date)
    requires Valid(a) && Valid(b) && DayNumber(a) <= DayNumber(b)
    ensures Period(frequency, a) <= Period(frequency, b)
  {
    NumbersOrder(b, a);
  }

  lemma NextWeek(n: nat)
    ensures (n + DaysUntilMonday(Weekday(n))) / 7 == n / 7 + 1
  {
  }

  lemma NextMonthPeriod(d: Date)
    requires Valid(d)
    ensures Period(Monthly, NextRunDate(Monthly, d)) == Period(Monthly, d) + 1
  {
  }

  lemma NextQuarterPeriod(d: Date)
    requires Valid(d)
    ensures Period(Quarterly, NextRunDate(Quarterly, d)) == Period(Quarterly, d) + 1
  {
  }

  /** The next run falls in the very next week, month or quarter. */
  lemma NextRunIsNextPeriod(frequency: Frequency, today: Date)
    requires Valid(today)
    ensures Period(frequency, NextRunDate(frequency, today)) == Period(frequency, today) + 1
  {
    if frequency == Weekly {
      NextWeek(DayNumber(today));
    } else if frequency == Monthly {
      NextMonthPeriod(today);
    } else {
      NextQuarterPeriod(today);
    }
  }

  // ---- What a run reports on ----------------------------------------------------------------

  /** The first day of the calendar quarter before a date's. */
  function PreviousQuarter(d: Date): (q: Date)
    requires Valid(d) && d.year >= 2
    ensures Valid(q) && q.day == 1
  {
    var quarter := (d.month - 1) / 3;
    Date(if quarter == 0 then d.year - 1 else d.year, if quarter == 0 then 10 else (quarter - 1) * 3 + 1, 1)
  }

  lemma PreviousQuarterEnds(d: Date)
    requires Valid(d) && d.year >= 2
    ensures AddMonths(PreviousQuarter(d), 3) == QuarterStart(d)
  {
  }

  /** First and last date of a report. */
  function ComputeDateRange(frequency: Frequency, asOf: Date): (Date, Date)
    requires Valid(asOf) && asOf.year >= 2
  {
    SecondYear(asOf);
    if frequency == Weekly then (AddDays(asOf, -7), asOf)
    else if frequency == Monthly then
      var firstOfMonth := Date(asOf.year, asOf.month, 1);
      var lastMonthEnd := AddDays(firstOfMonth, -1);
      (Date(lastMonthEnd.year, lastMonthEnd.month, 1), lastMonthEnd)
    else
      var fromDate := PreviousQuarter(asOf);
      EarlierIsSmaller(Date(1, 1, 1), AddMonths(fromDate, 3));
      (fromDate, AddDays(AddMonths(fromDate, 3), -1))
  }

  lemma SecondYear(d: Date)
    requires Valid(d) && d.year >= 2
    ensures DayNumber(d) >= 365 && DayNumber(Date(d.year, d.month, 1)) >= 365
  {
    YearsMonotone(1, d.year);
  }

  lemma DayBefore(d: Date, next: Date)
    requires Valid(d) && NextDay(d) == next
    ensures DayNumber(next) >= 1 && AddDays(next, -1) == d
  {
    NextDayNumber(d);
    NumbersOrder(AddDays(next, -1), d);
  }

  /** The first day of the calendar month before a date's. */
  function PreviousMonth(d: Date): (m: Date)
    requires Valid(d) && d.year >= 2
    ensures Valid(m) && m.day == 1
  {
    if d.month == 1 then Date(d.year - 1, 12, 1) else Date(d.year, d.month - 1, 1)
  }

  lemma NextMonthStart(d: Date)
    requires Valid(d) && d.year >= 2
    ensures var start, first := PreviousMonth(d), Date(d.year, d.month, 1);
            && AddMonths(start, 1) == first && NextDay(start.(day := DaysIn(start.year, start.month))) == first
  {
  }

  /** A monthly report covers exactly the calendar month before the run's. */
  lemma MonthlyCovers(asOf: Date)
    requires Valid(asOf) && asOf.year >= 2
    ensures var range := ComputeDateRange(Monthly, asOf);
            && Valid(range.0) && Valid(range.1) && range.0.day == 1
            && range.0 == PreviousMonth(asOf)
            && range.1 == Date(range.0.year, range.0.month, DaysIn(range.0.year, range.0.month))
            && NextDay(range.1) == Date(asOf.year, asOf.month, 1)
            && AddMonths(range.0, 1) == Date(asOf.year, asOf.month, 1)
  {
    var start := PreviousMonth(asOf);
    NextMonthStart(asOf);
    DayBefore(start.(day := DaysIn(start.year, start.month)), Date(asOf.year, asOf.month, 1));
  }

  /** A quarterly report covers exactly the calendar quarter before the run's. */
  lemma QuarterlyCovers(asOf: Date)
    requires Valid(asOf) && asOf.year >= 2
    ensures var range := ComputeDateRange(Quarterly, asOf);
            && Valid(range.0) && Valid(range.1) && range.0.day == 1
            && NextDay(range.1) == QuarterStart(asOf) && AddMonths(range.0, 3) == QuarterStart(asOf)
  {
    var start := QuarterStart(asOf);
    PreviousQuarterEnds(asOf);
    var year, month := if start.month == 1 then asOf.year - 1 else asOf.year, if start.month == 1 then 12
        else start.month - 1;
    DayBefore(Date(year, month, DaysIn(year, month)), start);
  }

  /** The report of a run starts on the day after the last one of another run. */
  predicate Continues(frequency: Frequency, before: Date, after: Date)
    requires Valid(before) && before.year >= 2 && Valid(after) && after.year >= 2
  {
    RangesAreValid(frequency, before);
    ComputeDateRange(frequency, after).0 == NextDay(ComputeDateRange(frequency, before).1)
  }

  lemma RangesAreValid(frequency: Frequency, asOf: Date)
    requires Valid(asOf) && asOf.year >= 2
    ensures var range := ComputeDateRange(frequency, asOf); Valid(range.0) && Valid(range.1)
  {
    SecondYear(asOf);
    QuarterlyCovers(asOf);
  }

  lemma MonthsFollow(before: Date, after: Date)
    requires Valid(before) && before.year >= 2 && Valid(after) && after.year >= 2
    ensures Continues(Monthly, before, after)
            <==> Period(Monthly, after) == Period(Monthly, before) + 1
  {
    MonthlyCovers(before);
    MonthlyCovers(after);
    MonthNumbers(before, after);
  }

  lemma MonthNumbers(before: Date, after: Date)
    requires Valid(before) && Valid(after) && after.year >= 2
    ensures PreviousMonth(after) == Date(before.year, before.month, 1)
            <==> Period(Monthly, after) == Period(Monthly, before) + 1
  {
  }

  lemma SameMonth(a: Date, b: Date)
    requires Valid(a) && Valid(b)
    ensures Period(Monthly, a) == Period(Monthly, b) <==> a.year == b.year && a.month == b.month
  {
  }

  /**
   Weekly reports span eight dates: they tile exactly when the runs are eight days apart, and share
   dates when they are nearer. On time, seven days apart, neighbours share their boundary Monday.
   */
  lemma WeeklyTilesIff(before: Date, after: Date)
    requires Valid(before) && before.year >= 2 && Valid(after) && after.year >= 2
    ensures Continues(Weekly, before, after) <==> DayNumber(after) == DayNumber(before) + 8
    ensures var from, to := ComputeDateRange(Weekly, after).0, ComputeDateRange(Weekly, before).1;
            && Valid(from) && Valid(to)
            && (from == to || Earlier(from, to) <==> DayNumber(after) < DayNumber(before) + 8)
            && (Earlier(NextDay(to), from) <==> DayNumber(after) > DayNumber(before) + 8)
  {
    SecondYear(after);
    SecondYear(before);
    var from := AddDays(after, -7);
    NextDayNumber(before);
    NumbersOrder(from, before);
    NumbersOrder(from, NextDay(before));
    NumbersOrder(NextDay(before), from);
  }

  lemma WeeklyReportsOverlap(now: Moment, late: Moment)
    requires now.date.year >= 2 && late.date.year >= 2
    requires DayOfWeek(now.date) == 1 && late.date == ComputeNextRunAt(Weekly, now).date
    ensures ComputeDateRange(Weekly, late.date).0 == ComputeDateRange(Weekly, now.date).1 == now.date
    ensures !Continues(Weekly, now.date, late.date)
  {
    OnTimeMonday(now.date);
    SecondYear(late.date);
    FromDayInverse(now.date);
    WeeklyTilesIff(now.date, late.date);
  }

  lemma OnTimeMonday(d: Date)
    requires Valid(d) && DayOfWeek(d) == 1
    ensures DayNumber(NextRunDate(Weekly, d)) == DayNumber(d) + 7
  {
  }

  /** A run falls in the month or quarter after an earlier one's; weekly, eight days on. */
  predicate Follows(frequency: Frequency, before: Date, after: Date)
    requires Valid(before) && Valid(after)
  {
    if frequency == Weekly then DayNumber(after) == DayNumber(before) + 8
    else Period(frequency, after) == Period(frequency, before) + 1
  }

  lemma QuartersFollow(before: Date, after: Date)
    requires Valid(before) && before.year >= 2 && Valid(after) && after.year >= 2
    ensures Continues(Quarterly, before, after) <==> Period(Quarterly, after) == Period(Quarterly, before) + 1
  {
    QuarterlyCovers(before);
    QuarterNumbers(before, after);
  }

  lemma QuarterNumbers(before: Date, after: Date)
    requires Valid(before) && Valid(after) && after.year >= 2
    ensures PreviousQuarter(after) == QuarterStart(before)
            <==> Period(Quarterly, after) == Period(Quarterly, before) + 1
  {
  }

  /** Two reports tile exactly when the later run is in the period after the earlier one's. */
  lemma ContinuesIff(frequency: Frequency, before: Date, after: Date)
    requires Valid(before) && before.year >= 2 && Valid(after) && after.year >= 2
    ensures Continues(frequency, before, after) <==> Follows(frequency, before, after)
  {
    match frequency
    case Weekly => WeeklyTilesIff(before, after);
    case Monthly => MonthsFollow(before, after);
    case Quarterly => QuartersFollow(before, after);
  }

  /**
   A run reports as of one clock reading, `now`, and schedules the next run from a later one, `at`. Its
   report is continued by that of a run in the scheduled month or quarter exactly when both readings lie
   in the same one, and by no later run at all.
   */
  lemma ScheduledTilesIff(frequency: Frequency, now: Date, at: Date, late: Date)
    requires frequency != Weekly && Valid(now) && now.year >= 2 && Valid(at) && Valid(late) && late.year >= 2
    ensures Period(frequency, late) == Period(frequency, NextRunDate(frequency, at)) ==>
              (Continues(frequency, now, late) <==> Period(frequency, at) == Period(frequency, now))
    ensures DayNumber(now) <= DayNumber(at) && DayNumber(NextRunDate(frequency, at)) <= DayNumber(late) ==>
              (Continues(frequency, now, late)
               <==> && Period(frequency, at) == Period(frequency, now)
                    && Period(frequency, late) == Period(frequency, NextRunDate(frequency, at)))
  {
    ContinuesIff(frequency, now, late);
    NextRunIsNextPeriod(frequency, at);
    if DayNumber(now) <= DayNumber(at) { PeriodMonotone(frequency, now, at); }
    if DayNumber(NextRunDate(frequency, at)) <= DayNumber(late) {
      PeriodMonotone(frequency, NextRunDate(frequency, at), late);
    }
  }

  /**
   Monthly reports tile exactly when the later run falls in the month after the earlier one's. A run the
   schedule allows, at or after the scheduled instant, does so exactly when it falls in the scheduled
   month and the earlier run read the clock for it in the month it ran in.
   */
  lemma MonthlyReportsTile(now: Moment, at: Moment, late: Moment)
    requires now.date.year >= 2 && late.date.year >= 2
    ensures var next := NextRunDate(Monthly, now.date);
            Continues(Monthly, now.date, late.date)
            <==> late.date.year == next.year && late.date.month == next.month
    ensures var next := ComputeNextRunAt(Monthly, at);
            NotAfter(now, at) && NotAfter(next, late) ==>
              (Continues(Monthly, now.date, late.date)
               <==> && at.date.year == now.date.year && at.date.month == now.date.month
                    && late.date.year == next.date.year && late.date.month == next.date.month)
  {
    MonthsFollow(now.date, late.date);
    NextRunIsNextPeriod(Monthly, now.date);
    SameMonth(late.date, NextRunDate(Monthly, now.date));
    ScheduledTilesIff(Monthly, now.date, at.date, late.date);
    SameMonth(at.date, now.date);
    SameMonth(late.date, NextRunDate(Monthly, at.date));
  }

  /** So do quarterly ones, with the quarter. */
  lemma QuarterlyReportsTile(now: Moment, at: Moment, late: Moment)
    requires now.date.year >= 2 && late.date.year >= 2
    ensures Continues(Quarterly, now.date, late.date)
            <==> QuarterStart(late.date) == NextRunDate(Quarterly, now.date)
    ensures var next := ComputeNextRunAt(Quarterly, at);
            NotAfter(now, at) && NotAfter(next, late) ==>
              (Continues(Quarterly, now.date, late.date)
               <==> QuarterStart(at.date) == QuarterStart(now.date) && QuarterStart(late.date) == next.date)
  {
    QuarterlyCovers(now.date);
    PreviousQuarterIsStart(now.date, late.date);
    ScheduledTilesIff(Quarterly, now.date, at.date, late.date);
    SameQuarter(at.date, now.date);
    SameQuarter(late.date, NextQuarter(at.date));
    NextQuarterStarts(at.date);
  }

  lemma PreviousQuarterIsStart(now: Date, late: Date)
    requires Valid(now) && Valid(late) && late.year >= 2
    ensures PreviousQuarter(late) == QuarterStart(now) <==> QuarterStart(late) == NextQuarter(now)
  {
    PreviousQuarterEnds(late);
  }

  lemma SameQuarter(a: Date, b: Date)
    requires Valid(a) && Valid(b)
    ensures Period(Quarterly, a) == Period(Quarterly, b) <==> QuarterStart(a) == QuarterStart(b)
  {
  }

  lemma NextQuarterStarts(d: Date)
    requires Valid(d)
    ensures QuarterStart(NextQuarter(d)) == NextQuarter(d)
  {
  }

  /**
   A weekly report is continued by that of its scheduled day exactly when the run was a Sunday's and read
   the clock for the next one in the following week.
   */
  lemma WeeklyOnScheduleTilesIff(now: Date, at: Date)
    requires Valid(now) && now.year >= 2 && Valid(at) && at.year >= 2
    ensures NextRunDate(Weekly, at).year >= 2
    ensures Continues(Weekly, now, NextRunDate(Weekly, at))
            <==> DayOfWeek(now) == 0 && Period(Weekly, at) == Period(Weekly, now) + 1
  {
    var next := NextRunDate(Weekly, at);
    WeeklyNext(at, at);
    NumbersOrder(at, next);
    WeeklyTilesIff(now, next);
    SundayArithmetic(DayNumber(now), DayNumber(at));
  }

  lemma SundayArithmetic(now: nat, at: nat)
    ensures at + DaysUntilMonday(Weekday(at)) == now + 8 <==> Weekday(now) == 0 && at / 7 == now / 7 + 1
  {
  }

  // ---- The runner ------------------------------------------------------------------------------

  datatype ReportSchedule = ReportSchedule(id: nat, frequency: string, active: bool, lastRunAt: Option<Moment>,
      nextRunAt: Option<Moment>) {
    function Cadence(): Frequency { FrequencyOf(frequency) }
  }

  datatype Job = Job(scheduleId: nat, dateFrom: Date, dateTo: Date, createdAt: Moment)

  /**
   How far the run of one schedule gets: it throws before its job is stored, or before the schedule is
   updated, or it completes and reads the clock once more for the next run.
   */
  datatype Outcome = Failed | JobOnly | Rescheduled(at: Moment)

  predicate Due(s: ReportSchedule, now: Moment) {
    s.active && s.nextRunAt.Some? && NotAfter(s.nextRunAt.value, now)
  }

  /** A schedule after its run. */
  function Fired(s: ReportSchedule, now: Moment, outcome: Outcome): ReportSchedule {
    if outcome.Rescheduled?
      then s.(lastRunAt := Some(now), nextRunAt := Some(ComputeNextRunAt(s.Cadence(), outcome.at)))
    else s
  }

  /** The job its run stores, if any. */
  function JobOf(s: ReportSchedule, now: Moment, outcome: Outcome): seq<Job>
    requires now.date.year >= 2
  {
    if outcome.Failed? then []
    else
      var range := ComputeDateRange(s.Cadence(), now.date);
      [Job(s.id, range.0, range.1, now)]
  }

  /** The positions a query for due schedules returns, whatever order it gives equal times. */
  predicate DueList(schedules: seq<ReportSchedule>, now: Moment, due: seq<nat>)
  {
    && (forall k :: 0 <= k < |due| ==> due[k] < |schedules| && Due(schedules[due[k]], now))
    && (forall i :: 0 <= i < |schedules| && Due(schedules[i], now) ==> i in due)
    && (forall j, k :: 0 <= j < k < |due| ==> due[j] != due[k])
    && (forall j, k :: 0 <= j < k < |due| ==>
          NotAfter(schedules[due[j]].nextRunAt.value, schedules[due[k]].nextRunAt.value))
  }

  /** The jobs of the listed schedules, in the order of the list. */
  function JobsOf(schedules: seq<ReportSchedule>, due: seq<nat>, now: Moment, outcomes: seq<Outcome>): seq<Job>
    requires now.date.year >= 2 && |outcomes| == |due| && forall k :: 0 <= k < |due| ==> due[k] < |schedules|
  {
    if due == [] then []
    else
      var last := |due| - 1;
      JobsOf(schedules, due[..last], now, outcomes[..last]) + JobOf(schedules[due[last]], now, outcomes[last])
  }

  /** The listed schedules run, one after the other. */
  function FireAll(schedules: seq<ReportSchedule>, due: seq<nat>, now: Moment, outcomes: seq<Outcome>)
    : (after: seq<ReportSchedule>)
    requires |outcomes| == |due| && forall k :: 0 <= k < |due| ==> due[k] < |schedules|
    ensures |after| == |schedules|
  {
    if due == [] then schedules
    else
      var last := |due| - 1;
      var i := due[last];
      FireAll(schedules, due[..last], now, outcomes[..last])[i := Fired(schedules[i], now, outcomes[last])]
  }

  lemma {:induction false} FireAllElsewhere(schedules: seq<ReportSchedule>, due: seq<nat>, now: Moment,
      outcomes: seq<Outcome>, i: nat)
    requires |outcomes| == |due| && forall k :: 0 <= k < |due| ==> due[k] < |schedules|
    requires i < |schedules| && i !in due
    ensures FireAll(schedules, due, now, outcomes)[i] == schedules[i]
  {
    if due != [] {
      var last := |due| - 1;
      FireAllElsewhere(schedules, due[..last], now, outcomes[..last], i);
      assert due[last] in due;
    }
  }

  lemma {:induction false} FireAllAt(schedules: seq<ReportSchedule>, due: seq<nat>, now: Moment,
      outcomes: seq<Outcome>, k: nat)
    requires |outcomes| == |due| && forall k :: 0 <= k < |due| ==> due[k] < |schedules|
    requires k < |due| && forall j, k :: 0 <= j < k < |due| ==> due[j] != due[k]
    ensures FireAll(schedules, due, now, outcomes)[due[k]] == Fired(schedules[due[k]], now, outcomes[k])
  {
    var last := |due| - 1;
    if k < last {
      FireAllAt(schedules, due[..last], now, outcomes[..last], k);
    }
  }

  lemma FireOneMore(schedules: seq<ReportSchedule>, due: seq<nat>, now: Moment, outcomes: seq<Outcome>, k: nat)
    requires now.date.year >= 2 && DueList(schedules, now, due) && |outcomes| == |due| && k < |due|
    ensures var fired := FireAll(schedules, due[..k], now, outcomes[..k]);
            && fired[due[k]] == schedules[due[k]]
            && FireAll(schedules, due[..k + 1], now, outcomes[..k + 1])
               == fired[due[k] := Fired(schedules[due[k]], now, outcomes[k])]
    ensures JobsOf(schedules, due[..k + 1], now, outcomes[..k + 1])
            == JobsOf(schedules, due[..k], now, outcomes[..k]) + JobOf(schedules[due[k]], now, outcomes[k])
  {
    assert due[..k + 1][..k] == due[..k] && outcomes[..k + 1][..k] == outcomes[..k];
    FireAllElsewhere(schedules, due[..k], now, outcomes[..k], due[k]);
  }

  class ScheduleRunner {
    var schedules: seq<ReportSchedule>
    var jobs: seq<Job>

    /** `due` is what the query answers, `outcomes` how far each of its runs gets. */
    method ExecuteDueSchedules(now: Moment, due: seq<nat>, outcomes: seq<Outcome>)
      requires now.date.year >= 2 && DueList(schedules, now, due) && |outcomes| == |due|
      modifies this
      ensures schedules == FireAll(old(schedules), due, now, outcomes)
      ensures jobs == old(jobs) + JobsOf(old(schedules), due, now, outcomes)
    {
      ghost var before := schedules;
      var k := 0;
      while k < |due|
        invariant 0 <= k <= |due|
        invariant schedules == FireAll(before, due[..k], now, outcomes[..k])
        invariant jobs == old(jobs) + JobsOf(before, due[..k], now, outcomes[..k])
      {
        FireOneMore(before, due, now, outcomes, k);
        AppendAssociates(old(jobs), JobsOf(before, due[..k], now, outcomes[..k]),
          JobOf(before[due[k]], now, outcomes[k]));
        Run(due[k], now, outcomes[k]);
        k := k + 1;
      }
      assert due[..|due|] == due && outcomes[..|due|] == outcomes;
    }

    /** One schedule's turn; what it throws is logged and the loop goes on. */
    method Run(i: nat, now: Moment, outcome: Outcome)
      requires now.date.year >= 2 && i < |schedules|
      modifies this
      ensures schedules == old(schedules)[i := Fired(old(schedules)[i], now, outcome)]
      ensures jobs == old(jobs) + JobOf(old(schedules)[i], now, outcome)
    {
      if outcome.Failed? { return; }
      var schedule := schedules[i];
      var range := ComputeDateRange(schedule.Cadence(), now.date);
      jobs := jobs + [Job(schedule.id, range.0, range.1, now)];
      if outcome.JobOnly? { return; }
      schedules := schedules[i := schedule.(lastRunAt := Some(now),
          nextRunAt := Some(ComputeNextRunAt(schedule.Cadence(), outcome.at)))];
    }
  }

  /** The clock does not go back while a run completes. */
  predicate Forward(now: Moment, outcome: Outcome) { outcome.Rescheduled? ==> NotAfter(now, outcome.at) }

  /** A schedule is due after its run exactly when it was and the run did not complete. */
  lemma FiringSettles(s: ReportSchedule, now: Moment, outcome: Outcome)
    requires Due(s, now) && Forward(now, outcome)
    ensures Due(Fired(s, now, outcome), now) <==> !outcome.Rescheduled?
  {
    if outcome.Rescheduled? { NextRunIsEarliest(s.Cadence(), outcome.at, now.date); }
  }

  /** One pass runs exactly the due schedules, and afterwards those are due whose run did not complete. */
  lemma PassFiresAllDue(schedules: seq<ReportSchedule>, due: seq<nat>, now: Moment, outcomes: seq<Outcome>, i: nat)
    requires DueList(schedules, now, due) && |outcomes| == |due| && i < |schedules|
    requires forall k :: 0 <= k < |due| ==> Forward(now, outcomes[k])
    ensures var after := FireAll(schedules, due, now, outcomes)[i];
            && (!Due(schedules[i], now) ==> after == schedules[i])
            && (Due(schedules[i], now) ==>
                  exists k :: 0 <= k < |due| && due[k] == i && after == Fired(schedules[i], now, outcomes[k])
                              && (Due(after, now) <==> !outcomes[k].Rescheduled?))
  {
    if Due(schedules[i], now) {
      var k :| 0 <= k < |due| && due[k] == i;
      FireAllAt(schedules, due, now, outcomes, k);
      FiringSettles(schedules[i], now, outcomes[k]);
    } else {
      FireAllElsewhere(schedules, due, now, outcomes, i);
    }
  }

  // ---- One schedule over the runner's passes -------------------------------------------------------

  /** A pass as one schedule meets it: when it starts, and how far the schedule's run gets if it is due. */
  datatype Pass = Pass(now: Moment, outcome: Outcome)

  predicate InOrder(passes: seq<Pass>) {
    && (forall k :: 0 <= k < |passes| ==> passes[k].now.date.year >= 2 && Forward(passes[k].now, passes[k].outcome))
    && (forall j, k :: 0 <= j < k < |passes| ==> NotAfter(passes[j].now, passes[k].now))
  }

  function Next(s: ReportSchedule, pass: Pass): ReportSchedule {
    if Due(s, pass.now) then Fired(s, pass.now, pass.outcome) else s
  }

  predicate Stores(s: ReportSchedule, pass: Pass) { Due(s, pass.now) && !pass.outcome.Failed? }

  /** The passes at which a report of the schedule is stored. */
  function Reports(s: ReportSchedule, passes: seq<Pass>): (reports: seq<Pass>)
    ensures forall k :: 0 <= k < |reports| ==> reports[k] in passes
    decreases |passes|
  {
    if passes == [] then []
    else
      var later := Reports(Next(s, passes[0]), passes[1..]);
      if Stores(s, passes[0]) then [passes[0]] + later else later
  }

  /** The first pass at which a run gets as far as its job. */
  function FirstJob(passes: seq<Pass>): Option<Pass>
    decreases |passes|
  {
    if passes == [] then None
    else if !passes[0].outcome.Failed? then Some(passes[0])
    else FirstJob(passes[1..])
  }

  /** A report is stored without rescheduling, and the first run to store one afterwards is in the same period. */
  predicate Repeats(s: ReportSchedule, passes: seq<Pass>)
    decreases |passes|
  {
    passes != [] && (RepeatsAtOnce(s, passes) || Repeats(Next(s, passes[0]), passes[1..]))
  }

  predicate RepeatsAtOnce(s: ReportSchedule, passes: seq<Pass>)
    requires passes != []
  {
    && Due(s, passes[0].now) && passes[0].outcome.JobOnly?
    && SamePeriod(s.Cadence(), passes[0], FirstJob(passes[1..]))
  }

  predicate SamePeriod(frequency: Frequency, pass: Pass, next: Option<Pass>) {
    next.Some? && Period(frequency, next.value.now.date) == Period(frequency, pass.now.date)
  }

  /** Each report falls in a later week, month or quarter than the one before. */
  predicate OncePerPeriod(frequency: Frequency, reports: seq<Pass>) {
    |reports| >= 2 ==>
      && Period(frequency, reports[0].now.date) < Period(frequency, reports[1].now.date)
      && OncePerPeriod(frequency, reports[1..])
  }

  /** Where a run completed, the next report comes at or after the run it scheduled. */
  predicate AsScheduled(frequency: Frequency, reports: seq<Pass>) {
    |reports| >= 2 ==>
      && (reports[0].outcome.Rescheduled? ==>
            NotAfter(ComputeNextRunAt(frequency, reports[0].outcome.at), reports[1].now))
      && AsScheduled(frequency, reports[1..])
  }

  predicate FromSecondYear(reports: seq<Pass>) { forall k :: 0 <= k < |reports| ==> reports[k].now.date.year >= 2 }

  /** Each report starts on the day after the last one of the report before. */
  predicate Tiled(frequency: Frequency, reports: seq<Pass>)
    requires FromSecondYear(reports)
  {
    |reports| >= 2 ==>
      && Continues(frequency, reports[0].now.date, reports[1].now.date) && Tiled(frequency, reports[1..])
  }

  /** Each report is in the period after the one before; weekly, eight days on. */
  predicate InTurn(frequency: Frequency, reports: seq<Pass>) {
    |reports| >= 2 ==>
      && Follows(frequency, reports[0].now.date, reports[1].now.date) && InTurn(frequency, reports[1..])
  }

  /** While a schedule is due, its next report is that of the next run to store one. */
  lemma {:induction false} DueUntilStored(s: ReportSchedule, passes: seq<Pass>)
    requires InOrder(passes) && (passes != [] ==> Due(s, passes[0].now))
    ensures Reports(s, passes) == [] <==> FirstJob(passes) == None
    ensures Reports(s, passes) != [] ==> FirstJob(passes) == Some(Reports(s, passes)[0])
    decreases |passes|
  {
    if passes != [] && passes[0].outcome.Failed? {
      DueUntilStored(s, passes[1..]);
    }
  }

  /** The first report of a schedule comes when its run is due. */
  lemma {:induction false} FirstReportIsDue(s: ReportSchedule, passes: seq<Pass>)
    ensures Reports(s, passes) != [] ==> Due(s, Reports(s, passes)[0].now)
    decreases |passes|
  {
    if passes != [] && (!Due(s, passes[0].now) || passes[0].outcome.Failed?) {
      FirstReportIsDue(s, passes[1..]);
    }
  }

  /** After a completed run the next report comes at or after the run it scheduled, in a later period. */
  lemma RescheduledMovesOn(s: ReportSchedule, passes: seq<Pass>)
    requires InOrder(passes) && passes != [] && passes[0].outcome.Rescheduled? && Due(s, passes[0].now)
    ensures var later := Reports(Next(s, passes[0]), passes[1..]);
            later != [] ==>
              && NotAfter(ComputeNextRunAt(s.Cadence(), passes[0].outcome.at), later[0].now)
              && Period(s.Cadence(), passes[0].now.date) < Period(s.Cadence(), later[0].now.date)
  {
    var at := passes[0].outcome.at;
    var next := ComputeNextRunAt(s.Cadence(), at);
    FirstReportIsDue(Next(s, passes[0]), passes[1..]);
    var later := Reports(Next(s, passes[0]), passes[1..]);
    if later != [] {
      PeriodMonotone(s.Cadence(), passes[0].now.date, at.date);
      NextRunIsNextPeriod(s.Cadence(), at.date);
      PeriodMonotone(s.Cadence(), next.date, later[0].now.date);
    }
  }

  lemma OneMore(frequency: Frequency, first: Pass, later: seq<Pass>)
    ensures OncePerPeriod(frequency, [first] + later)
            <==> (later != [] ==> Period(frequency, first.now.date) < Period(frequency, later[0].now.date))
                 && OncePerPeriod(frequency, later)
    ensures AsScheduled(frequency, [first] + later)
            <==> (later != [] && first.outcome.Rescheduled? ==>
                    NotAfter(ComputeNextRunAt(frequency, first.outcome.at), later[0].now))
                 && AsScheduled(frequency, later)
  {
    assert ([first] + later)[1..] == later;
  }

  /** However often the runner passes, a completed run is followed by a report only when the run it scheduled is due. */
  lemma {:induction false} FiringsAreApart(s: ReportSchedule, passes: seq<Pass>)
    requires InOrder(passes)
    ensures AsScheduled(s.Cadence(), Reports(s, passes))
    decreases |passes|
  {
    if passes != [] {
      var next, rest := Next(s, passes[0]), passes[1..];
      LaterPasses(passes);
      FiringsAreApart(next, rest);
      if Stores(s, passes[0]) {
        OneMore(s.Cadence(), passes[0], Reports(next, rest));
        if passes[0].outcome.Rescheduled? { RescheduledMovesOn(s, passes); }
      }
    }
  }

  lemma LaterPasses(passes: seq<Pass>)
    requires InOrder(passes) && passes != []
    ensures InOrder(passes[1..]) && forall k :: 0 <= k < |passes[1..]| ==> NotAfter(passes[0].now, passes[1..][k].now)
  {
  }

  lemma StoredMovesOnIff(s: ReportSchedule, passes: seq<Pass>)
    requires InOrder(passes) && passes != [] && passes[0].outcome.JobOnly? && Due(s, passes[0].now)
    ensures var later := Reports(s, passes[1..]);
            (later != [] ==> Period(s.Cadence(), passes[0].now.date) < Period(s.Cadence(), later[0].now.date))
            <==> !SamePeriod(s.Cadence(), passes[0], FirstJob(passes[1..]))
  {
    var later := Reports(s, passes[1..]);
    DueUntilStored(s, passes[1..]);
    if later != [] {
      PeriodMonotone(s.Cadence(), passes[0].now.date, later[0].now.date);
    }
  }

  /**
   Never two reports in one week, month or quarter, exactly when no run stores its job, fails to
   reschedule, and is followed by another that stores a job in the same period.
   */
  lemma {:induction false} ReportsOncePerPeriodIff(s: ReportSchedule, passes: seq<Pass>)
    requires InOrder(passes)
    ensures OncePerPeriod(s.Cadence(), Reports(s, passes)) <==> !Repeats(s, passes)
    decreases |passes|
  {
    if passes != [] {
      var next, rest := Next(s, passes[0]), passes[1..];
      LaterPasses(passes);
      ReportsOncePerPeriodIff(next, rest);
      if Stores(s, passes[0]) {
        OneMore(s.Cadence(), passes[0], Reports(next, rest));
        if passes[0].outcome.JobOnly? {
          StoredMovesOnIff(s, passes);
        } else {
          RescheduledMovesOn(s, passes);
        }
      }
    }
  }

  /** Such a run: a job stored at one pass, and once more at the next one of the same day. */
  lemma RepeatHappens(s: ReportSchedule, now: Moment, again: Moment, at: Moment)
    requires Due(s, now) && NotAfter(now, again) && NotAfter(again, at) && now.date == again.date && now.date.year >= 2
    ensures var passes := [Pass(now, JobOnly), Pass(again, Rescheduled(at))];
            InOrder(passes) && Reports(s, passes) == passes && Repeats(s, passes)
  {
    var passes := [Pass(now, JobOnly), Pass(again, Rescheduled(at))];
    assert passes[1..] == [passes[1]];
    assert Reports(s, passes[1..]) == [passes[1]];
    assert RepeatsAtOnce(s, passes);
  }

  lemma {:induction false} TiledIffInTurn(frequency: Frequency, reports: seq<Pass>)
    requires FromSecondYear(reports)
    ensures Tiled(frequency, reports) <==> InTurn(frequency, reports)
  {
    if |reports| >= 2 {
      ContinuesIff(frequency, reports[0].now.date, reports[1].now.date);
      TiledIffInTurn(frequency, reports[1..]);
    }
  }

  /** The first pass at which a schedule is due and its run gets as far as its job. */
  function FirstStored(s: ReportSchedule, passes: seq<Pass>): Option<Pass>
    decreases |passes|
  {
    if passes == [] then None
    else if Stores(s, passes[0]) then Some(passes[0])
    else FirstStored(s, passes[1..])
  }

  /**
   A run keeps pace with the next one to store a report: it reads the clock for it in the month or quarter
   it reports in, and that run comes in the month or quarter it is scheduled for. A run that stores its job
   and fails to reschedule is due at once, and the next one has to wait for the period after.
   */
  predicate KeepsPace(frequency: Frequency, pass: Pass, next: Option<Pass>) {
    next.Some? ==>
      if frequency == Weekly then DayNumber(next.value.now.date) == DayNumber(pass.now.date) + 8
      else if pass.outcome.Rescheduled? then
        && Period(frequency, pass.outcome.at.date) == Period(frequency, pass.now.date)
        && Period(frequency, next.value.now.date) == Period(frequency, NextRunDate(frequency, pass.outcome.at.date))
      else Period(frequency, next.value.now.date) == Period(frequency, pass.now.date) + 1
  }

  /** Every pass that stores a report keeps pace with the next one to store one. */
  predicate Punctual(s: ReportSchedule, passes: seq<Pass>)
    decreases |passes|
  {
    passes != [] ==>
      var next := Next(s, passes[0]);
      && (Stores(s, passes[0]) ==> KeepsPace(s.Cadence(), passes[0], FirstStored(next, passes[1..])))
      && Punctual(next, passes[1..])
  }

  lemma {:induction false} FirstReport(s: ReportSchedule, passes: seq<Pass>)
    ensures Reports(s, passes) == [] <==> FirstStored(s, passes) == None
    ensures Reports(s, passes) != [] ==> FirstStored(s, passes) == Some(Reports(s, passes)[0])
    decreases |passes|
  {
    if passes != [] && !Stores(s, passes[0]) {
      FirstReport(s, passes[1..]);
    }
  }

  lemma OneMoreInTurn(frequency: Frequency, first: Pass, later: seq<Pass>)
    ensures InTurn(frequency, [first] + later)
            <==> (later != [] ==> Follows(frequency, first.now.date, later[0].now.date)) && InTurn(frequency, later)
  {
    assert ([first] + later)[1..] == later;
  }

  lemma PaceIff(s: ReportSchedule, passes: seq<Pass>)
    requires InOrder(passes) && passes != [] && Stores(s, passes[0])
    ensures var later := Reports(Next(s, passes[0]), passes[1..]);
            (later != [] ==> Follows(s.Cadence(), passes[0].now.date, later[0].now.date))
            <==> KeepsPace(s.Cadence(), passes[0], FirstStored(Next(s, passes[0]), passes[1..]))
  {
    var later := Reports(Next(s, passes[0]), passes[1..]);
    FirstReport(Next(s, passes[0]), passes[1..]);
    if later != [] && passes[0].outcome.Rescheduled? && s.Cadence() != Weekly {
      assert later[0] in passes[1..];
      RescheduledMovesOn(s, passes);
      ScheduledTilesIff(s.Cadence(), passes[0].now.date, passes[0].outcome.at.date, later[0].now.date);
      ContinuesIff(s.Cadence(), passes[0].now.date, later[0].now.date);
    }
  }

  lemma {:induction false} InTurnIffPunctual(s: ReportSchedule, passes: seq<Pass>)
    requires InOrder(passes)
    ensures InTurn(s.Cadence(), Reports(s, passes)) <==> Punctual(s, passes)
    decreases |passes|
  {
    if passes != [] {
      var next, rest := Next(s, passes[0]), passes[1..];
      LaterPasses(passes);
      InTurnIffPunctual(next, rest);
      if Stores(s, passes[0]) {
        OneMoreInTurn(s.Cadence(), passes[0], Reports(next, rest));
        PaceIff(s, passes);
      }
    }
  }

  /** The reports of all passes tile the calendar exactly when every pass that stores one keeps pace with the next. */
  lemma ReportsTileIff(s: ReportSchedule, passes: seq<Pass>)
    requires InOrder(passes)
    ensures FromSecondYear(Reports(s, passes))
    ensures Tiled(s.Cadence(), Reports(s, passes)) <==> Punctual(s, passes)
  {
    TiledIffInTurn(s.Cadence(), Reports(s, passes));
    InTurnIffPunctual(s, passes);
  }

  /** A run that reads the clock for the next one in a later month or quarter leaves a period out. */
  lemma LateReadingSkips(s: ReportSchedule, now: Moment, at: Moment)
    requires s.Cadence() != Weekly && Due(s, now) && now.date.year >= 2 && NotAfter(now, at)
    requires Period(s.Cadence(), now.date) < Period(s.Cadence(), at.date)
    ensures var next := ComputeNextRunAt(s.Cadence(), at);
            var passes := [Pass(now, Rescheduled(at)), Pass(next, Rescheduled(next))];
            InOrder(passes) && Reports(s, passes) == passes && !Tiled(s.Cadence(), passes)
  {
    var next := ComputeNextRunAt(s.Cadence(), at);
    var passes := [Pass(now, Rescheduled(at)), Pass(next, Rescheduled(next))];
    NextRunIsLater(s.Cadence(), at);
    NumbersOrder(next.date, now.date);
    assert passes[1..] == [passes[1]];
    assert Reports(Next(s, passes[0]), passes[1..]) == [passes[1]];
    ScheduledTilesIff(s.Cadence(), now.date, at.date, next.date);
    assert passes[0].now == now && passes[1].now == next;
  }

  lemma MonthsOrder(a: Date, b: Date)
    requires Valid(a) && Valid(b) && Period(Monthly, a) < Period(Monthly, b)
    ensures Earlier(a, b)
  {
  }

  /** Monthly, no date of the month the run reported in is in its report or in that of any run it scheduled. */
  lemma SkippedMonth(now: Date, at: Date, late: Date, d: Date)
    requires Valid(now) && now.year >= 2 && Valid(at) && Valid(late) && Valid(d)
    requires Period(Monthly, now) < Period(Monthly, at) && DayNumber(NextRunDate(Monthly, at)) <= DayNumber(late)
    requires Period(Monthly, d) == Period(Monthly, now)
    ensures late.year >= 2
    ensures Earlier(ComputeDateRange(Monthly, now).1, d) && Earlier(d, ComputeDateRange(Monthly, late).0)
  {
    NextRunIsNextPeriod(Monthly, at);
    PeriodMonotone(Monthly, NextRunDate(Monthly, at), late);
    MonthsOrder(now, late);
    MonthlyCovers(now);
    MonthlyCovers(late);
    MonthsOrder(ComputeDateRange(Monthly, now).1, d);
    MonthsOrder(d, ComputeDateRange(Monthly, late).0);
  }

  function EndOfJanuary(year: nat): Moment
    requires year >= 1
  {
    Instant(Date(year, 1, 31), TICKS_PER_DAY - 1)
  }

  lemma JanuaryDates(year: nat)
    requires year >= 1
    ensures Valid(Date(year, 1, 31)) && Valid(Date(year, 2, 1))
    ensures DayNumber(Date(year, 1, 31)) < DayNumber(Date(year, 2, 1))
    ensures NextRunDate(Monthly, Date(year, 2, 1)) == Date(year, 3, 1)
  {
    EarlierIsSmaller(Date(year, 1, 31), Date(year, 2, 1));
  }

  /** It happens at the end of any January: the next run is due on the first of March and reports on February. */
  lemma JanuarySkipped(year: nat)
    requires year >= 2
    ensures var now, at := EndOfJanuary(year), Instant(Date(year, 2, 1), 0);
            var next := AtEight(Date(year, 3, 1));
            var passes := [Pass(now, Rescheduled(at)), Pass(next, Rescheduled(next))];
            && ComputeNextRunAt(Monthly, at) == next
            && InOrder(passes) && !Tiled(Monthly, passes)
            && Reports(ReportSchedule(1, "MONTHLY", true, None, Some(now)), passes) == passes
  {
    JanuaryDates(year);
    LateReadingSkips(ReportSchedule(1, "MONTHLY", true, None, Some(EndOfJanuary(year))), EndOfJanuary(year),
      Instant(Date(year, 2, 1), 0));
  }

  // ---- The calendar and the schedules in their own words ----------------------------------------------

  /** Leap days before a year: every fourth year, but not every hundredth unless every four hundredth. */
  function LeapDays(y: nat): int
    requires y >= 1
  {
    (y - 1) / 4 - (y - 1) / 100 + (y - 1) / 400
  }

  lemma LeapStep(n: nat)
    requires n >= 1
    ensures n / 4 == (n - 1) / 4 + (if n % 4 == 0 then 1 else 0)
    ensures n / 100 == (n - 1) / 100 + (if n % 100 == 0 then 1 else 0)
    ensures n / 400 == (n - 1) / 400 + (if n % 400 == 0 then 1 else 0)
  {
  }

  lemma LeapIsCounted(n: nat)
    ensures DaysInYear(n)
            == 365 + (if n % 4 == 0 then 1 else 0) - (if n % 100 == 0 then 1 else 0) + (if n % 400 == 0 then 1 else 0)
  {
    if n % 400 == 0 { HundredsAreMultiples(n / 400); }
    if n % 100 == 0 { FoursAreMultiples(n / 100); }
  }

  lemma HundredsAreMultiples(k: nat)
    ensures (400 * k) % 100 == 0
  {
    var over := 4 * k - (400 * k) / 100;
    assert 100 * over == (400 * k) % 100;
  }

  lemma FoursAreMultiples(k: nat)
    ensures (100 * k) % 4 == 0
  {
    var over := 25 * k - (100 * k) / 4;
    assert 4 * over == (100 * k) % 4;
  }

  lemma {:induction false} YearFormula(y: nat)
    requires y >= 1
    ensures DaysBeforeYear(y) == 365 * (y - 1) + LeapDays(y)
  {
    if y > 1 {
      YearFormula(y - 1);
      LeapStep(y - 1);
      LeapIsCounted(y - 1);
    }
  }

  lemma MonthStep(m: nat)
    requires 1 <= m <= 11
    ensures (367 * (m + 1) - 362) / 12
            == (367 * m - 362) / 12 + (if m == 2 || m == 4 || m == 6 || m == 9 || m == 11 then 30 else 31)
  {
  }

  /** What a month's number adds: 367/12 days a month, less what February is short of. */
  lemma {:induction false} MonthFormula(y: nat, m: nat)
    requires 1 <= m <= 12
    ensures DaysBeforeMonth(y, m) == (367 * m - 362) / 12 - (if m <= 2 then 0 else if IsLeap(y) then 1 else 2)
  {
    if m > 1 {
      MonthFormula(y, m - 1);
      MonthStep(m - 1);
    }
  }

  /** The number of a date in closed form. */
  lemma DayNumberFormula(d: Date)
    requires Valid(d)
    ensures DayNumber(d)
            == 365 * (d.year - 1) + LeapDays(d.year) + (367 * d.month - 362) / 12
               - (if d.month <= 2 then 0 else if d.year % 4 == 0 && (d.year % 100 != 0 || d.year % 400 == 0) then 1
                  else 2)
               + d.day - 1
  {
    YearFormula(d.year);
    MonthFormula(d.year, d.month);
  }

  /** The first day of the year 2000 was a Saturday. */
  lemma MillenniumIsSaturday(d: Date)
    requires d.year == 2000 && d.month == 1 && d.day == 1
    ensures Valid(d) && DayOfWeek(d) == 6
  {
    DayNumberFormula(d);
    assert LeapDays(d.year) == 484;
    assert DayNumber(d) == 730_119;
  }

  /**
   A schedule stored as WEEKLY runs at eight on the first Monday after today, one stored as MONTHLY on the first day of
   the next month, and any other on the first day of the next quarter.
   */
  lemma StoredFrequencyRuns(name: string, now: Moment)
    ensures var next, today := ComputeNextRunAt(FrequencyOf(name), now), now.date;
            && next.ticks == 8 * 36_000_000_000
            && (name == "WEEKLY" ==>
                  DayOfWeek(next.date) == 1 && DayNumber(today) < DayNumber(next.date) <= DayNumber(today) + 7)
            && (name == "MONTHLY" ==>
                  next.date == if today.month == 12 then Date(today.year + 1, 1, 1)
                               else Date(today.year, today.month + 1, 1))
            && (name != "WEEKLY" && name != "MONTHLY" ==>
                  next.date == if today.month >= 10 then Date(today.year + 1, 1, 1)
                               else if today.month >= 7 then Date(today.year, 10, 1)
                               else if today.month >= 4 then Date(today.year, 7, 1) else Date(today.year, 4, 1))
  {
    if name == "WEEKLY" { WeeklyNext(now.date, now.date); }
  }

  /** A schedule is due when it is active and its time has come. */
  lemma DueIff(s: ReportSchedule, now: Moment)
    ensures Due(s, now) <==> s.active && s.nextRunAt.Some? && Ticks(s.nextRunAt.value) <= Ticks(now)
  {
    if s.nextRunAt.Some? { TicksOrder(now, s.nextRunAt.value); }
  }

  /** What the run of a due schedule leaves: its dates move exactly when it completes, and nothing else ever does. */
  lemma RunMovesDates(s: ReportSchedule, now: Moment, outcome: Outcome)
    ensures var after := Fired(s, now, outcome);
            && after.id == s.id && after.frequency == s.frequency && after.active == s.active
            && (outcome.Rescheduled? ==>
                  after.lastRunAt == Some(now)
                  && after.nextRunAt == Some(ComputeNextRunAt(FrequencyOf(s.frequency), outcome.at)))
            && (!outcome.Rescheduled? ==> after == s)
  {
  }

  /** The stored report is the schedule's own, created at the run, and covers the week, month or quarter before it. */
  lemma JobCoversPeriod(s: ReportSchedule, now: Moment, outcome: Outcome)
    requires now.date.year >= 2 && !outcome.Failed?
    ensures var jobs, today := JobOf(s, now, outcome), now.date;
            && |jobs| == 1 && jobs[0].scheduleId == s.id && jobs[0].createdAt == now
            && Valid(jobs[0].dateFrom) && Valid(jobs[0].dateTo)
            && (s.frequency == "WEEKLY" ==>
                  jobs[0].dateTo == today && DayNumber(jobs[0].dateFrom) + 7 == DayNumber(today))
            && (s.frequency == "MONTHLY" ==>
                  && jobs[0].dateFrom == (if today.month == 1 then Date(today.year - 1, 12, 1)
                                          else Date(today.year, today.month - 1, 1))
                  && DayNumber(jobs[0].dateTo) + 1 == DayNumber(Date(today.year, today.month, 1)))
            && (s.frequency != "WEEKLY" && s.frequency != "MONTHLY" ==>
                  && jobs[0].dateFrom == (if today.month <= 3 then Date(today.year - 1, 10, 1)
                                          else if today.month <= 6 then Date(today.year, 1, 1)
                                          else if today.month <= 9 then Date(today.year, 4, 1)
                                          else Date(today.year, 7, 1))
                  && DayNumber(jobs[0].dateTo) + 1 == DayNumber(QuarterStart(today)))
  {
    if s.frequency == "WEEKLY" {
      SecondYear(now.date);
    } else if s.frequency == "MONTHLY" {
      MonthlyCovers(now.date);
      NextDayNumber(ComputeDateRange(Monthly, now.date).1);
    } else {
      QuarterlyCovers(now.date);
      NextDayNumber(ComputeDateRange(Quarterly, now.date).1);
    }
  }

  /** The start of the last pass at which the schedule's run completed. */
  function LastCompleted(s: ReportSchedule, passes: seq<Pass>): Option<Moment> {
    if passes == [] then None
    else
      var init, last := passes[..|passes| - 1], passes[|passes| - 1];
      if Due(AfterPasses(s, init), last.now) && last.outcome.Rescheduled? then Some(last.now)
      else LastCompleted(s, init)
  }

  function AfterPasses(s: ReportSchedule, passes: seq<Pass>): ReportSchedule {
    if passes == [] then s else Next(AfterPasses(s, passes[..|passes| - 1]), passes[|passes| - 1])
  }

  /** Over any passes the last run date is the start of the last pass whose run completed. */
  lemma {:induction false} LastRunIsTold(s: ReportSchedule, passes: seq<Pass>)
    ensures AfterPasses(s, passes).lastRunAt == OrElse(LastCompleted(s, passes), s.lastRunAt)
  {
    if passes != [] { LastRunIsTold(s, passes[..|passes| - 1]); }
  }
}
