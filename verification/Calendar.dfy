/**
 Calendar periods (lib/report-obligations.ts, `nextPeriodStart`, `reportPeriodEnd`): days are
 counted from 0000-01-01 and months from January of year 0 in the proleptic Gregorian calendar.
 */
module Calendar {
  import opened Common

  datatype Cadence = Monthly | Quarterly | Annual | OneOff

  predicate LeapYear(y: nat) { y % 4 == 0 && (y % 100 != 0 || y % 400 == 0) }

  function DaysInMonth(m: nat): (d: nat)
    ensures 28 <= d <= 31
  {
    var month := m % 12;
    if month == 1 then (if LeapYear(m / 12) then 29 else 28)
    else if month in {3, 5, 8, 10} then 30
    else 31
  }

  /** First day of a month. */
  function MonthStart(m: nat): nat { if m == 0 then 0 else MonthStart(m - 1) + DaysInMonth(m - 1) }

  lemma {:induction false} MonthsIncrease(m: nat, n: nat)
    requires m < n
    ensures MonthStart(m) < MonthStart(n)
  {
    if m < n - 1 { MonthsIncrease(m, n - 1); }
  }

  lemma {:induction false} MonthStartGrows(m: nat)
    ensures m <= MonthStart(m)
  {
    if m > 0 { MonthStartGrows(m - 1); }
  }

  /** The month a day falls in, searching from month `m`. */
  function MonthFrom(m: nat, day: nat): (r: nat)
    requires MonthStart(m) <= day
    ensures MonthStart(r) <= day < MonthStart(r + 1)
    decreases day - MonthStart(m)
  {
    if day < MonthStart(m + 1) then m else MonthFrom(m + 1, day)
  }

  function MonthOf(day: nat): (r: nat)
    ensures MonthStart(r) <= day < MonthStart(r + 1)
  {
    MonthFrom(0, day)
  }

  /** Every day lies in exactly one month. */
  lemma MonthOfIs(day: nat, m: nat)
    requires MonthStart(m) <= day < MonthStart(m + 1)
    ensures MonthOf(day) == m
  {
    var r := MonthOf(day);
    if r < m { MonthBelow(r + 1, m); }
    if m < r { MonthBelow(m + 1, r); }
  }

  lemma MonthBelow(m: nat, n: nat)
    requires m <= n
    ensures MonthStart(m) <= MonthStart(n)
  {
    if m < n { MonthsIncrease(m, n); }
  }

  /** Months in one period. */
  function Step(c: Cadence): nat
    requires c != OneOff
  {
    match c case Monthly => 1 case Quarterly => 3 case Annual => 12
  }

  /** A natural period boundary: the first of a month, a quarter or a year. */
  predicate OnBoundary(day: nat, c: Cadence)
    requires c != OneOff
  {
    day == MonthStart(MonthOf(day)) && MonthOf(day) % Step(c) == 0
  }

  function NextPeriodStart(start: nat, c: Cadence): Option<nat> {
    if c == OneOff then None else Some(MonthStart(MonthOf(start) + Step(c)))
  }

  lemma MonthOfStart(m: nat)
    ensures MonthOf(MonthStart(m)) == m
  {
    MonthOfIs(MonthStart(m), m);
  }

  /** The next start is the following boundary: later, on a boundary, and nothing lies between. */
  lemma NextIsNextBoundary(start: nat, c: Cadence)
    requires c != OneOff && OnBoundary(start, c)
    ensures var next := NextPeriodStart(start, c).value;
            && start < next && OnBoundary(next, c)
            && forall b :: start < b && OnBoundary(b, c) ==> next <= b
  {
    hide MonthStart, MonthOf, MonthFrom;
    var m, k := MonthOf(start), Step(c);
    MonthsIncrease(m, m + k);
    MonthOfStart(m + k);
    NextMultiple(m, k);
    forall b | start < b && OnBoundary(b, c) ensures MonthStart(m + k) <= b {
      var n := MonthOf(b);
      NoMultipleBetween(m, n, k);
      if n <= m { MonthBelow(n, m); } else { MonthBelow(m + k, n); }
    }
  }

  lemma NoMultipleBetween(m: nat, n: nat, k: nat)
    requires k in {1, 3, 12} && m % k == 0 && n % k == 0
    ensures n <= m || m + k <= n
  {
    if k == 3 {
      Quarters(m);
      Quarters(n);
    } else if k == 12 {
      Years(m);
      Years(n);
    }
  }

  lemma Quarters(m: nat)
    requires m % 3 == 0
    ensures m == 3 * (m / 3)
    ensures (m + 3) % 3 == 0
  {
  }

  lemma Years(m: nat)
    requires m % 12 == 0
    ensures m == 12 * (m / 12)
    ensures (m + 12) % 12 == 0
  {
  }

  lemma NextMultiple(m: nat, k: nat)
    requires k in {1, 3, 12} && m % k == 0
    ensures (m + k) % k == 0
  {
    if k == 3 { Quarters(m); } else if k == 12 { Years(m); }
  }

  /** The boundary a day's period starts on. */
  function PeriodStart(day: nat, c: Cadence): nat
    requires c != OneOff
  {
    MonthStart(MonthOf(day) - MonthOf(day) % Step(c))
  }

  lemma PeriodStartIs(day: nat, c: Cadence)
    requires c != OneOff
    ensures OnBoundary(PeriodStart(day, c), c)
    ensures PeriodStart(day, c) <= day < NextPeriodStart(PeriodStart(day, c), c).value
  {
    hide MonthStart, MonthOf, MonthFrom;
    var n, k := MonthOf(day), Step(c);
    RoundDown(n, k);
    MonthOfStart(n - n % k);
    MonthBelow(n - n % k, n);
    MonthBelow(n + 1, n - n % k + k);
  }

  lemma RoundDown(n: nat, k: nat)
    requires k in {1, 3, 12}
    ensures 0 <= n % k <= n && n % k < k && (n - n % k) % k == 0
  {
    if k == 3 {
      assert n == 3 * (n / 3) + n % 3;
      Multiples(n / 3);
    } else if k == 12 {
      assert n == 12 * (n / 12) + n % 12;
      Multiples(n / 12);
    }
  }

  lemma Multiples(q: nat)
    ensures (3 * q) % 3 == 0 && (12 * q) % 12 == 0
  {
  }

  // --- The Gregorian calendar -------------------------------------------------------------------

  ghost predicate IsLeap(y: nat) { y % 400 == 0 || (y % 4 == 0 && y % 100 != 0) }

  /** Days of a common year before its month, counted from January as 0. */
  function DaysBefore(month: nat): nat
    requires month <= 12
  {
    match month
    case 0 => 0 case 1 => 31 case 2 => 59 case 3 => 90 case 4 => 120 case 5 => 151 case 6 => 181
    case 7 => 212 case 8 => 243 case 9 => 273 case 10 => 304 case 11 => 334 case _ => 365
  }

  /** Leap days before the first of January of a year; year 0 is a leap year. */
  function LeapDaysBefore(y: nat): int {
    if y == 0 then 0 else 1 + (y - 1) / 4 - (y - 1) / 100 + (y - 1) / 400
  }

  lemma LeapIs(y: nat)
    ensures LeapYear(y) <==> IsLeap(y)
  {
    LeapDivisors(y);
  }

  lemma MonthLength(y: nat, k: nat)
    requires k < 12
    ensures DaysInMonth(12 * y + k) == DaysBefore(k + 1) - DaysBefore(k) + (if k == 1 && IsLeap(y) then 1 else 0)
  {
    hide LeapYear, IsLeap;
    LeapIs(y);
    OfYear(y, k);
  }

  lemma OfYear(y: nat, k: nat)
    requires k < 12
    ensures (12 * y + k) % 12 == k && (12 * y + k) / 12 == y
  {
  }

  lemma {:induction false} WithinYear(y: nat, k: nat)
    requires k < 12
    ensures MonthStart(12 * y + k) ==
            MonthStart(12 * y) + DaysBefore(k) + (if k >= 2 && IsLeap(y) then 1 else 0)
  {
    hide DaysInMonth, IsLeap;
    if k > 0 {
      WithinYear(y, k - 1);
      MonthLength(y, k - 1);
    }
  }

  lemma LeapDayCounted(y: nat)
    ensures LeapDaysBefore(y + 1) == LeapDaysBefore(y) + (if IsLeap(y) then 1 else 0)
  {
    if y > 0 {
      Steps(y, 4);
      Steps(y, 100);
      Steps(y, 400);
      LeapDivisors(y);
    }
  }

  lemma Steps(y: nat, n: nat)
    requires y > 0 && n in {4, 100, 400}
    ensures y / n == (y - 1) / n + (if y % n == 0 then 1 else 0)
  {
  }

  lemma LeapDivisors(y: nat)
    ensures y % 400 == 0 ==> y % 100 == 0
    ensures y % 100 == 0 ==> y % 4 == 0
  {
    if y % 400 == 0 { assert y == 100 * (4 * (y / 400)); }
    if y % 100 == 0 { assert y == 4 * (25 * (y / 100)); }
  }

  lemma NextMonth(m: nat)
    ensures MonthStart(m + 1) == MonthStart(m) + DaysInMonth(m)
  {
  }

  lemma WholeYear()
    ensures DaysBefore(0) == 0 && DaysBefore(12) == 365 && LeapDaysBefore(0) == 0 && MonthStart(0) == 0
  {
  }

  /** Each year begins where the Gregorian rule puts it, and each month where the table does. */
  lemma {:induction false} YearStartIs(y: nat)
    ensures MonthStart(12 * y) == 365 * y + LeapDaysBefore(y)
  {
    if y > 0 {
      hide *;
      YearStartIs(y - 1);
      WithinYear(y - 1, 11);
      MonthLength(y - 1, 11);
      LeapDayCounted(y - 1);
      assert 12 * y == 12 * (y - 1) + 11 + 1;
      NextMonth(12 * (y - 1) + 11);
      WholeYear();
    } else {
      hide *;
      WholeYear();
    }
  }

  lemma MonthStartIs(y: nat, k: nat)
    requires k < 12
    ensures MonthStart(12 * y + k) ==
            365 * y + LeapDaysBefore(y) + DaysBefore(k) + (if k >= 2 && IsLeap(y) then 1 else 0)
  {
    hide MonthStart, IsLeap, LeapDaysBefore;
    YearStartIs(y);
    WithinYear(y, k);
  }

  /** The first day of a month, of every third month from January, or of January. */
  ghost predicate BeginsPeriod(day: nat, c: Cadence) {
    exists m: nat :: day == MonthStart(m) && (c == Quarterly ==> m % 3 == 0) && (c == Annual ==> m % 12 == 0)
  }

  lemma BoundaryIs(day: nat, c: Cadence)
    requires c != OneOff
    ensures OnBoundary(day, c) <==> BeginsPeriod(day, c)
  {
    hide MonthStart, MonthOf;
    if OnBoundary(day, c) { assert day == MonthStart(MonthOf(day)); }
    if m: nat :| day == MonthStart(m) && (c == Quarterly ==> m % 3 == 0) && (c == Annual ==> m % 12 == 0) {
      MonthOfStart(m);
    }
  }
}
