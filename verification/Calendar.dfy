/** Civil dates and their day numbers (internal/core/date.go).

    The source stores a date as Y/M/D and computes through its midnight in UTC.  Here that midnight
    is a day number, counted from the zero Date{}: Go normalises year 0, month 0, day 0 to 30 November
    of year -1, which is day 0.  `Before` is therefore `<` on day numbers and `later` is the maximum.
    Months are counted one by one with their Gregorian lengths, and the lemmas below show that day numbers
    and proleptic Gregorian dates are in bijection. */
module Calendar {

  /** A calendar date as its day number; NO_DATE is the zero Date ("never"). */
  type Date = int

  const NO_DATE: Date := 0

  /** Day number of 1 January of year 0. */
  const YEAR_ZERO: Date := 32

  datatype Civil = Civil(y: int, m: int, d: int)

  predicate IsLeap(y: int) {
    y % 4 == 0 && (y % 100 != 0 || y % 400 == 0)
  }

  /** Days of month k, where months are numbered 12 * year + (month - 1). */
  function MonthDays(k: int): (days: int)
    ensures 28 <= days <= 31
  {
    var m := k % 12;
    if m == 1 then (if IsLeap(k / 12) then 29 else 28)
    else if m == 3 || m == 5 || m == 8 || m == 10 then 30
    else 31
  }

  /** First day of month k. */
  function MonthStart(k: int): Date
    decreases if k < 0 then -k else k
  {
    if k == 0 then YEAR_ZERO
    else if k > 0 then MonthStart(k - 1) + MonthDays(k - 1)
    else MonthStart(k + 1) - MonthDays(k)
  }

  /** The month of day n, walking from month k. */
  function MonthFrom(n: Date, k: int): int
    decreases if n < MonthStart(k) then 1 else 0, if n < MonthStart(k) then MonthStart(k) - n else n - MonthStart(k)
  {
    MonthLength(k);
    MonthLength(k - 1);
    if n < MonthStart(k) then MonthFrom(n, k - 1)
    else if n >= MonthStart(k + 1) then MonthFrom(n, k + 1)
    else k
  }

  function MonthOf(n: Date): int {
    MonthFrom(n, 0)
  }

  /** time.Date(y, m, d): month and day may be out of range and are carried over. */
  function DayNumber(c: Civil): Date {
    MonthStart(12 * c.y + c.m - 1) + c.d - 1
  }

  function CivilOf(n: Date): Civil {
    var k := MonthOf(n);
    Civil(k / 12, k % 12 + 1, n - MonthStart(k) + 1)
  }

  predicate IsCivil(c: Civil) {
    1 <= c.m <= 12 && 1 <= c.d <= MonthDays(12 * c.y + c.m - 1)
  }

  /** AddDate(0, k, 0): the same day of the month k months on, carried over when that month is shorter. */
  function AddMonths(n: Date, k: int): Date {
    var c := CivilOf(n);
    DayNumber(c.(m := c.m + k))
  }

  /** 1 for Monday through 7 for Sunday. */
  function ISOWeekday(n: Date): int {
    (n + 1) % 7 + 1
  }

  function Later(a: Date, b: Date): Date {
    if a < b then b else a
  }

  lemma MonthLength(k: int)
    ensures MonthStart(k + 1) == MonthStart(k) + MonthDays(k)
  {
    hide MonthDays;
  }

  lemma {:induction false} MonthsAscend(j: int, k: int)
    requires j <= k
    ensures MonthStart(k) - MonthStart(j) >= 28 * (k - j)
    decreases k - j
  {
    hide MonthStart, MonthDays;
    if j < k {
      MonthsAscend(j, k - 1);
      MonthLength(k - 1);
    }
  }

  /** Every day lies in exactly the month MonthOf names. */
  lemma {:induction false} MonthFromContains(n: Date, k: int)
    ensures MonthStart(MonthFrom(n, k)) <= n < MonthStart(MonthFrom(n, k) + 1)
    decreases if n < MonthStart(k) then 1 else 0, if n < MonthStart(k) then MonthStart(k) - n else n - MonthStart(k)
  {
    hide MonthStart, MonthDays;
    MonthLength(k);
    MonthLength(k - 1);
    if n < MonthStart(k) {
      MonthFromContains(n, k - 1);
    } else if n >= MonthStart(k + 1) {
      MonthFromContains(n, k + 1);
    }
  }

  lemma MonthContains(n: Date)
    ensures MonthStart(MonthOf(n)) <= n < MonthStart(MonthOf(n) + 1)
  {
    hide MonthStart, MonthFrom;
    MonthFromContains(n, 0);
  }

  lemma MonthOfUnique(n: Date, k: int)
    requires MonthStart(k) <= n < MonthStart(k + 1)
    ensures MonthOf(n) == k
  {
    hide MonthOf, MonthStart;
    MonthContains(n);
    if MonthOf(n) < k {
      MonthsAscend(MonthOf(n) + 1, k);
    } else if k < MonthOf(n) {
      MonthsAscend(k + 1, MonthOf(n));
    }
  }

  /** Day numbers and Gregorian dates are in bijection: both round trips. */
  lemma CivilRoundTrip(n: Date)
    ensures IsCivil(CivilOf(n)) && DayNumber(CivilOf(n)) == n
  {
    hide MonthOf, MonthStart, MonthDays;
    var k := MonthOf(n);
    MonthContains(n);
    MonthLength(k);
    assert 12 * (k / 12) + k % 12 == k;
  }

  lemma DayNumberRoundTrip(c: Civil)
    requires IsCivil(c)
    ensures CivilOf(DayNumber(c)) == c
  {
    hide MonthOf, MonthStart, MonthDays;
    var k := 12 * c.y + c.m - 1;
    MonthLength(k);
    MonthOfUnique(DayNumber(c), k);
    assert k / 12 == c.y && k % 12 == c.m - 1;
  }

  /** The order of day numbers is the calendar order of the dates. */
  lemma DayNumberOrder(a: Civil, b: Civil)
    requires IsCivil(a) && IsCivil(b)
    ensures DayNumber(a) < DayNumber(b) <==>
            a.y < b.y || (a.y == b.y && (a.m < b.m || (a.m == b.m && a.d < b.d)))
  {
    hide MonthStart, MonthDays;
    var j, k := 12 * a.y + a.m - 1, 12 * b.y + b.m - 1;
    MonthLength(j);
    MonthLength(k);
    if j < k {
      MonthsAscend(j + 1, k);
    } else if k < j {
      MonthsAscend(k + 1, j);
    }
  }

  /** AddDate(0, k, 0) on the first of a month lands on the first of the month k months on. */
  lemma AddMonthsFromFirst(n: Date, k: int)
    requires n == MonthStart(MonthOf(n))
    ensures AddMonths(n, k) == MonthStart(MonthOf(n) + k)
  {
    hide MonthOf, MonthStart;
    var j := MonthOf(n);
    assert 12 * (j / 12) + (j % 12 + 1 + k) - 1 == j + k;
  }

  /** The zero Date normalises to 30 November of year -1: day 0, so every later date is positive. */
  lemma ZeroDate()
    ensures DayNumber(Civil(0, 0, 0)) == DayNumber(Civil(-1, 11, 30)) == NO_DATE
  {
    assert MonthStart(-1) == 1;
    assert MonthStart(-2) == -29;
    hide MonthStart, MonthDays;
  }

  /** 1 January of year 1 was a Monday, the first day of the ISO 8601 week. */
  lemma FirstMonday()
    ensures ISOWeekday(DayNumber(Civil(1, 1, 1))) == 1
  {
    assert MonthStart(12) == 398;
  }

  /** Twelve months make a Gregorian year. */
  lemma GregorianYear(y: int)
    ensures MonthStart(12 * (y + 1)) - MonthStart(12 * y) == if IsLeap(y) then 366 else 365
  {
    hide MonthStart, IsLeap;
    MonthLength(12 * y); MonthLength(12 * y + 1); MonthLength(12 * y + 2); MonthLength(12 * y + 3);
    MonthLength(12 * y + 4); MonthLength(12 * y + 5); MonthLength(12 * y + 6); MonthLength(12 * y + 7);
    MonthLength(12 * y + 8); MonthLength(12 * y + 9); MonthLength(12 * y + 10); MonthLength(12 * y + 11);
  }
}
