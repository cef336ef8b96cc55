/**
  The part of the JavaScript `Date` object that the payday rule relies on:
  proleptic Gregorian month lengths, the three-argument constructor
  `new Date(year, monthIndex, day)` with its normalisation of an overflowing
  month index and an overflowing day, and the two-digit-year rule of that
  constructor. Months are numbered 0..11, as `getMonth()` returns them.
*/
module Calendar {

  /** A calendar date as `getFullYear()`, `getMonth()` and `getDate()` report it. */
  datatype Date = Date(year: int, month: int, day: int)

  predicate IsLeapYear(year: int) {
    year % 4 == 0 && (year % 100 != 0 || year % 400 == 0)
  }

  /** Number of days in a month (0 = January, 1 = February, ...). */
  function DaysInMonth(year: int, month: int): (n: int)
    requires 0 <= month < 12
    ensures 28 <= n <= 31
    ensures month == 1 ==> (n == 29 <==> IsLeapYear(year)) && (n == 28 <==> !IsLeapYear(year))
    ensures month != 1 ==> n >= 30
  {
    if month == 1 then (if IsLeapYear(year) then 29 else 28)
    else if month == 3 || month == 5 || month == 8 || month == 10 then 30
    else 31
  }

  /** A date that exists in the calendar. */
  predicate Valid(d: Date) {
    0 <= d.month < 12 && 1 <= d.day <= DaysInMonth(d.year, d.month)
  }

  /** Strict chronological order. */
  predicate Before(a: Date, b: Date) {
    a.year < b.year
    || (a.year == b.year && a.month < b.month)
    || (a.year == b.year && a.month == b.month && a.day < b.day)
  }

  lemma BeforeTransitive(a: Date, b: Date, c: Date)
    requires Before(a, b) && Before(b, c)
    ensures Before(a, c)
  {
  }

  /** The first day of the month after the given one, rolling December into January of the next year. */
  function FirstOfNextMonth(year: int, month: int): (r: Date)
    requires 0 <= month < 12
    ensures Valid(r) && r.day == 1
    ensures Before(Date(year, month, DaysInMonth(year, month)), r)
  {
    if month < 11 then Date(year, month + 1, 1) else Date(year + 1, 0, 1)
  }

  /** The day after a valid date: the reference the constructor's day overflow is measured against. */
  function Succ(d: Date): (r: Date)
    requires Valid(d)
    ensures Valid(r) && Before(d, r)
  {
    if d.day < DaysInMonth(d.year, d.month) then Date(d.year, d.month, d.day + 1)
    else FirstOfNextMonth(d.year, d.month)
  }

  /** The date `n` days after `d`, one day at a time. */
  function AddDays(d: Date, n: nat): (r: Date)
    requires Valid(d)
    ensures Valid(r)
    decreases n
  {
    if n == 0 then d else AddDays(Succ(d), n - 1)
  }

  /** Adding days never goes backwards, and adding at least one day goes strictly forwards. */
  lemma {:induction false} AddDaysAfter(d: Date, n: nat)
    requires Valid(d) && n >= 1
    ensures Before(d, AddDays(d, n))
    decreases n
  {
    if n > 1 {
      AddDaysAfter(Succ(d), n - 1);
      BeforeTransitive(d, Succ(d), AddDays(d, n));
    }
  }

  lemma {:induction false} AddDaysAdd(d: Date, n: nat, k: nat)
    requires Valid(d)
    ensures AddDays(d, n + k) == AddDays(AddDays(d, n), k)
    decreases n
  {
    if n > 0 {
      AddDaysAdd(Succ(d), n - 1, k);
    }
  }

  /** Within a month, adding `k` days just advances the day of the month. */
  lemma {:induction false} AddDaysWithinMonth(year: int, month: int, day: int, k: nat)
    requires 0 <= month < 12 && 1 <= day && day + k <= DaysInMonth(year, month)
    ensures AddDays(Date(year, month, day), k) == Date(year, month, day + k)
    decreases k
  {
    if k > 0 {
      AddDaysWithinMonth(year, month, day + 1, k - 1);
    }
  }

  /**
    The day normalisation of `new Date(year, month, day)` for `day >= 1`: a day
    beyond the end of the month carries into the following months.
  */
  function CarryDays(year: int, month: int, day: int): (r: Date)
    requires 0 <= month < 12 && day >= 1
    ensures Valid(r)
    decreases day
  {
    var n := DaysInMonth(year, month);
    if day <= n then Date(year, month, day)
    else
      var next := FirstOfNextMonth(year, month);
      CarryDays(next.year, next.month, day - n)
  }

  /** The constructor's day `day` is the date `day - 1` days after the first of the month. */
  lemma {:induction false} CarryDaysIsAddDays(year: int, month: int, day: int)
    requires 0 <= month < 12 && day >= 1
    ensures CarryDays(year, month, day) == AddDays(Date(year, month, 1), day - 1)
    decreases day
  {
    var n := DaysInMonth(year, month);
    if day <= n {
      AddDaysWithinMonth(year, month, 1, day - 1);
    } else {
      var next := FirstOfNextMonth(year, month);
      CarryDaysIsAddDays(next.year, next.month, day - n);
      AddDaysAdd(Date(year, month, 1), n - 1, day - n);
      AddDaysWithinMonth(year, month, 1, n - 1);
      assert AddDays(Date(year, month, n), day - n) == AddDays(next, day - n - 1);
    }
  }

  /** The constructor reads a year argument from 0 to 99 as 1900 + year. */
  function FullYear(year: int): (y: int)
    ensures 0 <= year <= 99 ==> y == 1900 + year
    ensures !(0 <= year <= 99) ==> y == year
  {
    if 0 <= year <= 99 then 1900 + year else year
  }

  /**
    `new Date(year, monthIndex, day)` for `day >= 1`: the month index is
    normalised by floor division into the year, then overflowing days carry
    into the following months.
  */
  function NewDate(year: int, monthIndex: int, day: int): (r: Date)
    requires day >= 1
    ensures Valid(r)
  {
    var y := FullYear(year);
    CarryDays(y + monthIndex / 12, monthIndex % 12, day)
  }

  /** A day that exists in the (normalised) month is kept as it is. */
  lemma NewDateInRange(year: int, monthIndex: int, day: int)
    requires 1 <= day <= DaysInMonth(FullYear(year) + monthIndex / 12, monthIndex % 12)
    ensures NewDate(year, monthIndex, day) == Date(FullYear(year) + monthIndex / 12, monthIndex % 12, day)
  {
  }

  /** Month index 12 is January of the next year. */
  lemma NewDateDecemberRollover(year: int, day: int)
    requires 1 <= day <= 31
    ensures NewDate(year, 12, day) == Date(FullYear(year) + 1, 0, day)
  {
  }

  /** February 30 is March 1 in a leap year and March 2 otherwise. */
  lemma NewDateFebruaryThirtieth(year: int)
    ensures NewDate(year, 1, 30) == Date(FullYear(year), 2, if IsLeapYear(FullYear(year)) then 1 else 2)
  {
  }
}
