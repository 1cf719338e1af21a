/** The month encoding: a month is year*10000 + month*100, a transaction post-date adds
    the day in the last two decimal digits, and Epoch (0) stands for "before tracking
    began". Go's BCDate is an unsigned integer, so the encoding is a nat here. */
module BCDate {
  import opened Strconv

  type BCDate = nat

  /** The fields an encoded value carries. */
  function YearOf(d: BCDate): nat { d / 10000 }
  function MonthOf(d: BCDate): nat { d / 100 % 100 }
  function DayOf(d: BCDate): nat { d % 100 }

  /** bcdate.CurrentMonth, with the clock's year and month passed in: the encoding
      decodes back to the same year and month, and its day field is zero. */
  function CurrentMonth(year: nat, month: nat): (d: BCDate)
    requires 1 <= month <= 12
    ensures YearOf(d) == year && MonthOf(d) == month && DayOf(d) == 0
  {
    year * 10000 + month * 100
  }

  /** bcdate.Epoch: below every month of a year from 1 on. */
  function Epoch(): (e: BCDate)
    ensures forall year: nat, month: nat :: 1 <= year && 1 <= month <= 12 ==> e < CurrentMonth(year, month)
  {
    0
  }

  /** bcdate.Oldest. Its body is not among the program's files; what the batch insert
      needs of it is that it picks one of its arguments and that the pick is not later
      than either. */
  function Oldest(a: BCDate, b: BCDate): (r: BCDate)
    ensures r == a || r == b
    ensures r <= a && r <= b
  {
    if b < a then b else a
  }

  /** Integer order on encoded months is calendar order, in both directions. */
  lemma CurrentMonthOrder(y1: nat, m1: nat, y2: nat, m2: nat)
    requires 1 <= m1 <= 12 && 1 <= m2 <= 12
    ensures CurrentMonth(y1, m1) < CurrentMonth(y2, m2) <==> y1 < y2 || (y1 == y2 && m1 < m2)
  {
    if y1 < y2 {
      assert y2 * 10000 >= (y1 + 1) * 10000;
    } else if y2 < y1 {
      assert y1 * 10000 >= (y2 + 1) * 10000;
    }
  }

  /** Different months encode to different values. */
  lemma CurrentMonthInjective(y1: nat, m1: nat, y2: nat, m2: nat)
    requires 1 <= m1 <= 12 && 1 <= m2 <= 12
    requires CurrentMonth(y1, m1) == CurrentMonth(y2, m2)
    ensures y1 == y2 && m1 == m2
  {
    CurrentMonthOrder(y1, m1, y2, m2);
    CurrentMonthOrder(y2, m2, y1, m1);
  }

  /** A post-date with a day field is its month's encoding plus the day, and lies
      strictly between that month and the next one. */
  lemma PostDateWithinMonth(year: nat, month: nat, day: nat)
    requires 1 <= month <= 12 && 1 <= day <= 31
    ensures var d := CurrentMonth(year, month) + day;
      YearOf(d) == year && MonthOf(d) == month && DayOf(d) == day &&
      CurrentMonth(year, month) < d < CurrentMonth(year, month) + 100
  {
    DivMod(year, month * 100 + day, 10000);
    DivMod(year * 100 + month, day, 100);
    DivMod(year, month, 100);
  }
}
