/**
 * Calendar months, as the simulators step through them: a year paired with a
 * month of that year. Arithmetic on months goes through a month index (months
 * since January of year 0), with floor division, the way java.time.YearMonth
 * computes plusMonths.
 */
module Calendar {

  /** A month of the year, January = 1 .. December = 12. */
  type Month = m: int | 1 <= m <= 12 witness 1

  datatype YearMonth = YearMonth(year: int, month: Month) {

    /** Months elapsed since January of year 0. */
    function Index(): int {
      year * 12 + month - 1
    }

    /** This month moved by `n` calendar months (backwards for negative `n`). */
    function PlusMonths(n: int): (r: YearMonth)
      ensures r.Index() == Index() + n
    {
      FromIndex(Index() + n)
    }

    function MinusMonths(n: int): (r: YearMonth)
      ensures r.Index() == Index() - n
    {
      PlusMonths(-n)
    }

    /** Chronological order: the earlier year first, then the earlier month. It is the order of month indices. */
    predicate IsBefore(other: YearMonth): (b: bool)
      ensures b <==> Index() < other.Index()
    {
      year < other.year || (year == other.year && month < other.month)
    }

    /** `isBefore(other) || equals(other)`: this month is not later than `other`. */
    predicate NotAfter(other: YearMonth): (b: bool)
      ensures b <==> Index() <= other.Index()
    {
      NotAfterIsIndexOrder(this, other);
      IsBefore(other) || this == other
    }

    /** March, June, September and December close a quarter: exactly the months divisible by three. */
    predicate IsQuarterEnd(): (b: bool)
      ensures b <==> month % 3 == 0
    {
      month == 3 || month == 6 || month == 9 || month == 12
    }
  }

  /** The month with the given index. */
  function FromIndex(i: int): (d: YearMonth)
    ensures d.Index() == i
  {
    YearMonth(i / 12, i % 12 + 1)
  }

  /** A month is determined by its index, so index arithmetic is month arithmetic. */
  lemma IndexInjective(a: YearMonth, b: YearMonth)
    requires a.Index() == b.Index()
    ensures a == b
  {
  }

  /** The loop guard `d.isBefore(end) || d.equals(end)` in terms of indices. */
  lemma NotAfterIsIndexOrder(d: YearMonth, end: YearMonth)
    ensures (d.IsBefore(end) || d == end) <==> d.Index() <= end.Index()
  {
    if d.Index() == end.Index() {
      IndexInjective(d, end);
    }
  }

  /**
   * The whole number of months from `from` to `to`, counted as the difference
   * of years times twelve plus the difference of month numbers.
   */
  function MonthsBetween(from: YearMonth, to: YearMonth): (n: int)
    ensures n == to.Index() - from.Index()
    ensures from.PlusMonths(n) == to
  {
    var n := (to.year - from.year) * 12 + to.month - from.month;
    IndexInjective(from.PlusMonths(n), to);
    n
  }

  /** Stepping back one month and forward one month returns to the same month. */
  lemma PreviousMonthRoundTrip(d: YearMonth)
    ensures d.MinusMonths(1).PlusMonths(1) == d
    ensures d.PlusMonths(1).MinusMonths(1) == d
  {
    IndexInjective(d.MinusMonths(1).PlusMonths(1), d);
    IndexInjective(d.PlusMonths(1).MinusMonths(1), d);
  }

  /** The month after December is January of the following year; otherwise the year stays. */
  lemma NextMonthCalendar(d: YearMonth)
    ensures d.month == 12 ==> d.PlusMonths(1) == YearMonth(d.year + 1, 1)
    ensures d.month < 12 ==> d.PlusMonths(1) == YearMonth(d.year, d.month + 1)
  {
    if d.month == 12 {
      IndexInjective(d.PlusMonths(1), YearMonth(d.year + 1, 1));
    } else {
      IndexInjective(d.PlusMonths(1), YearMonth(d.year, d.month + 1));
    }
  }
}
