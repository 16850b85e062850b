/**
 * The state shared by both simulators: a stock balance and a fixed-income
 * balance, the current target allocation (the stock share) on a linear glide
 * path, the current month and the number of months elapsed, and the monthly
 * history of balances. The pure functions below give the effect of each
 * operation on a value snapshot of that state; the class ParentSimulator
 * holds the state in fields and its methods are proved to have exactly those
 * effects.
 */
module ParentSimulation {
  import opened Calendar
  import opened StockData

  /** Annual dividend rate of the stock holdings, paid in four quarterly parts. */
  const DividendRate: real := 0.02

  /** The parameters of one run, fixed at construction. */
  datatype Plan = Plan(startAlloc: real, endAlloc: real, annualIncrease: real, fixedYield: real,
                       endDate: YearMonth, totalMonths: int)
  {
    /** Index of the first month: the end month lies totalMonths after it. */
    function StartIndex(): int {
      endDate.Index() - totalMonths
    }
  }

  /** Balances, target allocation, current month and months elapsed since the start. */
  datatype Portfolio = Portfolio(stock: real, fixed: real, allocation: real, date: YearMonth, elapsed: int)
  {
    /** The total is never stored; it is always the sum of the two balances. */
    function Total(): real {
      stock + fixed
    }
  }

  /** The three parallel logs: one month and its two balances per recorded month. */
  datatype History = History(dates: seq<YearMonth>, stocks: seq<real>, fixeds: seq<real>)
  {
    predicate Aligned() {
      |dates| == |stocks| == |fixeds|
    }
  }

  const NoHistory: History := History([], [], [])

  /** True when x lies between a and b, whichever of the two is larger. */
  predicate Between(x: real, a: real, b: real) {
    (a <= x <= b) || (b <= x <= a)
  }

  /** The state right after construction: the start amount split by the start allocation. */
  function Opening(startAmount: real, startAlloc: real, startDate: YearMonth): (p: Portfolio)
    ensures p.Total() == startAmount
    ensures p.stock == startAmount * startAlloc
    ensures p.allocation == startAlloc && p.date == startDate && p.elapsed == 0
  {
    Portfolio(startAmount * startAlloc, startAmount * (1.0 - startAlloc), startAlloc, startDate, 0)
  }

  /** The parameters of a run from startDate to endDate. */
  function PlanOf(startAlloc: real, endAlloc: real, fixedYield: real, annualIncrease: real,
                  startDate: YearMonth, endDate: YearMonth): (plan: Plan)
    ensures plan.StartIndex() == startDate.Index()
    ensures startDate.PlusMonths(plan.totalMonths) == endDate
  {
    Plan(startAlloc, endAlloc, annualIncrease, fixedYield, endDate, MonthsBetween(startDate, endDate))
  }

  /** One month later, one more month of progress; the balances and allocation stay. */
  function Advanced(p: Portfolio): (r: Portfolio)
    ensures r.date.Index() == p.date.Index() + 1 && r.elapsed == p.elapsed + 1
    ensures r.date == p.date.PlusMonths(1)
    ensures r.stock == p.stock && r.fixed == p.fixed && r.allocation == p.allocation
  {
    p.(date := p.date.PlusMonths(1), elapsed := p.elapsed + 1)
  }

  /** The stock balance moves by the month's percent change; nothing else changes. */
  function WithStockMarket(p: Portfolio, percentChange: real): (r: Portfolio)
    ensures r.stock == p.stock * (1.0 + percentChange / 100.0)
    ensures r.fixed == p.fixed && r.allocation == p.allocation && r.date == p.date && r.elapsed == p.elapsed
  {
    p.(stock := p.stock * (1.0 + percentChange / 100.0))
  }

  /** A quarter of the annual dividend on the stock balance at the end of each quarter. */
  function WithDividend(p: Portfolio): (r: Portfolio)
    ensures p.date.IsQuarterEnd() ==> r.stock == p.stock * (1.0 + DividendRate / 4.0)
    ensures !p.date.IsQuarterEnd() ==> r == p
    ensures r.fixed == p.fixed && r.allocation == p.allocation && r.date == p.date && r.elapsed == p.elapsed
  {
    if p.date.month == 3 || p.date.month == 6 || p.date.month == 9 || p.date.month == 12 then
      p.(stock := p.stock * (1.0 + DividendRate / 4.0))
    else
      p
  }

  /** A twelfth of the annual fixed-income yield (a percentage) on the fixed balance. */
  function WithFixedYield(p: Portfolio, fixedYield: real): (r: Portfolio)
    ensures r.fixed == p.fixed * (1.0 + fixedYield / 12.0 / 100.0)
    ensures r.stock == p.stock && r.allocation == p.allocation && r.date == p.date && r.elapsed == p.elapsed
  {
    p.(fixed := p.fixed * (1.0 + fixedYield / 12.0 / 100.0))
  }

  /** The linear glide path: start allocation plus elapsed/totalMonths of the way to the end allocation. */
  function GlidePath(plan: Plan, elapsed: int): real
    requires plan.totalMonths != 0
  {
    var progress := elapsed as real / plan.totalMonths as real;
    plan.startAlloc + progress * (plan.endAlloc - plan.startAlloc)
  }

  /** The distance of the glide path from the start allocation grows in proportion to the months elapsed. */
  lemma GlidePathProportional(plan: Plan, elapsed: int)
    requires plan.totalMonths != 0
    ensures (GlidePath(plan, elapsed) - plan.startAlloc) * plan.totalMonths as real
            == elapsed as real * (plan.endAlloc - plan.startAlloc)
  {
    var t := plan.totalMonths as real;
    var progress := elapsed as real / t;
    var span := plan.endAlloc - plan.startAlloc;
    assert progress * t == elapsed as real;
    assert (progress * span) * t == (progress * t) * span;
  }

  /** At no progress the glide path gives the start allocation, at full progress the end allocation. */
  lemma GlidePathEndpoints(plan: Plan)
    requires plan.totalMonths != 0
    ensures GlidePath(plan, 0) == plan.startAlloc
    ensures GlidePath(plan, plan.totalMonths) == plan.endAlloc
  {
    var t := plan.totalMonths as real;
    assert t / t == 1.0;
  }

  /** Within the run the glide path never leaves the span between start and end allocation. */
  lemma GlidePathBetween(plan: Plan, elapsed: int)
    requires plan.totalMonths != 0 && 0 <= elapsed <= plan.totalMonths
    ensures Between(GlidePath(plan, elapsed), plan.startAlloc, plan.endAlloc)
  {
    var t := plan.totalMonths as real;
    var progress := elapsed as real / t;
    assert progress * t == elapsed as real;
    assert 0.0 <= progress <= 1.0;
    var span := plan.endAlloc - plan.startAlloc;
    assert GlidePath(plan, elapsed) == plan.startAlloc + progress * span;
    if span >= 0.0 {
      assert 0.0 <= progress * span <= span;
    } else {
      assert span <= progress * span <= 0.0;
    }
  }

  /** adjustAllocation: the allocation becomes the glide-path value for the months elapsed. */
  function WithGlideAllocation(p: Portfolio, plan: Plan): (r: Portfolio)
    requires plan.totalMonths != 0
    ensures r.allocation == GlidePath(plan, p.elapsed)
    ensures r.stock == p.stock && r.fixed == p.fixed && r.date == p.date && r.elapsed == p.elapsed
  {
    p.(allocation := GlidePath(plan, p.elapsed))
  }

  /**
   * rebalance: the total is redistributed so that stock holds the allocation's
   * share and fixed income the rest. The total is conserved, negative or not.
   */
  function Rebalanced(p: Portfolio): (r: Portfolio)
    ensures r.Total() == p.Total()
    ensures r.stock == p.Total() * p.allocation && r.fixed == p.Total() * (1.0 - p.allocation)
    ensures r.allocation == p.allocation && r.date == p.date && r.elapsed == p.elapsed
  {
    var total := p.stock + p.fixed;
    p.(stock := total * p.allocation, fixed := total * (1.0 - p.allocation))
  }

  /** Rebalancing a second time with the same allocation changes nothing. */
  lemma RebalanceIdempotent(p: Portfolio)
    ensures Rebalanced(Rebalanced(p)) == Rebalanced(p)
  {
  }

  /** The closing step of a run: the allocation is forced to the end allocation and the total rebalanced. */
  function Finished(p: Portfolio, plan: Plan): (r: Portfolio)
    ensures r.allocation == plan.endAlloc && r.Total() == p.Total()
    ensures r.stock == p.Total() * plan.endAlloc && r.fixed == p.Total() * (1.0 - plan.endAlloc)
    ensures r.date == p.date && r.elapsed == p.elapsed
  {
    Rebalanced(p.(allocation := plan.endAlloc))
  }

  /** One more logged month: its date and both balances appended, the three logs kept in step. */
  function Recorded(h: History, p: Portfolio): (r: History)
    ensures h.Aligned() ==> r.Aligned()
    ensures r.dates == h.dates + [p.date]
    ensures r.stocks == h.stocks + [p.stock] && r.fixeds == h.fixeds + [p.fixed]
  {
    History(h.dates + [p.date], h.stocks + [p.stock], h.fixeds + [p.fixed])
  }

  /** The months elapsed stay in step with the calendar: the start index plus the months elapsed. */
  ghost predicate OnSchedule(plan: Plan, p: Portfolio) {
    p.date.Index() == plan.StartIndex() + p.elapsed && 0 <= p.elapsed
  }

  /** The logged months are the consecutive months just before the current month, oldest first. */
  ghost predicate Consecutive(p: Portfolio, log: History) {
    forall i :: 0 <= i < |log.dates| ==> log.dates[i].Index() == p.date.Index() - |log.dates| + i
  }

  /** Every logged month lies within the run and its percent change was found. */
  ghost predicate Priced(plan: Plan, lookup: PercentChangeLookup, log: History) {
    forall i :: 0 <= i < |log.dates| ==>
      log.dates[i].NotAfter(plan.endDate) && lookup(log.dates[i], log.dates[i].MinusMonths(1)).Some?
  }

  /** A run that has not started: no months elapsed, at the plan's first month, nothing logged. */
  ghost predicate Unstarted(plan: Plan, p: Portfolio, log: History) {
    p.elapsed == 0 && p.date.Index() == plan.StartIndex() && log == NoHistory
  }

  /** The mutable state of one simulation run, with the operations both policies share. */
  class ParentSimulator {
    var stockBalance: real
    var fixedBalance: real
    const startAlloc: real
    const endAlloc: real
    var allocation: real
    const annualIncrease: real
    const fixedYield: real

    var currentDate: YearMonth
    const endDate: YearMonth
    const stockData: PercentChangeLookup

    var dates: seq<YearMonth>
    var stockBalances: seq<real>
    var fixedBalances: seq<real>

    const totalMonths: int
    var currentMonth: int

    /** The parameters fixed at construction. */
    function Parameters(): Plan {
      Plan(startAlloc, endAlloc, annualIncrease, fixedYield, endDate, totalMonths)
    }

    /** The balances, allocation and month pointer as a value. */
    function Snapshot(): Portfolio
      reads this`stockBalance, this`fixedBalance, this`allocation, this`currentDate, this`currentMonth
    {
      Portfolio(stockBalance, fixedBalance, allocation, currentDate, currentMonth)
    }

    /** The logs as a value. */
    function Log(): History
      reads this`dates, this`stockBalances, this`fixedBalances
    {
      History(dates, stockBalances, fixedBalances)
    }

    constructor (startAmount: real, startAlloc: real, endAlloc: real, fixedYield: real, annualIncrease: real,
                 startDate: YearMonth, endDate: YearMonth, stockData: PercentChangeLookup)
      ensures Parameters() == PlanOf(startAlloc, endAlloc, fixedYield, annualIncrease, startDate, endDate)
      ensures this.stockData == stockData
      ensures Snapshot() == Opening(startAmount, startAlloc, startDate)
      ensures Log() == NoHistory
    {
      this.startAlloc := startAlloc;
      this.endAlloc := endAlloc;
      this.stockBalance := startAmount * startAlloc;
      this.fixedBalance := startAmount * (1.0 - startAlloc);
      this.allocation := startAlloc;
      this.annualIncrease := annualIncrease;
      this.fixedYield := fixedYield;
      this.currentDate := startDate;
      this.endDate := endDate;
      this.totalMonths := (endDate.year - startDate.year) * 12 + endDate.month - startDate.month;
      this.stockData := stockData;
      this.dates := [];
      this.stockBalances := [];
      this.fixedBalances := [];
      this.currentMonth := 0;
    }

    /** Appends the current month and balances to the logged data, as both runSimulation loops do at month end. */
    method RecordMonth()
      modifies this`dates, this`stockBalances, this`fixedBalances
      ensures Log() == Recorded(old(Log()), Snapshot())
    {
      dates := dates + [currentDate];
      stockBalances := stockBalances + [stockBalance];
      fixedBalances := fixedBalances + [fixedBalance];
    }

    method NextMonth()
      modifies this`currentDate, this`currentMonth
      ensures Snapshot() == Advanced(old(Snapshot()))
    {
      currentDate := currentDate.PlusMonths(1);
      currentMonth := currentMonth + 1;
    }

    method ApplyStockMarket(percentChange: real)
      modifies this`stockBalance
      ensures Snapshot() == WithStockMarket(old(Snapshot()), percentChange)
    {
      stockBalance := stockBalance * (1.0 + percentChange / 100.0);
    }

    method Dividend()
      modifies this`stockBalance
      ensures Snapshot() == WithDividend(old(Snapshot()))
    {
      if currentDate.month == 3 || currentDate.month == 6 || currentDate.month == 9 || currentDate.month == 12 {
        stockBalance := stockBalance * (1.0 + DividendRate / 4.0);
      }
    }

    method ApplyFixedIncomeYield()
      modifies this`fixedBalance
      ensures Snapshot() == WithFixedYield(old(Snapshot()), fixedYield)
    {
      fixedBalance := fixedBalance * (1.0 + fixedYield / 12.0 / 100.0);
    }

    method AdjustAllocation()
      requires totalMonths != 0
      modifies this`allocation
      ensures Snapshot() == WithGlideAllocation(old(Snapshot()), Parameters())
    {
      var progress := currentMonth as real / totalMonths as real;
      allocation := startAlloc + progress * (endAlloc - startAlloc);
    }

    method Rebalance()
      modifies this`stockBalance, this`fixedBalance
      ensures Snapshot() == Rebalanced(old(Snapshot()))
    {
      var total := stockBalance + fixedBalance;
      stockBalance := total * allocation;
      fixedBalance := total * (1.0 - allocation);
    }
  }
}
