/**
 * The accumulation policy: every month a contribution is added, split between
 * stock and fixed income by the current allocation; the contribution grows by
 * the annual increase each January. The functions below give one run as a
 * value (setup step, monthly loop, closing rebalance); the class
 * InvestSimulator runs it in place and is proved to produce exactly that value.
 */
module InvestSimulation {
  import opened Calendar
  import opened StockData
  import opened ParentSimulation

  /** Everything one accumulation run updates: the shared state, the logs and the contribution counters. */
  datatype Investor = Investor(p: Portfolio, log: History, contribution: real, totalContribution: real)

  /** allocateContribution: the contribution is split by the allocation and added to the two balances. */
  function Contributed(s: Investor): (r: Investor)
    ensures r.p.allocation == s.p.allocation && r.p.date == s.p.date && r.p.elapsed == s.p.elapsed
    ensures r.log == s.log && r.contribution == s.contribution && r.totalContribution == s.totalContribution
  {
    var stockContribution := s.contribution * s.p.allocation;
    var fixedContribution := s.contribution * (1.0 - s.p.allocation);
    s.(p := s.p.(stock := s.p.stock + stockContribution, fixed := s.p.fixed + fixedContribution))
  }

  /**
   * The contribution raises the total by exactly its amount: stock receives
   * the allocation's share of it and fixed income the rest.
   */
  lemma ContributionAccounting(s: Investor)
    ensures var r := Contributed(s);
      && r.p.Total() == s.p.Total() + s.contribution
      && r.p.stock == s.p.stock + s.contribution * s.p.allocation
      && r.p.fixed == s.p.fixed + s.contribution * (1.0 - s.p.allocation)
  {
    var c, a := s.contribution, s.p.allocation;
    assert c * a + c * (1.0 - a) == c;
  }

  /** increaseContribution: the monthly contribution grows by the annual increase (a percentage). */
  function ContributionIncreased(s: Investor, annualIncrease: real): (r: Investor)
    ensures r.contribution == s.contribution * (1.0 + annualIncrease / 100.0)
    ensures r.p == s.p && r.log == s.log && r.totalContribution == s.totalContribution
  {
    s.(contribution := s.contribution * (1.0 + annualIncrease / 100.0))
  }

  /** The setup step run once before the loop: glide-path allocation, rebalance, the first contribution, next month. */
  function SetUp(plan: Plan, s: Investor): (r: Investor)
    requires plan.totalMonths != 0
    ensures r.totalContribution == s.totalContribution && r.contribution == s.contribution
    ensures r.p.allocation == GlidePath(plan, s.p.elapsed)
    ensures r.p.date.Index() == s.p.date.Index() + 1 && r.p.elapsed == s.p.elapsed + 1
    ensures r.log == s.log
  {
    var balanced := s.(p := Rebalanced(WithGlideAllocation(s.p, plan)));
    var contributed := Contributed(balanced);
    contributed.(p := Advanced(contributed.p))
  }

  /** The setup step's contribution reaches the balances but is not counted in the total contributed. */
  lemma SetUpContributionNotCounted(plan: Plan, s: Investor)
    requires plan.totalMonths != 0
    ensures SetUp(plan, s).p.Total() == s.p.Total() + s.contribution
    ensures SetUp(plan, s).totalContribution == s.totalContribution
  {
    var balanced := s.(p := Rebalanced(WithGlideAllocation(s.p, plan)));
    assert balanced.p.Total() == s.p.Total();
    ContributionAccounting(balanced);
  }

  /**
   * One completed month of the loop, once its percent change is known: the
   * contribution is counted (before any January increase), the market moves
   * stock, January resets the allocation, rebalances and raises the
   * contribution, then dividend, fixed-income yield, the contribution, the log
   * entry and the next month.
   */
  function MonthOf(plan: Plan, s: Investor, percentChange: real): (r: Investor)
    requires plan.totalMonths != 0
    ensures r.totalContribution == s.totalContribution + s.contribution
    ensures s.p.date.month == 1 ==> r.contribution == s.contribution * (1.0 + plan.annualIncrease / 100.0)
    ensures s.p.date.month != 1 ==> r.contribution == s.contribution
    ensures s.p.date.month == 1 ==> r.p.allocation == GlidePath(plan, s.p.elapsed)
    ensures s.p.date.month != 1 ==> r.p.allocation == s.p.allocation
    ensures r.p.date.Index() == s.p.date.Index() + 1 && r.p.elapsed == s.p.elapsed + 1
    ensures s.log.Aligned() ==> r.log.Aligned()
    ensures r.log.dates == s.log.dates + [s.p.date]
  {
    var moved := Moved(s, percentChange);
    var contributed := Contributed(Accrued(plan, JanuaryReset(plan, moved)));
    Closed(contributed)
  }

  /** The start of a month: the contribution is counted, then the market moves the stock balance. */
  function Moved(s: Investor, percentChange: real): (r: Investor)
    ensures r.totalContribution == s.totalContribution + s.contribution
    ensures r.contribution == s.contribution && r.log == s.log
    ensures r.p == WithStockMarket(s.p, percentChange)
  {
    var counted := s.(totalContribution := s.totalContribution + s.contribution);
    counted.(p := WithStockMarket(counted.p, percentChange))
  }

  /** The end of a month: its date and balances are logged and the month advances. */
  function Closed(s: Investor): (r: Investor)
    ensures r.log == Recorded(s.log, s.p) && r.p == Advanced(s.p)
    ensures r.contribution == s.contribution && r.totalContribution == s.totalContribution
  {
    var logged := s.(log := Recorded(s.log, s.p));
    logged.(p := Advanced(logged.p))
  }

  /** In January only: glide-path allocation, rebalance, and the yearly contribution increase. */
  function JanuaryReset(plan: Plan, s: Investor): (r: Investor)
    requires plan.totalMonths != 0
    ensures s.p.date.month != 1 ==> r == s
    ensures s.p.date.month == 1 ==> r.p.Total() == s.p.Total() && r.p.allocation == GlidePath(plan, s.p.elapsed)
    ensures s.p.date.month == 1 ==>
      r.p.stock == s.p.Total() * r.p.allocation && r.p.fixed == s.p.Total() * (1.0 - r.p.allocation)
    ensures s.p.date.month == 1 ==> r.contribution == s.contribution * (1.0 + plan.annualIncrease / 100.0)
    ensures r.p.date == s.p.date && r.p.elapsed == s.p.elapsed && r.log == s.log
    ensures r.totalContribution == s.totalContribution
  {
    if s.p.date.month == 1 then
      ContributionIncreased(s.(p := Rebalanced(WithGlideAllocation(s.p, plan))), plan.annualIncrease)
    else
      s
  }

  /** Every month: the quarterly dividend (when due) and the fixed-income yield. */
  function Accrued(plan: Plan, s: Investor): (r: Investor)
    ensures r.p.stock == if s.p.date.IsQuarterEnd() then s.p.stock * (1.0 + DividendRate / 4.0) else s.p.stock
    ensures r.p.fixed == s.p.fixed * (1.0 + plan.fixedYield / 12.0 / 100.0)
    ensures r.p.allocation == s.p.allocation && r.p.date == s.p.date && r.p.elapsed == s.p.elapsed
    ensures r.log == s.log && r.contribution == s.contribution && r.totalContribution == s.totalContribution
  {
    s.(p := WithFixedYield(WithDividend(s.p), plan.fixedYield))
  }

  /**
   * The monthly loop: while the current month is not after the end month, look
   * up its percent change; a failed lookup ends the loop with nothing of that
   * month applied, otherwise the month is run and the loop goes on.
   */
  function Loop(plan: Plan, lookup: PercentChangeLookup, s: Investor): (r: Investor)
    requires plan.totalMonths != 0
    ensures !r.p.date.NotAfter(plan.endDate) || lookup(r.p.date, r.p.date.MinusMonths(1)).None?
    ensures |r.log.dates| >= |s.log.dates|
    decreases plan.endDate.Index() + 1 - s.p.date.Index()
  {
    if !s.p.date.NotAfter(plan.endDate) then
      s
    else
      match lookup(s.p.date, s.p.date.MinusMonths(1))
      case None => s
      case Some(percentChange) => Loop(plan, lookup, MonthOf(plan, s, percentChange))
  }

  /** runSimulation as a value: setup, the loop, then end allocation and a final rebalance. */
  function Simulated(plan: Plan, lookup: PercentChangeLookup, s: Investor): (r: Investor)
    requires plan.totalMonths != 0
    ensures var looped := Loop(plan, lookup, SetUp(plan, s));
      && r.p.allocation == plan.endAlloc && r.p.Total() == looped.p.Total()
      && r.log == looped.log && r.totalContribution == looped.totalContribution
  {
    var looped := Loop(plan, lookup, SetUp(plan, s));
    looped.(p := Finished(looped.p, plan))
  }

  /** The loop appends exactly one log entry per month it advances, and keeps the logs in step. */
  lemma {:induction false} LoopLogsOneEntryPerMonth(plan: Plan, lookup: PercentChangeLookup, s: Investor)
    requires plan.totalMonths != 0
    requires s.log.Aligned()
    ensures var r := Loop(plan, lookup, s);
      && r.log.Aligned()
      && r.p.elapsed >= s.p.elapsed
      && |r.log.dates| - |s.log.dates| == r.p.elapsed - s.p.elapsed
      && r.p.date.Index() - s.p.date.Index() == r.p.elapsed - s.p.elapsed
      && forall i :: 0 <= i < |s.log.dates| ==> r.log.dates[i] == s.log.dates[i]
    decreases plan.endDate.Index() + 1 - s.p.date.Index()
  {
    if s.p.date.NotAfter(plan.endDate) {
      match lookup(s.p.date, s.p.date.MinusMonths(1))
      case None =>
      case Some(percentChange) =>
        var next := MonthOf(plan, s, percentChange);
        LoopLogsOneEntryPerMonth(plan, lookup, next);
    }
  }

  /** A completed month is logged and the month advances, so the logged months stay consecutive. */
  lemma MonthStaysConsecutive(plan: Plan, s: Investor, percentChange: real)
    requires plan.totalMonths != 0 && Consecutive(s.p, s.log)
    ensures var r := MonthOf(plan, s, percentChange); Consecutive(r.p, r.log)
  {
    var r := MonthOf(plan, s, percentChange);
    forall i | 0 <= i < |r.log.dates|
      ensures r.log.dates[i].Index() == r.p.date.Index() - |r.log.dates| + i
    {
      if i < |s.log.dates| {
        assert r.log.dates[i] == s.log.dates[i];
      }
    }
  }

  /** Completing a month within the run whose percent change was found keeps every logged month priced. */
  lemma MonthStaysPriced(plan: Plan, lookup: PercentChangeLookup, s: Investor, percentChange: real)
    requires plan.totalMonths != 0 && Priced(plan, lookup, s.log)
    requires s.p.date.NotAfter(plan.endDate) && lookup(s.p.date, s.p.date.MinusMonths(1)).Some?
    ensures Priced(plan, lookup, MonthOf(plan, s, percentChange).log)
  {
    var r := MonthOf(plan, s, percentChange);
    forall i | 0 <= i < |r.log.dates|
      ensures r.log.dates[i].NotAfter(plan.endDate) && lookup(r.log.dates[i], r.log.dates[i].MinusMonths(1)).Some?
    {
      if i < |s.log.dates| {
        assert r.log.dates[i] == s.log.dates[i];
      }
    }
  }

  /**
   * The loop only logs months it has completed, one after another, and only
   * months within the run whose percent change was found.
   */
  lemma {:induction false} LoopKeepsLogInvariants(plan: Plan, lookup: PercentChangeLookup, s: Investor)
    requires plan.totalMonths != 0 && Consecutive(s.p, s.log) && Priced(plan, lookup, s.log)
    ensures var r := Loop(plan, lookup, s); Consecutive(r.p, r.log) && Priced(plan, lookup, r.log)
    decreases plan.endDate.Index() + 1 - s.p.date.Index()
  {
    if s.p.date.NotAfter(plan.endDate) {
      match lookup(s.p.date, s.p.date.MinusMonths(1))
      case None =>
      case Some(percentChange) =>
        MonthStaysConsecutive(plan, s, percentChange);
        MonthStaysPriced(plan, lookup, s, percentChange);
        LoopKeepsLogInvariants(plan, lookup, MonthOf(plan, s, percentChange));
    }
  }

  /**
   * Why the loop stopped: either the current month is past the end month, or
   * its percent change could not be found (and nothing of that month was applied).
   */
  lemma {:induction false} LoopExit(plan: Plan, lookup: PercentChangeLookup, s: Investor)
    requires plan.totalMonths != 0
    requires s.p.date.Index() <= plan.endDate.Index() + 1
    ensures var r := Loop(plan, lookup, s);
      || r.p.date.Index() == plan.endDate.Index() + 1
      || (r.p.date.NotAfter(plan.endDate) && lookup(r.p.date, r.p.date.MinusMonths(1)).None?)
    decreases plan.endDate.Index() + 1 - s.p.date.Index()
  {
    if s.p.date.NotAfter(plan.endDate) {
      match lookup(s.p.date, s.p.date.MinusMonths(1))
      case None =>
      case Some(percentChange) =>
        LoopExit(plan, lookup, MonthOf(plan, s, percentChange));
    }
  }

  /**
   * A month within the run keeps the months elapsed in step with the calendar,
   * and the allocation it leaves (the January glide-path value, or the one
   * before) stays between the start and the end allocation.
   */
  lemma MonthStaysOnGlidePath(plan: Plan, s: Investor, percentChange: real)
    requires plan.totalMonths != 0 && s.p.date.NotAfter(plan.endDate)
    requires OnSchedule(plan, s.p) && Between(s.p.allocation, plan.startAlloc, plan.endAlloc)
    ensures var r := MonthOf(plan, s, percentChange);
      OnSchedule(plan, r.p) && Between(r.p.allocation, plan.startAlloc, plan.endAlloc)
  {
    GlidePathBetween(plan, s.p.elapsed);
  }

  /**
   * Every January allocation the loop sets lies on the glide path between the
   * start and the end allocation, so the allocation never leaves that span.
   */
  lemma {:induction false} LoopAllocationWithinGlidePath(plan: Plan, lookup: PercentChangeLookup, s: Investor)
    requires plan.totalMonths != 0
    requires OnSchedule(plan, s.p)
    requires Between(s.p.allocation, plan.startAlloc, plan.endAlloc)
    ensures var r := Loop(plan, lookup, s);
      OnSchedule(plan, r.p) && Between(r.p.allocation, plan.startAlloc, plan.endAlloc)
    decreases plan.endDate.Index() + 1 - s.p.date.Index()
  {
    if s.p.date.NotAfter(plan.endDate) {
      match lookup(s.p.date, s.p.date.MinusMonths(1))
      case None =>
      case Some(percentChange) =>
        MonthStaysOnGlidePath(plan, s, percentChange);
        LoopAllocationWithinGlidePath(plan, lookup, MonthOf(plan, s, percentChange));
    }
  }

  /** The sum of n contributions of the same amount c. */
  function Repeated(c: real, n: nat): real
  {
    if n == 0 then 0.0 else Repeated(c, n - 1) + c
  }

  /** n contributions of c add up to n times c. */
  lemma {:induction false} RepeatedIsProduct(c: real, n: nat)
    ensures Repeated(c, n) == n as real * c
  {
    if n > 0 {
      RepeatedIsProduct(c, n - 1);
      assert (n - 1) as real * c + c == n as real * c;
    }
  }

  /** With no annual increase a month, January included, keeps the contribution and counts it once. */
  lemma MonthWithoutIncrease(plan: Plan, s: Investor, percentChange: real)
    requires plan.totalMonths != 0 && plan.annualIncrease == 0.0
    ensures var r := MonthOf(plan, s, percentChange);
      && r.contribution == s.contribution
      && r.totalContribution == s.totalContribution + s.contribution
      && |r.log.dates| == |s.log.dates| + 1
  {
    assert s.contribution * (1.0 + 0.0 / 100.0) == s.contribution;
  }

  /** With no annual increase the loop never changes the contribution. */
  lemma {:induction false} LoopKeepsContributionWithoutIncrease(plan: Plan, lookup: PercentChangeLookup, s: Investor)
    requires plan.totalMonths != 0 && plan.annualIncrease == 0.0
    ensures Loop(plan, lookup, s).contribution == s.contribution
    decreases plan.endDate.Index() + 1 - s.p.date.Index()
  {
    if s.p.date.NotAfter(plan.endDate) {
      match lookup(s.p.date, s.p.date.MinusMonths(1))
      case None =>
      case Some(percentChange) =>
        MonthWithoutIncrease(plan, s, percentChange);
        LoopKeepsContributionWithoutIncrease(plan, lookup, MonthOf(plan, s, percentChange));
    }
  }

  /** With no annual increase the loop counts the contribution once per logged month. */
  lemma {:induction false} LoopTotalWithoutIncrease(plan: Plan, lookup: PercentChangeLookup, s: Investor)
    requires plan.totalMonths != 0 && plan.annualIncrease == 0.0
    ensures var r := Loop(plan, lookup, s);
      r.totalContribution == s.totalContribution + Repeated(s.contribution, |r.log.dates| - |s.log.dates|)
    decreases plan.endDate.Index() + 1 - s.p.date.Index()
  {
    if s.p.date.NotAfter(plan.endDate) {
      match lookup(s.p.date, s.p.date.MinusMonths(1))
      case None =>
      case Some(percentChange) =>
        var next := MonthOf(plan, s, percentChange);
        MonthWithoutIncrease(plan, s, percentChange);
        LoopTotalWithoutIncrease(plan, lookup, next);
        var r := Loop(plan, lookup, next);
        assert Loop(plan, lookup, s) == r;
        var k := |r.log.dates| - |next.log.dates|;
        assert Repeated(s.contribution, k + 1) == Repeated(s.contribution, k) + s.contribution;
    }
  }

  /** A fresh run: nothing contributed yet, no months elapsed, empty logs, at the plan's first month. */
  ghost predicate Fresh(plan: Plan, s: Investor) {
    Unstarted(plan, s.p, s.log) && s.totalContribution == 0.0
  }

  /**
   * A whole run logs at most totalMonths months (none when the end month is
   * before the start month), its logs stay in step, and it ends with the end
   * allocation and the total split by it.
   */
  lemma SimulatedLogBound(plan: Plan, lookup: PercentChangeLookup, s: Investor)
    requires plan.totalMonths != 0 && Fresh(plan, s)
    ensures var r := Simulated(plan, lookup, s);
      && r.log.Aligned()
      && |r.log.dates| <= (if plan.totalMonths > 0 then plan.totalMonths else 0)
      && r.p.allocation == plan.endAlloc
  {
    var start := SetUp(plan, s);
    LoopLogsOneEntryPerMonth(plan, lookup, start);
    if plan.totalMonths > 0 {
      LoopExit(plan, lookup, start);
    }
  }

  /**
   * A whole run logs the consecutive months from the one after the start
   * month on (the setup month is not logged), each within the run and with its
   * percent change found.
   */
  lemma SimulatedLogsPricedMonths(plan: Plan, lookup: PercentChangeLookup, s: Investor)
    requires plan.totalMonths != 0 && Fresh(plan, s)
    ensures var r := Simulated(plan, lookup, s);
      && Priced(plan, lookup, r.log)
      && forall i :: 0 <= i < |r.log.dates| ==> r.log.dates[i].Index() == plan.StartIndex() + 1 + i
  {
    var start := SetUp(plan, s);
    LoopLogsOneEntryPerMonth(plan, lookup, start);
    LoopKeepsLogInvariants(plan, lookup, start);
  }

  /**
   * With no annual increase, the total contributed after a whole run is the
   * monthly contribution counted once per month the loop completed, which is
   * that many times the contribution (RepeatedIsProduct); the setup month's
   * contribution is not in it.
   */
  lemma SimulatedTotalWithoutIncrease(plan: Plan, lookup: PercentChangeLookup, s: Investor)
    requires plan.totalMonths != 0 && plan.annualIncrease == 0.0 && Fresh(plan, s)
    ensures var r := Simulated(plan, lookup, s);
      r.totalContribution == Repeated(s.contribution, |r.log.dates|) && r.contribution == s.contribution
  {
    var start := SetUp(plan, s);
    LoopTotalWithoutIncrease(plan, lookup, start);
    LoopKeepsContributionWithoutIncrease(plan, lookup, start);
    assert |start.log.dates| == 0 && start.totalContribution == 0.0 && start.contribution == s.contribution;
  }

  /** The allocation a whole run passes through stays between the start and the end allocation. */
  lemma SimulatedAllocationWithinGlidePath(plan: Plan, lookup: PercentChangeLookup, s: Investor)
    requires plan.totalMonths != 0 && Fresh(plan, s)
    ensures Between(Loop(plan, lookup, SetUp(plan, s)).p.allocation, plan.startAlloc, plan.endAlloc)
  {
    GlidePathEndpoints(plan);
    LoopAllocationWithinGlidePath(plan, lookup, SetUp(plan, s));
  }

  /** The accumulation simulator: the shared state in `base` plus the contribution counters. */
  class InvestSimulator {
    const base: ParentSimulator
    var contribution: real
    var totalContribution: real

    function State(): Investor
      reads this, base
    {
      Investor(base.Snapshot(), base.Log(), contribution, totalContribution)
    }

    constructor (startAmount: real, monthlyContribution: real, startAlloc: real, endAlloc: real,
                 fixedYield: real, annualIncrease: real, startDate: YearMonth, endDate: YearMonth,
                 stockData: PercentChangeLookup)
      ensures fresh(base)
      ensures base.Parameters() == PlanOf(startAlloc, endAlloc, fixedYield, annualIncrease, startDate, endDate)
      ensures base.stockData == stockData
      ensures State() == Investor(Opening(startAmount, startAlloc, startDate), NoHistory, monthlyContribution, 0.0)
    {
      base := new ParentSimulator(startAmount, startAlloc, endAlloc, fixedYield, annualIncrease,
                                  startDate, endDate, stockData);
      contribution := monthlyContribution;
      totalContribution := 0.0;
    }

    method AllocateContribution()
      modifies base`stockBalance, base`fixedBalance
      ensures State() == Contributed(old(State()))
    {
      var stockContribution := contribution * base.allocation;
      var fixedContribution := contribution * (1.0 - base.allocation);
      base.stockBalance := base.stockBalance + stockContribution;
      base.fixedBalance := base.fixedBalance + fixedContribution;
    }

    method IncreaseContribution()
      modifies this`contribution
      ensures State() == ContributionIncreased(old(State()), base.annualIncrease)
    {
      contribution := contribution * (1.0 + base.annualIncrease / 100.0);
    }

    method RunSimulation()
      requires base.totalMonths != 0
      modifies this, base
      ensures State() == Simulated(base.Parameters(), base.stockData, old(State()))
    {
      ghost var plan := base.Parameters();
      ghost var lookup := base.stockData;

      // Setup to be run once
      base.AdjustAllocation();
      base.Rebalance();
      AllocateContribution();
      base.NextMonth();

      ghost var entry := State();
      assert entry == SetUp(plan, old(State()));
      while base.currentDate.NotAfter(base.endDate)
        invariant Loop(plan, lookup, State()) == Loop(plan, lookup, entry)
        decreases base.endDate.Index() + 1 - base.currentDate.Index()
      {
        ghost var before := State();
        var previousMonth := base.currentDate.MinusMonths(1);
        var percentChange := base.stockData(base.currentDate, previousMonth);
        if percentChange.None? {
          break;
        }

        // Track the total contribution
        totalContribution := totalContribution + contribution;

        base.ApplyStockMarket(percentChange.value);
        ghost var moved := State();
        assert moved == Moved(before, percentChange.value);

        // Actions to be performed every January
        if base.currentDate.month == 1 {
          base.AdjustAllocation();
          base.Rebalance();
          IncreaseContribution();
        }
        assert State() == JanuaryReset(plan, moved);

        // Actions to be performed every month
        ghost var january := State();
        base.Dividend();
        base.ApplyFixedIncomeYield();
        assert State() == Accrued(plan, january);
        AllocateContribution();
        ghost var contributed := State();
        assert contributed == Contributed(Accrued(plan, JanuaryReset(plan, moved)));

        // Update logged data
        base.RecordMonth();
        assert base.Snapshot() == contributed.p;
        assert base.Log() == Recorded(contributed.log, contributed.p);
        ghost var logged := State();

        base.NextMonth();
        assert base.Log() == logged.log;
        assert State() == logged.(p := Advanced(logged.p));
        assert State() == Closed(contributed);
        assert State() == MonthOf(plan, before, percentChange.value);
      }

      // Rebalance neatly for the end
      base.allocation := base.endAlloc;
      base.Rebalance();
    }

    method GetFinalAmount() returns (amount: real)
      ensures amount == base.Snapshot().Total()
    {
      amount := base.stockBalance + base.fixedBalance;
    }

    method GetTotalContribution() returns (total: real)
      ensures total == totalContribution
    {
      total := totalContribution;
    }
  }

  /**
   * How the experiment drivers use the simulator: construct it, run it, read the
   * final amount and the total contributed. Such a run logs at most one entry
   * per month from start to end, keeps its logs in step, ends at the end
   * allocation, and with no annual increase has contributed the monthly
   * contribution once per logged month.
   */
  method ExperimentRun(startAmount: real, monthlyContribution: real, startAlloc: real, endAlloc: real,
                       fixedYield: real, annualIncrease: real, startDate: YearMonth, endDate: YearMonth,
                       stockData: PercentChangeLookup)
    returns (sim: InvestSimulator, finalAmount: real, totalContribution: real)
    requires startDate.IsBefore(endDate)
    ensures sim.base.Log().Aligned() && |sim.base.dates| <= endDate.Index() - startDate.Index()
    ensures sim.base.allocation == endAlloc
    ensures finalAmount == sim.base.Snapshot().Total() && totalContribution == sim.totalContribution
    ensures annualIncrease == 0.0 ==> totalContribution == Repeated(monthlyContribution, |sim.base.dates|)
  {
    sim := new InvestSimulator(startAmount, monthlyContribution, startAlloc, endAlloc, fixedYield, annualIncrease,
                               startDate, endDate, stockData);
    ghost var plan := sim.base.Parameters();
    ghost var start := sim.State();
    assert Fresh(plan, start);
    sim.RunSimulation();
    SimulatedLogBound(plan, stockData, start);
    if annualIncrease == 0.0 {
      SimulatedTotalWithoutIncrease(plan, stockData, start);
    }
    finalAmount := sim.GetFinalAmount();
    totalContribution := sim.GetTotalContribution();
  }
}
