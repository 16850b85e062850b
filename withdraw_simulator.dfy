/**
 * The decumulation policy: every month a fixed fraction of the total is
 * withdrawn, taken from whichever balance is overweight against the target
 * allocation; the fraction grows by the annual increase each January. A
 * balance that goes negative triggers an emergency rebalance, and if both are
 * still negative after it the run is bankrupt: the shortfall is credited back
 * against the total withdrawn, both balances are zeroed and the loop ends.
 * The functions below give one run as a value; the class WithdrawSimulator
 * runs it in place and is proved to produce exactly that value.
 */
module WithdrawSimulation {
  import opened Calendar
  import opened StockData
  import opened ParentSimulation
  import opened RealArithmetic

  /** Everything one decumulation run updates: the shared state, the logs and the withdrawal counters. */
  datatype Withdrawer = Withdrawer(p: Portfolio, log: History, withdrawal: real, withdrawnTotal: real)

  /** How the stock share of the total compares with the target allocation. */
  datatype Drift = Underweight | Overweight | OnTarget

  /**
   * The comparison of realTimeAllocation = stock / (stock + fixed) with the
   * target allocation, in IEEE double semantics: a zero total makes the share
   * +Infinity (stock > 0, compares above any allocation), -Infinity (stock < 0,
   * compares below) or NaN (stock == 0, compares neither below nor above, so
   * the draw is split).
   */
  function DriftOf(p: Portfolio): Drift {
    var total := p.stock + p.fixed;
    if total != 0.0 then
      var realTimeAllocation := p.stock / total;
      if realTimeAllocation < p.allocation then Underweight
      else if realTimeAllocation > p.allocation then Overweight
      else OnTarget
    else if p.stock > 0.0 then Overweight
    else if p.stock < 0.0 then Underweight
    else OnTarget
  }

  /**
   * Underweight and overweight are exactly the two strict comparisons of the
   * stock share with the allocation when the total is not zero, and the signs
   * of the stock balance when it is.
   */
  lemma DriftOfShares(p: Portfolio)
    ensures p.Total() != 0.0 ==> (DriftOf(p) == Underweight <==> p.stock / p.Total() < p.allocation)
    ensures p.Total() != 0.0 ==> (DriftOf(p) == Overweight <==> p.stock / p.Total() > p.allocation)
    ensures p.Total() == 0.0 ==> (DriftOf(p) == Underweight <==> p.stock < 0.0) && (DriftOf(p) == Overweight <==> p.stock > 0.0)
  {
  }

  /** The month's draw: the monthly withdrawal rate times the current total. */
  function Draw(s: Withdrawer): (r: real)
    ensures 0.0 <= s.withdrawal < 1.0 && s.p.Total() > 0.0 ==> 0.0 <= r < s.p.Total()
  {
    if 0.0 <= s.withdrawal < 1.0 && s.p.Total() > 0.0 then
      FractionBelow(s.withdrawal, s.p.Total(), s.withdrawal * s.p.Total());
      s.withdrawal * s.p.Total()
    else
      s.withdrawal * s.p.Total()
  }

  /**
   * With a positive total the drift compares amounts instead of shares: stock
   * is underweight exactly when it holds less than allocation × total, and
   * overweight exactly when it holds more.
   */
  lemma DriftByAmounts(p: Portfolio)
    requires p.Total() > 0.0
    ensures DriftOf(p) == Underweight <==> p.stock < p.allocation * p.Total()
    ensures DriftOf(p) == Overweight <==> p.stock > p.allocation * p.Total()
    ensures DriftOf(p) == OnTarget <==> p.stock == p.allocation * p.Total()
  {
    QuotientComparison(p.stock, p.Total(), p.allocation, p.allocation * p.Total());
  }

  /** The balances after taking `amount` out of the side the drift points at, or out of both when on target. */
  function Drawdown(p: Portfolio, drift: Drift, amount: real): (r: Portfolio)
    ensures r.allocation == p.allocation && r.date == p.date && r.elapsed == p.elapsed
  {
    if drift == Underweight then p.(fixed := p.fixed - amount)
    else if drift == Overweight then p.(stock := p.stock - amount)
    else p.(fixed := p.fixed - amount * (1.0 - p.allocation), stock := p.stock - amount * p.allocation)
  }

  /** allocateWithdrawal: take the month's draw out of the balances and add it to the total withdrawn. */
  function Withdrawn(s: Withdrawer): (r: Withdrawer)
    ensures r.p.allocation == s.p.allocation && r.p.date == s.p.date && r.p.elapsed == s.p.elapsed
    ensures r.log == s.log && r.withdrawal == s.withdrawal
  {
    var p := s.p;
    var drawn := Drawdown(p, DriftOf(p), Draw(s));
    s.(p := drawn, withdrawnTotal := s.withdrawnTotal + Draw(s))
  }

  /**
   * The draw leaves the total and is added to the total withdrawn, so their
   * sum is unchanged. It comes out of fixed income when stock is underweight,
   * out of stock when stock is overweight, and is split by the allocation when
   * the share is on target.
   */
  lemma WithdrawalAccounting(s: Withdrawer)
    ensures var r := Withdrawn(s);
      && r.p.Total() == s.p.Total() - Draw(s)
      && r.withdrawnTotal == s.withdrawnTotal + Draw(s)
      && r.withdrawnTotal + r.p.Total() == s.withdrawnTotal + s.p.Total()
      && (DriftOf(s.p) == Underweight ==> r.p.stock == s.p.stock && r.p.fixed == s.p.fixed - Draw(s))
      && (DriftOf(s.p) == Overweight ==> r.p.fixed == s.p.fixed && r.p.stock == s.p.stock - Draw(s))
      && (DriftOf(s.p) == OnTarget ==>
            && r.p.stock == s.p.stock - Draw(s) * s.p.allocation
            && r.p.fixed == s.p.fixed - Draw(s) * (1.0 - s.p.allocation))
  {
    var d, a := Draw(s), s.p.allocation;
    if DriftOf(s.p) == OnTarget {
      assert d * a + d * (1.0 - a) == d;
    }
  }

  /**
   * Drawing from overweight stock never raises the stock share: with fixed
   * income not negative, a positive total and a rate below one, the share after
   * the draw is at most the share before it.
   */
  lemma OverweightDrawLowersStockShare(s: Withdrawer)
    requires DriftOf(s.p) == Overweight
    requires s.p.fixed >= 0.0 && s.p.Total() > 0.0 && 0.0 <= s.withdrawal < 1.0
    ensures Withdrawn(s).p.Total() > 0.0
    ensures Withdrawn(s).p.stock / Withdrawn(s).p.Total() <= s.p.stock / s.p.Total()
  {
    var r := Withdrawn(s);
    FractionBelow(s.withdrawal, s.p.Total(), Draw(s));
    WithdrawalAccounting(s);
    ShareAfterStockDraw(s.p.stock, s.p.fixed, Draw(s), s.p.Total(), r.p.stock, r.p.Total());
  }

  /**
   * Drawing from fixed income when stock is underweight never lowers the stock
   * share: with stock not negative, a positive total and a rate below one, the
   * share after the draw is at least the share before it.
   */
  lemma UnderweightDrawRaisesStockShare(s: Withdrawer)
    requires DriftOf(s.p) == Underweight
    requires s.p.stock >= 0.0 && s.p.Total() > 0.0 && 0.0 <= s.withdrawal < 1.0
    ensures Withdrawn(s).p.Total() > 0.0
    ensures Withdrawn(s).p.stock / Withdrawn(s).p.Total() >= s.p.stock / s.p.Total()
  {
    var r := Withdrawn(s);
    FractionBelow(s.withdrawal, s.p.Total(), Draw(s));
    WithdrawalAccounting(s);
    ShareAfterFixedDraw(s.p.stock, s.p.fixed, Draw(s), s.p.Total(), r.p.Total());
  }

  /** The example of an overweight portfolio: 800 stock, 200 fixed, target one half: only stock pays. */
  lemma OverweightExample(withdrawal: real, date: YearMonth)
    ensures var s := Withdrawer(Portfolio(800.0, 200.0, 0.5, date, 0), NoHistory, withdrawal, 0.0);
      && DriftOf(s.p) == Overweight
      && Withdrawn(s).p.fixed == 200.0
      && Withdrawn(s).p.stock == 800.0 - withdrawal * 1000.0
  {
  }

  /** increaseWithdrawal: the monthly withdrawal rate grows by the annual increase (a percentage). */
  function WithdrawalIncreased(s: Withdrawer, annualIncrease: real): (r: Withdrawer)
    ensures r.withdrawal == s.withdrawal * (1.0 + annualIncrease / 100.0)
    ensures r.p == s.p && r.log == s.log && r.withdrawnTotal == s.withdrawnTotal
  {
    s.(withdrawal := s.withdrawal * (1.0 + annualIncrease / 100.0))
  }

  /**
   * bankruptcy: the debt -(stock + fixed) is taken off the total withdrawn and
   * both balances become zero, so the sum of total withdrawn and total is unchanged.
   */
  function Bankrupted(s: Withdrawer): (r: Withdrawer)
    ensures r.p.stock == 0.0 && r.p.fixed == 0.0
    ensures r.withdrawnTotal == s.withdrawnTotal - (-(s.p.fixed + s.p.stock))
    ensures r.withdrawnTotal + r.p.Total() == s.withdrawnTotal + s.p.Total()
    ensures r.p.allocation == s.p.allocation && r.p.date == s.p.date && r.p.elapsed == s.p.elapsed
    ensures r.log == s.log && r.withdrawal == s.withdrawal
  {
    var debt := -1.0 * (s.p.fixed + s.p.stock);
    s.(withdrawnTotal := s.withdrawnTotal - debt, p := s.p.(fixed := 0.0, stock := 0.0))
  }

  /** The example of a debt of 50 in stock and 30 in fixed income: the total withdrawn drops by 80. */
  lemma BankruptcyExample(s: Withdrawer)
    requires s.p.stock == -50.0 && s.p.fixed == -30.0
    ensures Bankrupted(s).withdrawnTotal == s.withdrawnTotal - 80.0
    ensures Bankrupted(s).p.Total() == 0.0
  {
  }

  predicate HasNegative(p: Portfolio) {
    p.fixed < 0.0 || p.stock < 0.0
  }

  predicate BothNegative(p: Portfolio) {
    p.fixed < 0.0 && p.stock < 0.0
  }

  /**
   * After an emergency rebalance both balances are negative exactly when the
   * total is negative and the allocation lies strictly between 0 and 1. So
   * with an all-stock or all-fixed allocation a negative total never counts as
   * bankruptcy: one side is left at zero and the other carries the debt.
   */
  lemma InsolventAfterRebalance(p: Portfolio)
    ensures BothNegative(Rebalanced(p)) <==> p.Total() < 0.0 && 0.0 < p.allocation < 1.0
  {
    var r := Rebalanced(p);
    NegativeSplit(p.Total(), p.allocation, r.stock, r.fixed);
  }

  /** The emergency rebalance, done only when a balance went negative after the withdrawal. */
  function Rescued(s: Withdrawer): (r: Withdrawer)
    ensures r.p.Total() == s.p.Total()
    ensures !HasNegative(s.p) ==> r == s
    ensures HasNegative(s.p) ==> r.p == Rebalanced(s.p)
    ensures r.log == s.log && r.withdrawal == s.withdrawal && r.withdrawnTotal == s.withdrawnTotal
    ensures r.p.date == s.p.date && r.p.elapsed == s.p.elapsed && r.p.allocation == s.p.allocation
  {
    if s.p.fixed < 0.0 || s.p.stock < 0.0 then s.(p := Rebalanced(s.p)) else s
  }

  /** The setup step run once before the loop: glide-path allocation, rebalance, the first withdrawal, next month. */
  function SetUp(plan: Plan, s: Withdrawer): (r: Withdrawer)
    requires plan.totalMonths != 0
    ensures r.p.allocation == GlidePath(plan, s.p.elapsed) && r.withdrawal == s.withdrawal
    ensures r.p.date.Index() == s.p.date.Index() + 1 && r.p.elapsed == s.p.elapsed + 1
    ensures r.log == s.log
  {
    var balanced := s.(p := Rebalanced(WithGlideAllocation(s.p, plan)));
    var drawn := Withdrawn(balanced);
    drawn.(p := Advanced(drawn.p))
  }

  /**
   * Unlike the contribution of the accumulation policy, the withdrawal made in
   * the setup step is counted in the total withdrawn, and it leaves the total.
   */
  lemma SetUpCountsFirstWithdrawal(plan: Plan, s: Withdrawer)
    requires plan.totalMonths != 0
    ensures var r := SetUp(plan, s);
      && r.withdrawnTotal == s.withdrawnTotal + s.withdrawal * s.p.Total()
      && r.withdrawnTotal + r.p.Total() == s.withdrawnTotal + s.p.Total()
  {
    var balanced := s.(p := Rebalanced(WithGlideAllocation(s.p, plan)));
    assert balanced.p.Total() == s.p.Total();
    WithdrawalAccounting(balanced);
  }

  /** The start of a month: the market moves the stock balance. */
  function Moved(s: Withdrawer, percentChange: real): (r: Withdrawer)
    ensures r.p == WithStockMarket(s.p, percentChange)
    ensures r.log == s.log && r.withdrawal == s.withdrawal && r.withdrawnTotal == s.withdrawnTotal
  {
    s.(p := WithStockMarket(s.p, percentChange))
  }

  /** In January only: glide-path allocation, rebalance, and the yearly withdrawal increase. */
  function JanuaryReset(plan: Plan, s: Withdrawer): (r: Withdrawer)
    requires plan.totalMonths != 0
    ensures s.p.date.month != 1 ==> r == s
    ensures s.p.date.month == 1 ==> r.p.Total() == s.p.Total() && r.p.allocation == GlidePath(plan, s.p.elapsed)
    ensures s.p.date.month == 1 ==>
      r.p.stock == s.p.Total() * r.p.allocation && r.p.fixed == s.p.Total() * (1.0 - r.p.allocation)
    ensures s.p.date.month == 1 ==> r.withdrawal == s.withdrawal * (1.0 + plan.annualIncrease / 100.0)
    ensures r.p.date == s.p.date && r.p.elapsed == s.p.elapsed && r.log == s.log
    ensures r.withdrawnTotal == s.withdrawnTotal
  {
    if s.p.date.month == 1 then
      WithdrawalIncreased(s.(p := Rebalanced(WithGlideAllocation(s.p, plan))), plan.annualIncrease)
    else
      s
  }

  /** Every month: the quarterly dividend (when due) and the fixed-income yield. */
  function Accrued(plan: Plan, s: Withdrawer): (r: Withdrawer)
    ensures r.p.stock == if s.p.date.IsQuarterEnd() then s.p.stock * (1.0 + DividendRate / 4.0) else s.p.stock
    ensures r.p.fixed == s.p.fixed * (1.0 + plan.fixedYield / 12.0 / 100.0)
    ensures r.p.allocation == s.p.allocation && r.p.date == s.p.date && r.p.elapsed == s.p.elapsed
    ensures r.log == s.log && r.withdrawal == s.withdrawal && r.withdrawnTotal == s.withdrawnTotal
  {
    s.(p := WithFixedYield(WithDividend(s.p), plan.fixedYield))
  }

  /** A month up to and including its withdrawal, once its percent change is known. */
  function Drawn(plan: Plan, s: Withdrawer, percentChange: real): (r: Withdrawer)
    requires plan.totalMonths != 0
    ensures s.p.date.month != 1 ==> r.p.allocation == s.p.allocation
    ensures s.p.date.month == 1 ==> r.p.allocation == GlidePath(plan, s.p.elapsed)
    ensures s.p.date.month != 1 ==> r.withdrawal == s.withdrawal
    ensures s.p.date.month == 1 ==> r.withdrawal == s.withdrawal * (1.0 + plan.annualIncrease / 100.0)
    ensures r.p.date == s.p.date && r.p.elapsed == s.p.elapsed && r.log == s.log
  {
    Withdrawn(Accrued(plan, JanuaryReset(plan, Moved(s, percentChange))))
  }

  /**
   * The month's draw is taken from the balances reached after the market move,
   * the January reset, the dividend and the yield, and is added to the total
   * withdrawn: the sum of total withdrawn and total is that of the accrued state.
   */
  lemma DrawnAccounting(plan: Plan, s: Withdrawer, percentChange: real)
    requires plan.totalMonths != 0
    ensures var a := Accrued(plan, JanuaryReset(plan, Moved(s, percentChange)));
      var r := Drawn(plan, s, percentChange);
      && r.withdrawnTotal == s.withdrawnTotal + Draw(a)
      && r.p.Total() == a.p.Total() - Draw(a)
      && r.withdrawnTotal + r.p.Total() == s.withdrawnTotal + a.p.Total()
  {
    WithdrawalAccounting(Accrued(plan, JanuaryReset(plan, Moved(s, percentChange))));
  }

  /** The end of a month that did not go bankrupt: it is logged and the month advances. */
  function Closed(s: Withdrawer): (r: Withdrawer)
    ensures r.log == Recorded(s.log, s.p) && r.p == Advanced(s.p)
    ensures r.withdrawal == s.withdrawal && r.withdrawnTotal == s.withdrawnTotal
  {
    var logged := s.(log := Recorded(s.log, s.p));
    logged.(p := Advanced(logged.p))
  }

  /** How the monthly loop ended. */
  datatype Exit = Completed | MissingData | Bankrupt

  datatype Outcome = Outcome(state: Withdrawer, exit: Exit)

  /**
   * The monthly loop: while the current month is not after the end month, look
   * up its percent change; a failed lookup ends the loop with nothing of that
   * month applied. Otherwise the month runs up to its withdrawal, then the
   * emergency rebalance if a balance is negative; if both balances are still
   * negative the run goes bankrupt and the loop ends without logging the
   * month, else the month is logged and the loop goes on.
   */
  function Loop(plan: Plan, lookup: PercentChangeLookup, s: Withdrawer): (o: Outcome)
    requires plan.totalMonths != 0
    ensures o.exit == Completed <==> !o.state.p.date.NotAfter(plan.endDate)
    ensures o.exit == MissingData ==> lookup(o.state.p.date, o.state.p.date.MinusMonths(1)).None?
    decreases plan.endDate.Index() + 1 - s.p.date.Index()
  {
    if !s.p.date.NotAfter(plan.endDate) then
      Outcome(s, Completed)
    else
      match lookup(s.p.date, s.p.date.MinusMonths(1))
      case None => Outcome(s, MissingData)
      case Some(percentChange) =>
        var rescued := Rescued(Drawn(plan, s, percentChange));
        if rescued.p.fixed < 0.0 && rescued.p.stock < 0.0 then
          Outcome(Bankrupted(rescued), Bankrupt)
        else
          Loop(plan, lookup, Closed(rescued))
  }

  /** runSimulation as a value: setup, the loop, then end allocation and a final rebalance. */
  function Simulated(plan: Plan, lookup: PercentChangeLookup, s: Withdrawer): (o: Outcome)
    requires plan.totalMonths != 0
    ensures var looped := Loop(plan, lookup, SetUp(plan, s));
      && o.exit == looped.exit && o.state.log == looped.state.log
      && o.state.p.allocation == plan.endAlloc && o.state.p.Total() == looped.state.p.Total()
      && o.state.withdrawnTotal == looped.state.withdrawnTotal
  {
    var looped := Loop(plan, lookup, SetUp(plan, s));
    Outcome(looped.state.(p := Finished(looped.state.p, plan)), looped.exit)
  }

  /**
   * A month within the run whose percent change was found ends the loop as
   * bankrupt exactly when, after its withdrawal, the total is negative and the
   * allocation lies strictly between 0 and 1; otherwise the month is logged and
   * the loop goes on.
   */
  lemma BankruptExactlyWhenInsolvent(plan: Plan, lookup: PercentChangeLookup, s: Withdrawer, percentChange: real)
    requires plan.totalMonths != 0
    requires s.p.date.NotAfter(plan.endDate) && lookup(s.p.date, s.p.date.MinusMonths(1)) == Some(percentChange)
    ensures var drawn := Drawn(plan, s, percentChange);
      var insolvent := drawn.p.Total() < 0.0 && 0.0 < drawn.p.allocation < 1.0;
      && (insolvent ==> Loop(plan, lookup, s) == Outcome(Bankrupted(Rescued(drawn)), Bankrupt))
      && (!insolvent ==> Loop(plan, lookup, s) == Loop(plan, lookup, Closed(Rescued(drawn))))
  {
    var drawn := Drawn(plan, s, percentChange);
    if HasNegative(drawn.p) {
      InsolventAfterRebalance(drawn.p);
    }
  }

  /**
   * A month within the run that does not go bankrupt keeps the months elapsed
   * in step with the calendar, and the allocation it leaves stays between the
   * start and the end allocation.
   */
  lemma MonthStaysOnGlidePath(plan: Plan, s: Withdrawer, percentChange: real)
    requires plan.totalMonths != 0 && s.p.date.NotAfter(plan.endDate)
    requires OnSchedule(plan, s.p) && Between(s.p.allocation, plan.startAlloc, plan.endAlloc)
    ensures var r := Closed(Rescued(Drawn(plan, s, percentChange)));
      OnSchedule(plan, r.p) && Between(r.p.allocation, plan.startAlloc, plan.endAlloc)
  {
    GlidePathBetween(plan, s.p.elapsed);
  }

  /**
   * The loop appends exactly one log entry per month it advances and keeps the
   * logs in step; a bankrupt month is neither logged nor advanced past.
   */
  lemma {:induction false} LoopLogsOneEntryPerMonth(plan: Plan, lookup: PercentChangeLookup, s: Withdrawer)
    requires plan.totalMonths != 0
    requires s.log.Aligned()
    ensures var r := Loop(plan, lookup, s).state;
      && r.log.Aligned()
      && r.p.elapsed >= s.p.elapsed
      && |r.log.dates| - |s.log.dates| == r.p.elapsed - s.p.elapsed
      && r.p.date.Index() - s.p.date.Index() == r.p.elapsed - s.p.elapsed
      && forall i :: 0 <= i < |s.log.dates| ==> r.log.dates[i] == s.log.dates[i]
    decreases plan.endDate.Index() + 1 - s.p.date.Index()
  {
    if s.p.date.NotAfter(plan.endDate) {
      match lookup(s.p.date, s.p.date.MinusMonths(1))
      case None =>
      case Some(percentChange) =>
        var rescued := Rescued(Drawn(plan, s, percentChange));
        if !(rescued.p.fixed < 0.0 && rescued.p.stock < 0.0) {
          LoopLogsOneEntryPerMonth(plan, lookup, Closed(rescued));
        }
    }
  }

  /**
   * Why the loop stopped: the month is past the end month; or its percent
   * change could not be found; or it went bankrupt in a month within the run
   * whose percent change was found, leaving both balances at zero.
   */
  lemma {:induction false} LoopExit(plan: Plan, lookup: PercentChangeLookup, s: Withdrawer)
    requires plan.totalMonths != 0
    ensures var o := Loop(plan, lookup, s);
      && (o.exit == Completed ==>
            !o.state.p.date.NotAfter(plan.endDate)
            && (s.p.date.Index() <= plan.endDate.Index() + 1 ==> o.state.p.date.Index() == plan.endDate.Index() + 1))
      && (o.exit == MissingData ==>
            o.state.p.date.NotAfter(plan.endDate)
            && lookup(o.state.p.date, o.state.p.date.MinusMonths(1)).None?)
      && (o.exit == Bankrupt ==>
            o.state.p.date.NotAfter(plan.endDate)
            && lookup(o.state.p.date, o.state.p.date.MinusMonths(1)).Some?
            && o.state.p.stock == 0.0 && o.state.p.fixed == 0.0)
    decreases plan.endDate.Index() + 1 - s.p.date.Index()
  {
    if s.p.date.NotAfter(plan.endDate) {
      match lookup(s.p.date, s.p.date.MinusMonths(1))
      case None =>
      case Some(percentChange) =>
        var rescued := Rescued(Drawn(plan, s, percentChange));
        if !(rescued.p.fixed < 0.0 && rescued.p.stock < 0.0) {
          LoopExit(plan, lookup, Closed(rescued));
        }
    }
  }

  /**
   * Every January allocation the loop sets lies on the glide path between the
   * start and the end allocation, so the allocation never leaves that span.
   */
  lemma {:induction false} LoopAllocationWithinGlidePath(plan: Plan, lookup: PercentChangeLookup, s: Withdrawer)
    requires plan.totalMonths != 0
    requires OnSchedule(plan, s.p)
    requires Between(s.p.allocation, plan.startAlloc, plan.endAlloc)
    ensures var r := Loop(plan, lookup, s).state;
      OnSchedule(plan, r.p) && Between(r.p.allocation, plan.startAlloc, plan.endAlloc)
    decreases plan.endDate.Index() + 1 - s.p.date.Index()
  {
    if s.p.date.NotAfter(plan.endDate) {
      match lookup(s.p.date, s.p.date.MinusMonths(1))
      case None =>
      case Some(percentChange) =>
        GlidePathBetween(plan, s.p.elapsed);
        var rescued := Rescued(Drawn(plan, s, percentChange));
        if !(rescued.p.fixed < 0.0 && rescued.p.stock < 0.0) {
          MonthStaysOnGlidePath(plan, s, percentChange);
          LoopAllocationWithinGlidePath(plan, lookup, Closed(rescued));
        }
    }
  }

  /** A fresh run: nothing withdrawn yet, no months elapsed, empty logs, at the plan's first month. */
  ghost predicate Fresh(plan: Plan, s: Withdrawer) {
    Unstarted(plan, s.p, s.log) && s.withdrawnTotal == 0.0
  }

  /**
   * A whole run logs at most totalMonths months (none when the end month is
   * before the start month), its logs stay in step, and it ends with the end
   * allocation.
   */
  lemma SimulatedLogBound(plan: Plan, lookup: PercentChangeLookup, s: Withdrawer)
    requires plan.totalMonths != 0 && Fresh(plan, s)
    ensures var o := Simulated(plan, lookup, s);
      && o.state.log.Aligned()
      && |o.state.log.dates| <= (if plan.totalMonths > 0 then plan.totalMonths else 0)
      && o.state.p.allocation == plan.endAlloc
  {
    var start := SetUp(plan, s);
    LoopLogsOneEntryPerMonth(plan, lookup, start);
    if plan.totalMonths > 0 {
      LoopExit(plan, lookup, start);
    }
  }

  /** Logging the current month and moving on to the next keeps the logged months consecutive. */
  lemma ClosedStaysConsecutive(s: Withdrawer)
    requires Consecutive(s.p, s.log)
    ensures var r := Closed(s); Consecutive(r.p, r.log)
  {
    var r := Closed(s);
    forall i | 0 <= i < |r.log.dates|
      ensures r.log.dates[i].Index() == r.p.date.Index() - |r.log.dates| + i
    {
      if i < |s.log.dates| {
        assert r.log.dates[i] == s.log.dates[i];
      }
    }
  }

  /** Logging a month within the run whose percent change was found keeps every logged month priced. */
  lemma ClosedStaysPriced(plan: Plan, lookup: PercentChangeLookup, s: Withdrawer)
    requires Priced(plan, lookup, s.log)
    requires s.p.date.NotAfter(plan.endDate) && lookup(s.p.date, s.p.date.MinusMonths(1)).Some?
    ensures Priced(plan, lookup, Closed(s).log)
  {
    var r := Closed(s);
    forall i | 0 <= i < |r.log.dates|
      ensures r.log.dates[i].NotAfter(plan.endDate) && lookup(r.log.dates[i], r.log.dates[i].MinusMonths(1)).Some?
    {
      if i < |s.log.dates| {
        assert r.log.dates[i] == s.log.dates[i];
      }
    }
  }

  /**
   * The loop only logs months it has finished, one after another, and only
   * months within the run whose percent change was found; a bankrupt month is
   * neither logged nor advanced past.
   */
  lemma {:induction false} LoopKeepsLogInvariants(plan: Plan, lookup: PercentChangeLookup, s: Withdrawer)
    requires plan.totalMonths != 0 && Consecutive(s.p, s.log) && Priced(plan, lookup, s.log)
    ensures var r := Loop(plan, lookup, s).state; Consecutive(r.p, r.log) && Priced(plan, lookup, r.log)
    decreases plan.endDate.Index() + 1 - s.p.date.Index()
  {
    if s.p.date.NotAfter(plan.endDate) {
      match lookup(s.p.date, s.p.date.MinusMonths(1))
      case None =>
      case Some(percentChange) =>
        var rescued := Rescued(Drawn(plan, s, percentChange));
        assert rescued.log == s.log && rescued.p.date == s.p.date;
        if !(rescued.p.fixed < 0.0 && rescued.p.stock < 0.0) {
          ClosedStaysConsecutive(rescued);
          ClosedStaysPriced(plan, lookup, rescued);
          LoopKeepsLogInvariants(plan, lookup, Closed(rescued));
        }
    }
  }

  /**
   * A whole run logs the consecutive months from the one after the start
   * month on (the setup month is not logged), each within the run and with its
   * percent change found.
   */
  lemma SimulatedLogsPricedMonths(plan: Plan, lookup: PercentChangeLookup, s: Withdrawer)
    requires plan.totalMonths != 0 && Fresh(plan, s)
    ensures var r := Simulated(plan, lookup, s).state;
      && Priced(plan, lookup, r.log)
      && forall i :: 0 <= i < |r.log.dates| ==> r.log.dates[i].Index() == plan.StartIndex() + 1 + i
  {
    var start := SetUp(plan, s);
    LoopLogsOneEntryPerMonth(plan, lookup, start);
    LoopKeepsLogInvariants(plan, lookup, start);
  }

  /** A loop that goes bankrupt leaves both balances at zero and has not logged the bankrupt month. */
  lemma LoopBankruptMonthNotLogged(plan: Plan, lookup: PercentChangeLookup, s: Withdrawer)
    requires plan.totalMonths != 0 && Consecutive(s.p, s.log) && Priced(plan, lookup, s.log)
    ensures var o := Loop(plan, lookup, s);
      o.exit == Bankrupt ==> o.state.p.stock == 0.0 && o.state.p.fixed == 0.0 && o.state.p.date !in o.state.log.dates
  {
    LoopExit(plan, lookup, s);
    LoopKeepsLogInvariants(plan, lookup, s);
    var r := Loop(plan, lookup, s).state;
    forall i | 0 <= i < |r.log.dates|
      ensures r.log.dates[i] != r.p.date
    {
      assert r.log.dates[i].Index() < r.p.date.Index();
    }
  }

  /**
   * After bankruptcy the final amount is zero, because the closing rebalance of
   * a zero total leaves both balances at zero.
   */
  lemma SimulatedBankruptcyLeavesNothing(plan: Plan, lookup: PercentChangeLookup, s: Withdrawer)
    requires plan.totalMonths != 0
    requires Simulated(plan, lookup, s).exit == Bankrupt
    ensures Simulated(plan, lookup, s).state.p.stock == 0.0
    ensures Simulated(plan, lookup, s).state.p.fixed == 0.0
  {
    var looped := Loop(plan, lookup, SetUp(plan, s)).state;
    LoopExit(plan, lookup, SetUp(plan, s));
    FinishedOfNothing(looped.p, plan);
  }

  /** The closing rebalance of a zero total leaves both balances at zero. */
  lemma FinishedOfNothing(p: Portfolio, plan: Plan)
    requires p.stock == 0.0 && p.fixed == 0.0
    ensures Finished(p, plan).stock == 0.0 && Finished(p, plan).fixed == 0.0
  {
    assert p.Total() == 0.0;
  }

  /** The month in which a run goes bankrupt is not among the logged months. */
  lemma SimulatedBankruptMonthNotLogged(plan: Plan, lookup: PercentChangeLookup, s: Withdrawer)
    requires plan.totalMonths != 0 && Fresh(plan, s)
    requires Simulated(plan, lookup, s).exit == Bankrupt
    ensures Simulated(plan, lookup, s).state.p.date !in Simulated(plan, lookup, s).state.log.dates
  {
    var start := SetUp(plan, s);
    assert Consecutive(start.p, start.log) && Priced(plan, lookup, start.log);
    LoopBankruptMonthNotLogged(plan, lookup, start);
  }

  /** The decumulation simulator: the shared state in `base` plus the withdrawal counters. */
  class WithdrawSimulator {
    const base: ParentSimulator
    var withdrawal: real
    var withdrawnTotal: real

    function State(): Withdrawer
      reads this, base
    {
      Withdrawer(base.Snapshot(), base.Log(), withdrawal, withdrawnTotal)
    }

    constructor (startAmount: real, annualWithdrawalPercentage: real, startAlloc: real, endAlloc: real,
                 fixedYield: real, annualIncrease: real, startDate: YearMonth, endDate: YearMonth,
                 stockData: PercentChangeLookup)
      ensures fresh(base)
      ensures base.Parameters() == PlanOf(startAlloc, endAlloc, fixedYield, annualIncrease, startDate, endDate)
      ensures base.stockData == stockData
      ensures withdrawal == annualWithdrawalPercentage / 12.0
      ensures State() == Withdrawer(Opening(startAmount, startAlloc, startDate), NoHistory,
                                    annualWithdrawalPercentage / 12.0, 0.0)
    {
      base := new ParentSimulator(startAmount, startAlloc, endAlloc, fixedYield, annualIncrease,
                                  startDate, endDate, stockData);
      withdrawal := annualWithdrawalPercentage / 12.0;
      withdrawnTotal := 0.0;
    }

    method AllocateWithdrawal()
      modifies base`stockBalance, base`fixedBalance, this`withdrawnTotal
      ensures State() == Withdrawn(old(State()))
    {
      ghost var before := base.Snapshot();
      var drift := DriftOf(base.Snapshot());
      var realTimeWithdrawal := withdrawal * (base.stockBalance + base.fixedBalance);
      assert realTimeWithdrawal == Draw(old(State()));

      if drift == Underweight {         // Not enough stock
        base.fixedBalance := base.fixedBalance - realTimeWithdrawal;
      } else if drift == Overweight {   // Not enough fixed
        base.stockBalance := base.stockBalance - realTimeWithdrawal;
      } else {                          // On target
        base.fixedBalance := base.fixedBalance - realTimeWithdrawal * (1.0 - base.allocation);
        base.stockBalance := base.stockBalance - realTimeWithdrawal * base.allocation;
      }
      assert base.Snapshot() == Drawdown(before, drift, realTimeWithdrawal);

      withdrawnTotal := withdrawnTotal + realTimeWithdrawal;
    }

    method IncreaseWithdrawal()
      modifies this`withdrawal
      ensures State() == WithdrawalIncreased(old(State()), base.annualIncrease)
    {
      withdrawal := withdrawal * (1.0 + base.annualIncrease / 100.0);
    }

    method Bankruptcy()
      modifies base`stockBalance, base`fixedBalance, this`withdrawnTotal
      ensures State() == Bankrupted(old(State()))
    {
      var debt := -1.0 * (base.fixedBalance + base.stockBalance);
      withdrawnTotal := withdrawnTotal - debt;
      base.fixedBalance := 0.0;
      base.stockBalance := 0.0;
    }

    method RunSimulation()
      requires base.totalMonths != 0
      modifies this, base
      ensures State() == Simulated(base.Parameters(), base.stockData, old(State())).state
    {
      ghost var plan := base.Parameters();
      ghost var lookup := base.stockData;

      // Setup to be run once
      base.AdjustAllocation();
      base.Rebalance();
      AllocateWithdrawal();
      base.NextMonth();

      ghost var entry := State();
      assert entry == SetUp(plan, old(State()));
      while base.currentDate.NotAfter(base.endDate)
        invariant Loop(plan, lookup, State()) == Loop(plan, lookup, entry)
        decreases base.endDate.Index() + 1 - base.currentDate.Index()
      {
        ghost var before := State();
        var previousMonth := base.currentDate.MinusMonths(1);
        var percentChange := base.stockData(base.currentDate, previousMonth);
        if percentChange.None? {
          assert State() == Loop(plan, lookup, entry).state;
          break;
        }

        base.ApplyStockMarket(percentChange.value);
        ghost var moved := State();
        assert moved == Moved(before, percentChange.value);

        // Actions to be performed every January
        if base.currentDate.month == 1 {
          base.AdjustAllocation();
          base.Rebalance();
          IncreaseWithdrawal();
        }
        assert State() == JanuaryReset(plan, moved);

        // Actions to be performed every month
        ghost var january := State();
        base.Dividend();
        base.ApplyFixedIncomeYield();
        assert State() == Accrued(plan, january);
        AllocateWithdrawal();
        ghost var drawn := State();
        assert drawn == Drawn(plan, before, percentChange.value);

        // Check for bankruptcy if something goes below zero
        ghost var rescued := Rescued(drawn);
        if base.fixedBalance < 0.0 || base.stockBalance < 0.0 {
          // First, try to emergency rebalance
          base.Rebalance();
          assert State() == rescued;

          // If both are in debt, shut down
          if base.fixedBalance < 0.0 && base.stockBalance < 0.0 {
            Bankruptcy();
            assert State() == Bankrupted(rescued);
            assert Loop(plan, lookup, before) == Outcome(Bankrupted(rescued), Bankrupt);
            break;
          }
        } else {
          assert State() == rescued;
        }
        ghost var kept := State();
        assert kept == rescued;

        // Update logged data
        base.RecordMonth();
        assert base.Snapshot() == kept.p;
        assert base.Log() == Recorded(kept.log, kept.p);
        ghost var logged := State();
        assert logged == kept.(log := Recorded(kept.log, kept.p));

        base.NextMonth();
        assert base.Log() == logged.log;
        assert State() == logged.(p := Advanced(logged.p));
        assert State() == Closed(kept);
      }
      assert State() == Loop(plan, lookup, entry).state;

      // Rebalance neatly for the end
      base.allocation := base.endAlloc;
      base.Rebalance();
    }

    method GetFinalAmount() returns (amount: real)
      ensures amount == base.Snapshot().Total()
    {
      amount := base.stockBalance + base.fixedBalance;
    }

    method GetTotalWithdrawal() returns (total: real)
      ensures total == withdrawnTotal
    {
      total := withdrawnTotal;
    }
  }

  /**
   * How the experiment drivers use the simulator: construct it, run it, read the
   * final amount and the total withdrawn. Such a run logs at most one entry per
   * month from start to end, keeps its logs in step and ends at the end
   * allocation; the setup month is never among the logged months.
   */
  method ExperimentRun(startAmount: real, annualWithdrawalPercentage: real, startAlloc: real, endAlloc: real,
                       fixedYield: real, annualIncrease: real, startDate: YearMonth, endDate: YearMonth,
                       stockData: PercentChangeLookup)
    returns (sim: WithdrawSimulator, finalAmount: real, withdrawnTotal: real)
    requires startDate.IsBefore(endDate)
    ensures sim.base.Log().Aligned() && |sim.base.dates| <= endDate.Index() - startDate.Index()
    ensures sim.base.allocation == endAlloc && startDate !in sim.base.dates
    ensures finalAmount == sim.base.Snapshot().Total() && withdrawnTotal == sim.withdrawnTotal
  {
    sim := new WithdrawSimulator(startAmount, annualWithdrawalPercentage, startAlloc, endAlloc, fixedYield,
                                 annualIncrease, startDate, endDate, stockData);
    ghost var plan := sim.base.Parameters();
    ghost var start := sim.State();
    assert Fresh(plan, start);
    sim.RunSimulation();
    SimulatedLogBound(plan, stockData, start);
    SimulatedLogsPricedMonths(plan, stockData, start);
    ghost var dates := sim.base.dates;
    forall i | 0 <= i < |dates|
      ensures dates[i] != startDate
    {
      assert dates[i].Index() == startDate.Index() + 1 + i;
    }
    finalAmount := sim.GetFinalAmount();
    withdrawnTotal := sim.GetTotalWithdrawal();
  }
}
