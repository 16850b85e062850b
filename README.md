# Stock market simulator: a verified model of the simulation core

The stock market simulator replays historical monthly stock-index returns
against a two-part portfolio: a stock balance and a fixed-income balance. The
target stock share (the allocation) follows a linear glide path from a start
allocation to an end allocation. Two policies share this machinery:

- **Accumulation** (`InvestSimulator`). Every month a contribution is split
  by the allocation and added to both balances. The contribution grows by an
  annual percentage each January.
- **Decumulation** (`WithdrawSimulator`). Every month a fraction of the total
  is withdrawn from whichever balance is overweight against the allocation.
  The fraction grows by an annual percentage each January. A negative balance
  triggers an emergency rebalance. If both balances are still negative, the
  run is bankrupt: the debt is credited back against the total withdrawn, both
  balances become zero and the run stops.

Both runs do the same sequence. The setup step is glide-path allocation,
rebalance, the first contribution or withdrawal, and the next month. Then a
monthly loop runs until the end month or the first month without price data.
Each month applies, in order:

1. the market move on stock;
2. the January reset;
3. the quarterly 2% annual dividend;
4. the monthly fixed-income yield;
5. the contribution or withdrawal;
6. the log entry, then the next month.

After the loop, the run closes with a rebalance at the end allocation.

The project has these files:

- `calendar.dfy` (module `Calendar`): months as (year, month) with index
  arithmetic, as `java.time.YearMonth` does.
- `stock_data.dfy` (module `StockData`): the price source, as an injected
  lookup function.
- `parent_simulator.dfy` (module `ParentSimulation`): the shared state.
  - Each operation is a pure function on a `Portfolio` value.
  - The class `ParentSimulator` holds the state in fields. Each method is
    proved to have exactly the effect of its function.
- `invest_simulator.dfy` (module `InvestSimulation`) and
  `withdraw_simulator.dfy` (module `WithdrawSimulation`): the two policies.
  - A whole run is a value: `SetUp`, the recursive `Loop`, and `Finished`.
  - Each class's `RunSimulation` is a `while` loop. Its invariant is that the
    specification loop from the current state gives the same result as from
    the entry state. So the method is proved to produce exactly `Simulated`.
  - Lemmas state what a run promises.
- `real_arithmetic.dfy` (module `RealArithmetic`): small facts about real
  products and quotients used by the withdrawal proofs.

## Model

| member | source | states |
|---|---|---|
| Calendar.YearMonth.PlusMonths | ParentSimulator.java:47 | moving by n months moves the month index by exactly n (year carries included) |
| Calendar.YearMonth.MinusMonths | InvestSimulator.java:54 | the previous month used for the price lookup is one index earlier |
| Calendar.YearMonth.IsBefore | InvestSimulator.java:53 | chronological order (earlier year, or same year and earlier month) holds exactly when the month index is smaller |
| Calendar.YearMonth.NotAfter | InvestSimulator.java:53 | the loop guard "before or equal to the end month" holds exactly when the month index is not past the end's |
| Calendar.YearMonth.IsQuarterEnd | ParentSimulator.java:58-59 | the dividend months March, June, September and December are exactly the months divisible by three |
| Calendar.FromIndex | ParentSimulator.java:47 | every index names a month whose index it is |
| Calendar.IndexInjective | ParentSimulator.java:47 | two months with the same index are the same month |
| Calendar.NotAfterIsIndexOrder | WithdrawSimulator.java:69 | the withdrawal loop guard is index order, in both directions |
| Calendar.MonthsBetween | ParentSimulator.java:41 | totalMonths is the index difference, and the start month plus totalMonths months is the end month |
| Calendar.PreviousMonthRoundTrip | InvestSimulator.java:54 | one month back then forward (and the reverse) returns the same month |
| Calendar.NextMonthCalendar | ParentSimulator.java:46-49 | the month after December is January of the next year; otherwise the year stays and the month rises by one |
| ParentSimulation.Opening | ParentSimulator.java:34-36 | the start amount is split into stock = amount × startAlloc and fixed = the rest, so the total is the start amount; the allocation starts at startAlloc with no months elapsed |
| ParentSimulation.PlanOf | ParentSimulator.java:41 | the plan's first-month index is the start month's, and the start month plus totalMonths is the end month |
| ParentSimulation.Advanced | ParentSimulator.java:46-49 | the month moves forward one calendar month and the months elapsed grow by one; balances and allocation stay |
| ParentSimulation.WithStockMarket | ParentSimulator.java:52-54 | stock grows by the percent change; fixed, allocation and month are unchanged |
| ParentSimulation.WithDividend | ParentSimulator.java:57-62 | in a quarter-end month (March, June, September, December) stock grows by a quarter of the 2% dividend; in any other month nothing changes |
| ParentSimulation.WithFixedYield | ParentSimulator.java:65-67 | fixed grows by a twelfth of the annual yield percentage; nothing else changes |
| ParentSimulation.GlidePath | ParentSimulator.java:71-72 | the allocation for the months elapsed: startAlloc plus elapsed/totalMonths of the way to endAlloc (no contract of its own; GlidePathProportional, GlidePathEndpoints and GlidePathBetween state its properties) |
| ParentSimulation.GlidePathProportional | ParentSimulator.java:71-72 | the distance of the glide path from startAlloc, times totalMonths, is the months elapsed times (endAlloc − startAlloc) |
| ParentSimulation.GlidePathEndpoints | ParentSimulator.java:70-73 | the glide path gives startAlloc with no months elapsed and endAlloc after totalMonths months |
| ParentSimulation.GlidePathBetween | ParentSimulator.java:70-73 | within the run the glide-path allocation lies between startAlloc and endAlloc, whichever is larger |
| ParentSimulation.WithGlideAllocation | ParentSimulator.java:70-73 | the allocation becomes the glide-path value for the months elapsed; balances and month stay |
| ParentSimulation.Rebalanced | ParentSimulator.java:77-82 | the total is conserved (negative or not); stock becomes total × allocation and fixed becomes total × (1 − allocation) |
| ParentSimulation.RebalanceIdempotent | ParentSimulator.java:77-82 | rebalancing twice gives the same result as rebalancing once |
| ParentSimulation.Finished | InvestSimulator.java:90-91 | the closing step sets the end allocation and rebalances: the total is conserved and split by endAlloc |
| ParentSimulation.Recorded | InvestSimulator.java:81-83 | one logged month appends its date and both balances; logs that were in step stay in step |
| ParentSimulation.ParentSimulator.constructor | ParentSimulator.java:29-43 | the fields hold the opening split, the plan (with totalMonths computed from the two months), empty logs and no months elapsed |
| ParentSimulation.ParentSimulator.RecordMonth | InvestSimulator.java:81-83 | the three logs grow by the current month and balances; the balances are untouched |
| ParentSimulation.ParentSimulator.NextMonth | ParentSimulator.java:46-49 | the state after the call is Advanced of the state before |
| ParentSimulation.ParentSimulator.ApplyStockMarket | ParentSimulator.java:52-54 | the state after the call is WithStockMarket of the state before |
| ParentSimulation.ParentSimulator.Dividend | ParentSimulator.java:57-62 | the state after the call is WithDividend of the state before |
| ParentSimulation.ParentSimulator.ApplyFixedIncomeYield | ParentSimulator.java:65-67 | the state after the call is WithFixedYield of the state before |
| ParentSimulation.ParentSimulator.AdjustAllocation | ParentSimulator.java:70-73 | the state after the call is WithGlideAllocation of the state before |
| ParentSimulation.ParentSimulator.Rebalance | ParentSimulator.java:77-81 | the state after the call is Rebalanced of the state before |
| InvestSimulation.Contributed | InvestSimulator.java:22-28 | the contribution changes only the balances: allocation, month, logs and counters stay |
| InvestSimulation.ContributionAccounting | InvestSimulator.java:22-28 | the total rises by exactly the contribution: stock receives contribution × allocation and fixed receives the rest |
| InvestSimulation.ContributionIncreased | InvestSimulator.java:31-34 | the contribution grows by the annual increase percentage; nothing else changes |
| InvestSimulation.SetUp | InvestSimulator.java:46-50 | the setup sets the glide-path allocation, advances one month, and leaves the logs and both contribution counters unchanged |
| InvestSimulation.SetUpContributionNotCounted | InvestSimulator.java:46-50 | the setup contribution reaches the balances (the total rises by it) but is not counted in the total contributed |
| InvestSimulation.MonthOf | InvestSimulator.java:64-86 | a completed month counts the contribution before any January increase; in January it raises the contribution and sets the glide-path allocation, otherwise both stay; it logs the month and advances one month |
| InvestSimulation.Moved | InvestSimulator.java:64-67 | the start of a month counts the contribution, then moves stock by the market |
| InvestSimulation.Closed | InvestSimulator.java:80-86 | the end of a month records the current month and balances, then advances |
| InvestSimulation.JanuaryReset | InvestSimulator.java:69-73 | outside January nothing changes; in January the total is conserved, the allocation becomes the glide-path value, stock holds total × allocation and fixed the rest, and the contribution grows by the annual increase percentage |
| InvestSimulation.Accrued | InvestSimulator.java:76-77 | in a quarter-end month stock grows by a quarter of the 2% dividend, otherwise it stays; fixed grows by a twelfth of the yield percentage; nothing else changes |
| InvestSimulation.Loop | InvestSimulator.java:53-87 | the monthly loop as a value; it stops only past the end month or at a month whose price lookup failed, and never shortens the log |
| InvestSimulation.Simulated | InvestSimulator.java:43-96 | a whole run as a value: the loop's logs and total contributed, its total conserved by the closing rebalance, and the end allocation |
| InvestSimulation.LoopLogsOneEntryPerMonth | InvestSimulator.java:53-87 | the loop appends exactly one log entry per month it advances, keeps earlier entries, keeps the logs in step, and the months elapsed track the calendar |
| InvestSimulation.MonthStaysConsecutive | InvestSimulator.java:81-86 | after a completed month the logged months are still the consecutive months just before the current one |
| InvestSimulation.MonthStaysPriced | InvestSimulator.java:56-62 | a month is logged only when it is within the run and its price was found |
| InvestSimulation.LoopKeepsLogInvariants | InvestSimulator.java:53-87 | the whole loop logs only consecutive months within the run whose price was found |
| InvestSimulation.LoopExit | InvestSimulator.java:53-62 | the loop stops one month past the end month, or at a month within the run whose price lookup failed |
| InvestSimulation.MonthStaysOnGlidePath | InvestSimulator.java:69-73 | a month within the run keeps the months elapsed in step with the calendar and leaves an allocation between the start and the end allocation |
| InvestSimulation.LoopAllocationWithinGlidePath | InvestSimulator.java:69-73 | the months elapsed stay in step with the calendar, and the allocation never leaves the span between start and end allocation |
| InvestSimulation.RepeatedIsProduct | InvestSimulator.java:65 | n equal contributions add up to n times the contribution |
| InvestSimulation.MonthWithoutIncrease | InvestSimulator.java:65-72 | with no annual increase a month (January included) keeps the contribution, counts it once and logs one entry |
| InvestSimulation.LoopKeepsContributionWithoutIncrease | InvestSimulator.java:69-73 | with no annual increase the loop never changes the contribution |
| InvestSimulation.LoopTotalWithoutIncrease | InvestSimulator.java:53-87 | with no annual increase the loop counts the contribution once per logged month |
| InvestSimulation.SimulatedLogBound | InvestSimulator.java:43-96 | a fresh run logs at most totalMonths months (none when the end precedes the start), keeps its logs in step, and ends at the end allocation |
| InvestSimulation.SimulatedLogsPricedMonths | InvestSimulator.java:43-96 | a fresh run logs the consecutive months from the month after the start on (the setup month is not logged), each within the run and priced |
| InvestSimulation.SimulatedTotalWithoutIncrease | InvestSimulator.java:43-96 | with no annual increase, the total contributed is the contribution counted once per logged month (the setup contribution not included), and the contribution ends unchanged |
| InvestSimulation.SimulatedAllocationWithinGlidePath | InvestSimulator.java:46-87 | in a fresh run, the allocation in force when the loop stops lies between the start and the end allocation (MonthStaysOnGlidePath gives the same for every month) |
| InvestSimulation.InvestSimulator.constructor | InvestSimulator.java:13-19 | the shared state opens as the parent's, with the monthly contribution set and nothing counted yet |
| InvestSimulation.InvestSimulator.AllocateContribution | InvestSimulator.java:22-28 | the state after the call is Contributed of the state before |
| InvestSimulation.InvestSimulator.IncreaseContribution | InvestSimulator.java:31-34 | the state after the call is ContributionIncreased of the state before |
| InvestSimulation.InvestSimulator.RunSimulation | InvestSimulator.java:43-96 | the state after the run is Simulated of the state before: setup, the monthly loop up to the end month or the first missing price, then the closing rebalance |
| InvestSimulation.InvestSimulator.GetFinalAmount | InvestSimulator.java:98-100 | the final amount is the sum of the two balances |
| InvestSimulation.InvestSimulator.GetTotalContribution | InvestSimulator.java:102-104 | returns the total contributed |
| InvestSimulation.ExperimentRun | InvestmentExperiment.java:68-73 | a constructed and run simulator logs at most one entry per month from start to end, keeps its logs in step, ends at the end allocation, and with no annual increase has contributed once per logged month |
| WithdrawSimulation.DriftOf | WithdrawSimulator.java:22-29 | which side the draw comes from, with IEEE comparisons for a zero total (no contract of its own; DriftOfShares and DriftByAmounts state its meaning) |
| WithdrawSimulation.DriftOfShares | WithdrawSimulator.java:22-29 | with a nonzero total, underweight and overweight are exactly stock share below and above the allocation; with a zero total they are a negative and a positive stock balance |
| WithdrawSimulation.DriftByAmounts | WithdrawSimulator.java:22-29 | with a positive total, stock is underweight, overweight or on target exactly when it holds less than, more than or exactly allocation × total |
| WithdrawSimulation.Draw | WithdrawSimulator.java:23 | with a rate in [0, 1) and a positive total, the month's draw is not negative and below the total |
| WithdrawSimulation.Drawdown | WithdrawSimulator.java:25-32 | taking an amount out of one side or both never changes the allocation or the month |
| WithdrawSimulation.Withdrawn | WithdrawSimulator.java:21-35 | a withdrawal changes only the balances and the total withdrawn |
| WithdrawSimulation.WithdrawalAccounting | WithdrawSimulator.java:21-35 | the draw (rate × total) leaves the total and is added to the total withdrawn, so their sum is conserved. It comes out of fixed when stock is underweight, out of stock when overweight, and is split by the allocation when on target |
| WithdrawSimulation.OverweightDrawLowersStockShare | WithdrawSimulator.java:27-28 | drawing from overweight stock, with fixed not negative, a positive total and a rate below one, leaves a positive total and does not raise the stock share |
| WithdrawSimulation.UnderweightDrawRaisesStockShare | WithdrawSimulator.java:25-26 | drawing from fixed when stock is underweight, with stock not negative, a positive total and a rate below one, leaves a positive total and does not lower the stock share |
| WithdrawSimulation.OverweightExample | WithdrawSimulator.java:22-28 | with 800 in stock, 200 in fixed and target one half, stock is overweight and pays the whole draw |
| WithdrawSimulation.WithdrawalIncreased | WithdrawSimulator.java:38-40 | the withdrawal rate grows by the annual increase percentage; nothing else changes |
| WithdrawSimulation.Bankrupted | WithdrawSimulator.java:49-56 | both balances become zero and the debt is taken off the total withdrawn, so the sum of total withdrawn and total is conserved |
| WithdrawSimulation.BankruptcyExample | WithdrawSimulator.java:49-56 | a debt of 50 in stock and 30 in fixed lowers the total withdrawn by 80 and leaves nothing |
| WithdrawSimulation.InsolventAfterRebalance | WithdrawSimulator.java:95-104 | after the emergency rebalance both balances are negative exactly when the total is negative and the allocation lies strictly between 0 and 1 |
| WithdrawSimulation.Rescued | WithdrawSimulator.java:95-98 | the emergency rebalance happens exactly when a balance is negative (the balances are then Rebalanced, otherwise unchanged), and conserves the total and the counters |
| WithdrawSimulation.SetUp | WithdrawSimulator.java:62-66 | the setup sets the glide-path allocation, keeps the rate and the logs, and advances one month |
| WithdrawSimulation.SetUpCountsFirstWithdrawal | WithdrawSimulator.java:62-66 | unlike the accumulation setup, the setup withdrawal is counted in the total withdrawn; their sum with the total is conserved |
| WithdrawSimulation.Moved | WithdrawSimulator.java:80 | the start of a month moves stock by the market |
| WithdrawSimulation.JanuaryReset | WithdrawSimulator.java:83-87 | outside January nothing changes; in January the total is conserved, the allocation becomes the glide-path value, stock holds total × allocation and fixed the rest, and the withdrawal rate grows by the annual increase percentage |
| WithdrawSimulation.Accrued | WithdrawSimulator.java:90-91 | in a quarter-end month stock grows by a quarter of the 2% dividend, otherwise it stays; fixed grows by a twelfth of the yield percentage; nothing else changes |
| WithdrawSimulation.Drawn | WithdrawSimulator.java:80-92 | a month up to its withdrawal sets the glide-path allocation and raises the rate by the annual increase in January, and keeps both otherwise; the month and logs stay |
| WithdrawSimulation.DrawnAccounting | WithdrawSimulator.java:80-92 | the month's draw is taken from the accrued balances and added to the total withdrawn, so their sum equals that of the accrued state |
| WithdrawSimulation.Closed | WithdrawSimulator.java:106-111 | a month that did not go bankrupt records its date and balances, then advances |
| WithdrawSimulation.Loop | WithdrawSimulator.java:69-112 | the monthly loop as a value with its exit: Completed exactly when the month is past the end month, MissingData only when the lookup failed |
| WithdrawSimulation.Simulated | WithdrawSimulator.java:60-119 | a whole run as a value: the loop's exit, logs and total withdrawn, its total conserved by the closing rebalance, and the end allocation |
| WithdrawSimulation.BankruptExactlyWhenInsolvent | WithdrawSimulator.java:94-105 | a month within the run with its price found ends the loop bankrupt exactly when, after its withdrawal, the total is negative and the allocation lies strictly between 0 and 1; otherwise it is logged and the loop goes on |
| WithdrawSimulation.MonthStaysOnGlidePath | WithdrawSimulator.java:83-87 | a month within the run that does not go bankrupt keeps the months elapsed in step with the calendar and leaves an allocation between the start and the end allocation |
| WithdrawSimulation.LoopLogsOneEntryPerMonth | WithdrawSimulator.java:69-112 | the loop appends one log entry per month it advances past and keeps the logs in step; a bankrupt month is neither logged nor advanced past |
| WithdrawSimulation.LoopExit | WithdrawSimulator.java:69-112 | the loop ends in one of three ways: past the end month (exactly one past when it started within reach); at a month within the run whose lookup failed; or bankrupt, in a month within the run with its price found and both balances zero |
| WithdrawSimulation.LoopAllocationWithinGlidePath | WithdrawSimulator.java:83-87 | the months elapsed stay in step with the calendar, and the allocation never leaves the span between start and end allocation |
| WithdrawSimulation.SimulatedLogBound | WithdrawSimulator.java:60-119 | a fresh run logs at most totalMonths months, keeps its logs in step, and ends at the end allocation |
| WithdrawSimulation.ClosedStaysConsecutive | WithdrawSimulator.java:106-111 | logging the current month and advancing keeps the logged months consecutive |
| WithdrawSimulation.ClosedStaysPriced | WithdrawSimulator.java:72-78 | a month is logged only when it is within the run and its price was found |
| WithdrawSimulation.LoopKeepsLogInvariants | WithdrawSimulator.java:69-112 | the whole loop logs only consecutive months within the run whose price was found |
| WithdrawSimulation.SimulatedLogsPricedMonths | WithdrawSimulator.java:60-119 | a fresh run logs the consecutive months from the month after the start on, each within the run and priced |
| WithdrawSimulation.LoopBankruptMonthNotLogged | WithdrawSimulator.java:99-104 | a loop that ends bankrupt leaves both balances at zero and has not logged the bankrupt month |
| WithdrawSimulation.SimulatedBankruptcyLeavesNothing | WithdrawSimulator.java:99-115 | after bankruptcy the closing rebalance leaves both balances, and so the final amount, at zero |
| WithdrawSimulation.SimulatedBankruptMonthNotLogged | WithdrawSimulator.java:99-109 | the month in which a fresh run goes bankrupt is not among its logged months |
| WithdrawSimulation.WithdrawSimulator.constructor | WithdrawSimulator.java:12-18 | the shared state opens as the parent's; the monthly rate is the annual percentage over twelve; nothing is withdrawn yet |
| WithdrawSimulation.WithdrawSimulator.AllocateWithdrawal | WithdrawSimulator.java:21-35 | the state after the call is Withdrawn of the state before |
| WithdrawSimulation.WithdrawSimulator.IncreaseWithdrawal | WithdrawSimulator.java:38-40 | the state after the call is WithdrawalIncreased of the state before |
| WithdrawSimulation.WithdrawSimulator.Bankruptcy | WithdrawSimulator.java:49-56 | the state after the call is Bankrupted of the state before |
| WithdrawSimulation.WithdrawSimulator.RunSimulation | WithdrawSimulator.java:60-119 | the state after the run is the state of Simulated: setup, the monthly loop up to the end month, the first missing price or bankruptcy, then the closing rebalance |
| WithdrawSimulation.WithdrawSimulator.GetFinalAmount | WithdrawSimulator.java:121-123 | the final amount is the sum of the two balances |
| WithdrawSimulation.WithdrawSimulator.GetTotalWithdrawal | WithdrawSimulator.java:125-127 | returns the total withdrawn |
| WithdrawSimulation.ExperimentRun | WithdrawExperiment.java:69-74 | a constructed and run simulator logs at most one entry per month from start to end, keeps its logs in step, ends at the end allocation, and never logs its start month |

## Left out

- Money is a mathematical `real`, not an IEEE double. Rounding is not modelled. Neither are the NaN and ±Infinity that a zero denominator would produce, apart from the case below.
- WithdrawSimulation.DriftOf: a zero total does follow IEEE comparison. A positive stock balance over a zero total compares above any allocation (+Infinity). A negative one compares below (−Infinity). Zero over zero (NaN) compares neither way, so the draw is split.
- ParentSimulation.ParentSimulator.AdjustAllocation requires totalMonths ≠ 0. With a start month equal to the end month, the Java code divides 0 by 0 and the allocation becomes NaN. The model does not represent NaN.
- InvestSimulation.InvestSimulator.RunSimulation and WithdrawSimulation.WithdrawSimulator.RunSimulation require totalMonths ≠ 0, for the same reason: their setup step calls adjustAllocation.
- The price source: `StockData` (file reading and the percent-change computation) is not part of this model. The constructors take it as a parameter, where the Java constructor creates it itself. A lookup with no data for a month is `None`; the Java code throws IllegalArgumentException there.
- Console output (the rebalance message, printValues, the missing-data and out-of-money messages), the Swing chart (displayChart, GraphPanel), the date formatter and the Main methods of the experiment drivers are not modelled. They only display results or choose parameters.
- Inheritance: the policy classes hold the shared state in a `base` object rather than extending ParentSimulator.
- java.time.YearMonth's year range (±999,999,999) is not enforced. Years are unbounded integers.
- ParentSimulation.PlanOf: totalMonths and currentMonth are Java ints, and their 32-bit wrap-around is not modelled. A span over about 178,956,970 years can wrap totalMonths to 0 (for example January of year 0 to May of year 357,913,941), which in Java makes every allocation NaN; the model computes the exact month count.
- The experiment drivers are modelled only as far as ExperimentRun: construct, run, read the two results. Their parameter sweeps, averaging and output are not.
- InvestSimulation.SimulatedTotalWithoutIncrease states the total contributed as a repeated sum `Repeated(c, n)` rather than `n × c`; RepeatedIsProduct gives the product form.
- The month-end logging of both loops is a ParentSimulator method, RecordMonth, rather than three inline appends. This has no effect on the state.
