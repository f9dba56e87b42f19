# pfme simulation engine — a Dafny model

This project models the core of pfme, a personal-finance simulation engine. A run
advances a set of asset providers over a range of years. Each year, a tree of
investment strategies buys units of assets in a portfolio. Run metrics then record an
observation of that portfolio. The model covers:

- **Asset providers** (`asset.dfy`, module `Assets`). It models `ConstantGeomIncreaseAsset`
  from both `er_calc/asset.py` and `pfme/asset.py` as one class with two constructors.
  The er_calc constructor starts at 100.0. The pfme constructor starts at `starting_value`.
  `update_value` multiplies the value by `(1 + growth_rate) ** increment`. A NaN increment
  is the initialisation call and leaves the value unchanged. A NaN increment is written
  `None`. Exponentiation `**` is a parameter `pow`. The lemmas assume only the laws of
  exponentiation stated by `ExponentLaws`.
- **Portfolio** (`portfolio.dfy`, module `Portfolios`). It models `er_calc/portfolio.py`.
  The class `Portfolio` holds the provider map and the `asset_holdings` dict. It also holds
  the `income` and `expenses` dicts, as association lists in insertion order. `Add`
  follows the source's branches:
  - `ValueError` when neither `cash` nor `units` is given;
  - the units branch runs before the cash branch;
  - `KeyError` for an asset with no holding or no provider;
  - division by a zero unit value raises `ZeroDivisionError`.

  An exception raised part-way keeps the changes already made. Python's binding of
  `add(self, asset, /, ...)` is modelled by `BindAddAsset`. The read-only queries
  (`current_value`, `asset_value_per_unit`, `units_of_asset_held`, `cash_of_asset_held`,
  `total_income`, `total_expenses`) are functions of the immutable `View` that
  `Portfolio.Snapshot` returns.
- **Strategies** (`strategy.dfy`, module `Strategies`, with the lemmas in
  `strategy_props.dfy`, module `StrategyProperties`). They model `er_calc/strategy.py`.
  The strategy classes become one datatype: `Inert` (the base class),
  `Combined`, `LimitedDuration` and `FixedYearlyInvestment`. The mutable `elapsed` field
  of a `LimitedDurationStrategy` lives in a small class `Clock` that the tree refers to,
  so the same instance can appear twice in a tree. `Execution` is the specification of
  `execute` on values. It works on the holdings and the clocks, at the providers' unit
  values. The methods `Execute`, `ExecuteLimitedDuration`, `ExecuteFixedYearly` and
  `ExecuteAll` change the portfolio and the clocks in place. Each is proved against
  `Execution` and `ExecutionAll`.
- **Metrics** (`metric.dfy`, module `Metrics`). They model `pfme/metric.py` and
  `er_calc/metric.py`. A `Metric` object has a class (`Kind`) and a log `values`.
  `Record` appends `{year, calculate(portfolio)}` to the log, or raises what `calculate`
  raises. The metric classes are `TotalAssets`, `HoldingsByAsset`, `FIReached`,
  `CashflowStatement` and er_calc's `FIReached` (`ErCalcFIReached`). `Name` is `name()`.
  `RequestedAssets` is `requested_assets()`, which every class leaves empty.
- **Simulation** (`simulation.dfy`, module `Simulations`). It models `pfme/simulation.py`.
  `Simulation.Create` is `__init__`. It collects the requested assets and selects their
  providers; an unregistered asset raises `KeyError`. `Simulation.Run` is `run()`:
  - build a fresh portfolio;
  - update every provider once with NaN;
  - then for each year of `np.arange(start_year, end_year, increment)`, execute every
    strategy, record every metric and update every provider.

  `Run` is proved against the value-level specification `RunSpec`. `RunSpec` describes
  a `World`: the holdings, every provider's value, every clock's elapsed time and
  every metric's log. The lemmas about many steps (`RunLogs`, `RunValues`) go through
  `Steps`, which iterates one step given as a function value.

`wrappers.dfy` holds `Option`, `Result`, `Attempt` (a state paired with the exception
that interrupted it, if any) and the exceptions the source can raise.

Where the code disagrees with its own comments or with its twin file, the model
follows the code:
- The docstrings of `AssetProvider.update_value` (`er_calc/asset.py:25`,
  `pfme/asset.py:22`) say that a NaN increment makes the provider set its initial
  value. `ConstantGeomIncreaseAsset.update_value` (`er_calc/asset.py:48-50`,
  `pfme/asset.py:45-47`) does nothing on NaN, and that is what `Advance` does.
- `er_calc/portfolio.py:37` makes the `asset` parameter of `add` positional-only, and
  `er_calc/strategy.py:75` passes it by keyword, so that call raises TypeError. Both
  the call as written and the corrected call are modelled (see Findings). Strategy
  execution, and so the simulation, uses the corrected call (see Left out).
- er_calc's FIReached (`er_calc/metric.py:63`) compares with the unit value of
  `Asset.EXPENSES`, which er_calc's `Asset` does not define. pfme's FIReached
  (`pfme/metric.py:60-64`) compares with the sum of the expenses.

## Model

| member | source | states |
|---|---|---|
| Assets.ConstantGeomIncreaseAsset.ForAsset | er_calc/asset.py:43-46 | The er_calc provider starts at 100.0 whatever its asset and growth rate, and records both. |
| Assets.ConstantGeomIncreaseAsset.WithStartingValue | pfme/asset.py:40-43 | The pfme provider starts at its starting value and records it and its growth rate. |
| Assets.Advance | er_calc/asset.py:48-50 | No contract of its own. It defines one update_value on a stored value. Assets.NaNIncrementKeepsValue, Assets.NeutralUpdate and Assets.AdvanceAdditive state its properties. |
| Assets.ConstantGeomIncreaseAsset.UpdateValue | er_calc/asset.py:48-50 | The year is ignored. A NaN increment leaves the value unchanged. Otherwise the value is multiplied by (1 + r) ** increment. |
| Assets.NaNIncrementKeepsValue | pfme/asset.py:45-47 | A NaN update is a no-op; it does not reset the value to the starting value. |
| Assets.NeutralUpdate | er_calc/asset.py:49-50 | With growth rate 0 or increment 0 an update leaves the value unchanged. |
| Assets.AdvanceAdditive | er_calc/asset.py:49-50 | For a growth rate above -1, updating by a and then by b equals one update by a + b. |
| Assets.NaNFirstIsNoOp | er_calc/asset.py:48-50 | The initialisation call before any sequence of updates changes nothing. |
| Assets.ZeroGrowthIsConstant | pfme/asset.py:45-47 | A provider with growth rate 0 keeps its value through any sequence of updates. |
| Assets.YearlyCompounding | er_calc/asset.py:43-50 | The initialisation call followed by n one-year updates gives v × (1 + r)^n. |
| Assets.ErCalcProviderExample | er_calc/asset.py:43-50 | At 10% growth the er_calc provider shows 100.0 after initialisation and 110.0 after one year. |
| Portfolios.View.CurrentValue | er_calc/portfolio.py:52-56 | No contract of its own. It defines current_value() as the sum, over the holdings in key order, of units times unit value. Portfolios.HoldingsValueUpdate, Portfolios.AddChangesCurrentValue and Portfolios.ZeroHoldingsHaveNoValue state its properties. |
| Portfolios.View.AssetValuePerUnit | er_calc/portfolio.py:58-59 | No contract of its own. It defines asset_value_per_unit(asset): the provider's value, and KeyError without a provider. |
| Portfolios.View.UnitsOfAssetHeld | er_calc/portfolio.py:61-62 | No contract of its own. It defines units_of_asset_held(asset): the units held, and KeyError without a holding. |
| Portfolios.View.TotalIncome | er_calc/portfolio.py:67-68 | No contract of its own. It defines total_income() as the sum of the income values. Metrics.CashflowAddsUp relates it to the cashflow statement. |
| Portfolios.View.TotalExpenses | er_calc/portfolio.py:70-71 | No contract of its own. It defines total_expenses() as the sum of the expense values. Metrics.FIReachedIff and Metrics.CashflowAddsUp use it. |
| Portfolios.PricesOf | er_calc/portfolio.py:58-59 | Every provider has a unit value, and only providers do. |
| Portfolios.View.CashOfAssetHeld | er_calc/portfolio.py:58-65 | Succeeds exactly when the asset has both a holding and a provider (otherwise KeyError). On success it equals the units held times the unit value. |
| Portfolios.BindAddAsset | er_calc/portfolio.py:34-40 | No contract of its own. It defines how Python binds `asset` for `add(self, asset, /, ...)`: the one positional argument, and TypeError when it comes by keyword. StrategyProperties.FixedYearlyAsWrittenRaises states what that means for the fixed yearly strategy. |
| Portfolios.AddSpec | er_calc/portfolio.py:34-50 | add never creates or removes a key of the holdings dict. |
| Portfolios.AddContract | er_calc/portfolio.py:41-50 | Holdings of other assets never change. ValueError exactly when neither argument is given, with no change. ZeroDivisionError exactly when the cash branch is reached with a zero unit value. Every other failure is KeyError, including an asset with neither a holding nor a provider; an asset with no holding always fails with no change. Success holds exactly when an argument is given, the asset is held, and cash comes with a provider whose unit value is not zero. On success the holding grows by units + cash / unit value. On a failure after the units branch, the units stay added. |
| Portfolios.Portfolio.constructor | er_calc/portfolio.py:26-32 | Every provided asset is held at 0.0 units. The holdings keys are exactly the providers' keys, in the providers' order. Income and expenses start empty. |
| Portfolios.Portfolio.Snapshot | er_calc/portfolio.py:52-71 | The state the queries read has a holding and a unit value for every asset in key order. |
| Portfolios.Portfolio.Add | er_calc/portfolio.py:34-50 | The new holdings and the exception raised are AddSpec of the old holdings at the providers' current unit values. Income and expenses are unchanged, and holdings keep the providers' keys. |
| Portfolios.HoldingsValueUpdate | er_calc/portfolio.py:52-56 | Changing one holding by delta changes current_value by delta times that asset's unit value. |
| Portfolios.AddChangesCurrentValue | er_calc/portfolio.py:44-56 | A successful add raises current_value by units × unit value plus exactly the cash invested. |
| Portfolios.ValueOfAddedUnits | er_calc/portfolio.py:44-56 | Putting the units of an add on one listed asset raises the holdings' value by units × unit value plus the cash. |
| Portfolios.AddSucceeds | er_calc/portfolio.py:44-50 | A successful add changes only the named holding, by the units plus cash / unit value, and implies a non-zero unit value when cash is given. |
| Portfolios.AddedValue | er_calc/portfolio.py:44-50 | The units added are worth the units given at the unit value plus the cash. |
| Portfolios.ZeroHoldingsHaveNoValue | er_calc/portfolio.py:52-56 | A portfolio that holds 0.0 units of every asset is worth 0. |
| Portfolios.AddExample | er_calc/portfolio.py:41-50 | At a unit value of 100, adding 5 units and then 200 in cash holds 7 units, with no exception. |
| Strategies.RequestedAssets | er_calc/strategy.py:28-72 | No contract of its own. It defines requested_assets(): a leaf's one asset, a window's child's list, a combination's concatenated lists. StrategyProperties.CombinedRequested and StrategyProperties.RequestedAllAppend state its properties. |
| Strategies.RequestedAll | er_calc/strategy.py:28-33 | No contract of its own. It defines the list comprehension over a CombinedStrategy's children. StrategyProperties.RequestedAllAppend states that it distributes over concatenation. |
| Strategies.FixedYearlyAsWritten | er_calc/strategy.py:74-75 | No contract of its own. It defines the leaf as the source writes it: the keyword call bound by Portfolios.BindAddAsset. StrategyProperties.FixedYearlyAsWrittenRaises states that it always raises TypeError. |
| Strategies.Clock.constructor | er_calc/strategy.py:50 | A fresh elapsed counter starts at 0.0. |
| Strategies.NewLimitedDuration | er_calc/strategy.py:45-50 | Defaults: start is -inf, end is +inf, relative is true. The instance gets its own fresh clock at 0.0. |
| Strategies.InvestCash | er_calc/strategy.py:74-75 | An investment changes no holdings key and no clock. |
| Strategies.FixedYearly | er_calc/strategy.py:74-75 | The corrected leaf changes no holdings key and no clock. |
| Strategies.Execution | er_calc/strategy.py:17-75 | execute keeps all holdings and clock keys, and changes only the clocks of its own LimitedDuration nodes. |
| Strategies.ExecutionAll | er_calc/strategy.py:35-37 | Running a list of children keeps all keys and changes only the clocks of the children's LimitedDuration nodes. |
| Strategies.ExecutionAllStops | er_calc/strategy.py:35-37 | Once a child has raised, the later children do not run. |
| Strategies.Execute | er_calc/strategy.py:17-75 | The holdings and the exception are those Execution gives at the current unit values. The heap clocks show Execution's new elapsed times. Income and expenses are unchanged. |
| Strategies.ExecuteLimitedDuration | er_calc/strategy.py:55-63 | The same as Execute, for a LimitedDurationStrategy: relative or absolute window, with a NaN increment not counted. |
| Strategies.ExecuteFixedYearly | er_calc/strategy.py:74-75 | The holdings and the exception are those of FixedYearly at the current unit values. |
| Strategies.ExecuteAll | er_calc/strategy.py:35-37 | The children run in list order, stopping at the first exception. The end state is ExecutionAll's. |
| StrategyProperties.FixedYearlyAsWrittenRaises | er_calc/strategy.py:75 | The keyword call as written always raises TypeError and changes nothing. |
| StrategyProperties.FixedYearlyContract | er_calc/strategy.py:74-75 | The corrected leaf succeeds exactly when the increment is a number, and its asset is held, priced and at a non-zero unit value. It then buys amount × increment / unit value units of that asset. On failure nothing changes. |
| Strategies.FixedYearlyInvests | er_calc/strategy.py:74-75 | A NaN increment is refused before touching the portfolio. Otherwise the leaf is add(asset, cash=amount × increment). |
| StrategyProperties.FixedYearlyExample | tests/test_strategy.py:21-29 | With 50 a year at a unit value of 100, the corrected leaf holds 0.5 units after one year and 0.75 after a further half year, with no exception. |
| StrategyProperties.CombinedExample | tests/test_strategy.py:43-53 | Two leaves of 50 and 100 at a unit value of 100 each buy their own asset in one step: 0.5 and 1.0 units. |
| StrategyProperties.InertIsNoOp | er_calc/strategy.py:17-18 | The base execute changes nothing and raises nothing. |
| StrategyProperties.ClocksAllAppend | er_calc/strategy.py:35-37 | The clocks of a concatenated child list are the union of the two lists' clocks. |
| StrategyProperties.RequestedAllAppend | er_calc/strategy.py:28-33 | The request list of xs + ys is xs's list followed by ys's, with duplicates kept. |
| StrategyProperties.CombinedRequested | er_calc/strategy.py:28-33 | A CombinedStrategy requests its children's lists concatenated. A LimitedDurationStrategy requests its child's list. |
| StrategyProperties.ExecutionAllAppend | er_calc/strategy.py:35-37 | Running xs + ys means running xs and then, unless one raised, running ys on the state xs left. |
| StrategyProperties.CombinedIsSequential | er_calc/strategy.py:35-37 | The first child runs on the given state and the rest on what it leaves. Nothing runs after a child that raised. |
| StrategyProperties.UnboundedWindow | er_calc/strategy.py:46-47 | The default bounds -inf and +inf admit every time. A single bound admits exactly the times on its side. |
| StrategyProperties.RelativeWindow | er_calc/strategy.py:56-60 | In relative mode the clock first moves by the increment, except for a NaN increment. The child then runs on the moved clock exactly when start <= elapsed <= end; otherwise nothing else changes. |
| StrategyProperties.AbsoluteWindow | er_calc/strategy.py:61-63 | In absolute mode the child runs exactly when start <= year <= end, and the strategy's own clock never moves. |
| StrategyProperties.RelativeWindowExample | tests/test_strategy.py:144-167 | Five steps, each from the state the previous one left, through `WindowTest` (one execution on a one-asset state). A relative window [2, 3] around 100 a year, at a unit value of 100, with increments 1, 1, 0.5, 0.5, 1: the holding is 0, 1, 1.5, 2, 2 and the clock 1, 2, 2.5, 3, 4. |
| StrategyProperties.AbsoluteWindowExample | tests/test_strategy.py:71-94 | Five steps, each from the state the previous one left, through `WindowTest`. An absolute window [2024, 2025] around 100 a year, at a unit value of 100, over years 2023-2026: the holding is 0, 1, 1.5, 2, 2 and the clock stays at 0. |
| StrategyProperties.ClocksMonotone | er_calc/strategy.py:56-58 | With increments that are not negative, no clock ever moves back. |
| StrategyProperties.ClocksAllMonotone | er_calc/strategy.py:35-37 | The same for a list of children. |
| StrategyProperties.Repeated | er_calc/strategy.py:55-63 | Repeated execution keeps the holdings and clock keys. |
| StrategyProperties.PastEndNeverRuns | er_calc/strategy.py:56-60 | Once a relative clock is past the window's end, and the increments are not negative, the child never runs again. The holdings stay as they are and the clock stays past the end. |
| StrategyProperties.LimitedFixedStep | er_calc/strategy.py:55-75 | A window around a fixed yearly investment grows the holding by amount × d / unit value exactly when the compared time lies in the window. That time is the moved clock in relative mode and the year otherwise. The clock moves by d only in relative mode. |
| StrategyProperties.RequestedCoversExecution | er_calc/strategy.py:52-75 | A strategy whose requested assets all have a holding and a non-zero unit value never raises on a numeric increment. |
| StrategyProperties.RequestedAllCoversExecution | er_calc/strategy.py:28-37 | The same for a list of children. |
| Metrics.Name | pfme/metric.py:13-14 | No contract of its own. It defines name(), the class name; both FIReached classes are named FIReached. |
| Metrics.RequestedAssets | pfme/metric.py:16-17 | No contract of its own. It defines requested_assets() as the empty set for every class; Simulations.MetricAssetsEmpty uses this. |
| Metrics.Calculate | pfme/metric.py:36-84 | No contract of its own. It defines calculate per metric class, with er_calc's FIReached raising AttributeError. Metrics.TotalAssetsIsCurrentValue, Metrics.HoldingsByAssetAddsUp, Metrics.FIReachedIff, Metrics.CashflowAddsUp and Metrics.ErCalcFIReachedFails state its properties. |
| Metrics.HoldingsList | pfme/metric.py:41-50 | One entry per asset, in key order, each with the asset's name, its units and its unit value. |
| Metrics.NamedAmounts | pfme/metric.py:67-84 | No contract of its own. It defines the {name, value} list of a dict in insertion order. Metrics.NamedAmountsTotal and Metrics.CashflowAddsUp state its length and total. |
| Metrics.Metric.constructor | pfme/metric.py:9-11 | A new metric has an empty log. |
| Metrics.Metric.Record | pfme/metric.py:23-30 | If calculate succeeds, exactly one entry {year, value} is appended. If it raises, the same exception is raised and the log is unchanged. |
| Metrics.HoldingsListValue | pfme/metric.py:41-50 | The HoldingsByAsset entries' units × unit values add up to the portfolio's value. |
| Metrics.NamedAmountsTotal | pfme/metric.py:67-84 | The listed values add up to the dict's total. |
| Metrics.TotalAssetsIsCurrentValue | pfme/metric.py:36-38 | TotalAssets reports current_value(). |
| Metrics.HoldingsByAssetAddsUp | pfme/metric.py:41-50 | HoldingsByAsset has one entry per held asset, and the entries add up to TotalAssets. |
| Metrics.FIReachedIff | pfme/metric.py:53-64 | FIReached is true exactly when current_value × withdrawal rate >= the total expenses. |
| Metrics.CashflowAddsUp | pfme/metric.py:67-84 | CashflowStatement lists every income and every expense item. The listed values add up to total_income() and total_expenses(). |
| Metrics.ErCalcFIReachedFails | er_calc/metric.py:60-64 | er_calc's FIReached always raises AttributeError, so its record never appends. |
| Metrics.FreshPortfolioMetrics | pfme/metric.py:36-84 | On a fresh portfolio, FIReached is true at any rate, TotalAssets is 0 and the cashflow statement is empty. |
| Simulations.StrategyAssetsMembers | pfme/simulation.py:26-28 | An asset is collected exactly when some strategy requests it. |
| Simulations.MetricAssetsEmpty | pfme/simulation.py:29-30 | The metrics add no asset to the collection. |
| Simulations.CollectAssets | pfme/simulation.py:26-30 | The collected set is the union of every strategy's and every metric's requested assets. |
| Simulations.SelectProviders | pfme/simulation.py:32-35 | Succeeds exactly when every collected asset is registered (otherwise KeyError). The keys are the collected assets, once each in iteration order, each mapped to its registered provider. |
| Simulations.Ceil | pfme/simulation.py:43 | The ceiling is the least integer not below x. |
| Simulations.StepCount | pfme/simulation.py:43 | No contract of its own. It defines len(np.arange(start, end, increment)) as ceil((end - start) / increment), clipped at 0. |
| Simulations.Year | pfme/simulation.py:43-44 | No contract of its own. It defines the k-th year of the range as start + k × increment. |
| Simulations.StepCountHalfOpen | pfme/simulation.py:43 | The range is half-open. With a positive increment, step k exists exactly when start + k × increment < end. With a negative increment, it exists exactly when that year > end. |
| Simulations.YearsIncrease | pfme/simulation.py:43 | With a positive increment the years strictly increase. |
| Simulations.AdvanceAll | pfme/simulation.py:54-55 | The provider loop touches no object outside the world. |
| Simulations.RecordAll | pfme/simulation.py:52-53 | The record loop changes only existing logs. |
| Simulations.RecordOne | pfme/simulation.py:53 | Recording one metric changes only existing logs. |
| Simulations.ViewOf | pfme/simulation.py:39 | The portfolio the metrics see has a holding and a unit value for every asset. |
| Simulations.ExecutePhase | pfme/simulation.py:49-50 | The execute loop keeps the world's keys and changes neither unit values nor logs. |
| Simulations.RecordPhase | pfme/simulation.py:52-53 | The record loop changes only the logs. |
| Simulations.AdvancePhase | pfme/simulation.py:54-55 | The provider loop changes only the unit values. |
| Simulations.Step | pfme/simulation.py:44-55 | One year keeps the world's keys, so the world still fits the plan. |
| Simulations.InitialisationKeepsValues | pfme/simulation.py:41-42 | The NaN initialisation loop changes no unit value. |
| Simulations.AdvanceOnce | pfme/simulation.py:54-55 | With a distinct provider per asset, each listed asset's provider is updated exactly once by the increment, and no other object changes. |
| Simulations.RecordOnce | pfme/simulation.py:52-53 | With distinct metrics and no exception, each listed metric's log gains exactly one entry {year, calculate(portfolio)}, and other logs stay as they are. |
| Simulations.PfmeMetricsNeverRaise | pfme/simulation.py:52-53 | Metrics other than er_calc's FIReached never stop the record loop. |
| Simulations.StepEffects | pfme/simulation.py:44-55 | One year appends to each metric's log exactly one entry for that year. It is computed on the holdings after the strategies ran and the unit values before this year's update. Each provider advances once by the increment. |
| Simulations.StepAppendsOne | pfme/simulation.py:52-53 | One year appends exactly one entry, for that year, to each metric's log. |
| Simulations.StepsLogs | pfme/simulation.py:43-53 | Iterating such a step gives each log one entry per step, in year order. |
| Simulations.StepAdvancesOnce | pfme/simulation.py:54-55 | One year advances each provider once by the increment. |
| Simulations.CompoundedSnoc | pfme/simulation.py:54-55 | One more update by the same increment extends the compounding by one. |
| Simulations.StepsValues | pfme/simulation.py:43-55 | Iterating such a step advances a provider once per step. |
| Simulations.ZeroIncrementRaises | pfme/simulation.py:41-43 | A zero increment raises ZeroDivisionError after the initialisation loop and before any step. |
| Simulations.StepNeverRaises | pfme/simulation.py:26-55 | No year raises when every unit value is non-zero and no metric is er_calc's FIReached, because the portfolio covers exactly the assets the strategies request. |
| Simulations.RequestedAllMember | er_calc/strategy.py:28-33 | An asset of a concatenated request list comes from one of the strategies. |
| Simulations.StepsKeep | pfme/simulation.py:43-55 | Every world a run reaches keeps the keys of the first and fits the plan. |
| Simulations.StepsNext | pfme/simulation.py:43-55 | Step k + 1 of a run is one step on the world after k steps, at year start + k × increment. |
| Simulations.StepsStop | pfme/simulation.py:43-55 | Once a year has raised, the run is over. |
| Simulations.RunSpec | pfme/simulation.py:37-55 | No contract of its own. It defines run() on values: the NaN initialisation, then ZeroDivisionError for a zero increment, else the steps. Simulations.RunLogs, Simulations.RunValues, Simulations.ZeroIncrementRaises and Simulations.Simulation.Run relate it to the source's promises and to the heap. |
| Simulations.PricesAgree | er_calc/portfolio.py:58-59 | The unit values the portfolio reads from its providers are the ones the run's world records for those providers. |
| Simulations.RunLogs | pfme/simulation.py:37-55 | After a run without exception, each distinct metric's log ends with one entry per year of the range, in order, after what it held before. |
| Simulations.RunValues | pfme/simulation.py:37-55 | After a run without exception, each distinct provider's value is its old value updated once with NaN and then once per year of the range by the increment. |
| Simulations.RecordMetrics | pfme/simulation.py:52-53 | The heap logs hold what RecordAll gives, and the exception is the one RecordAll gives. |
| Simulations.AdvanceProviders | pfme/simulation.py:54-55 | Every provider's value becomes what AdvanceAll gives. A provider registered for two assets is updated twice. |
| Simulations.Simulation.constructor | pfme/simulation.py:18-24 | The configuration, metrics, strategies and selected providers are stored as given. |
| Simulations.Simulation.Create | pfme/simulation.py:18-35 | Succeeds exactly when every collected asset is registered; otherwise KeyError and no simulation. Its providers are the registered providers of exactly the collected assets. |
| Simulations.Simulation.ExecuteStrategies | pfme/simulation.py:49-50 | The heap ends in ExecutePhase's world, with ExecutePhase's exception. |
| Simulations.Simulation.RecordStep | pfme/simulation.py:52-53 | The heap ends in RecordPhase's world, with RecordPhase's exception. |
| Simulations.Simulation.AdvanceStep | pfme/simulation.py:54-55 | The heap ends in AdvancePhase's world. |
| Simulations.Simulation.StepAt | pfme/simulation.py:44-55 | The heap ends in Step's world, with Step's exception. |
| Simulations.Simulation.Start | pfme/simulation.py:38-42 | A fresh portfolio over the providers, then the NaN initialisation, gives AdvancePhase of the state before the run. |
| Simulations.Simulation.Run | pfme/simulation.py:37-55 | The exception raised, the providers' values, the clocks and the metric logs are those RunSpec gives for the objects' state before the run. |

## Left out

- `pow`: exponentiation is a parameter. Floating-point rounding, overflow and every other IEEE 754 detail are not modelled. Values are mathematical reals.
- `Strategies.FixedYearlyInvests`: a NaN increment (`None`) reaching a fixed yearly investment raises `NaNArithmetic` and changes nothing. Python, with the corrected call, raises nothing and stores NaN in the holding: `cash / value()` is NaN (`er_calc/portfolio.py:49-50`). Python raises first in three cases, and the model raises `NaNArithmetic` in each. An unpriced asset raises KeyError (`er_calc/portfolio.py:48`). A unit value of 0.0 raises ZeroDivisionError (`er_calc/portfolio.py:49`). An asset with no holding raises KeyError (`er_calc/portfolio.py:50`). Reals have no NaN.
- `StrategyProperties.FixedYearlyContract`: it states the same NaN refusal as `Strategies.FixedYearlyInvests`, and so differs from Python in the same way.
- `Strategies.Execution`: because `NaNArithmetic` is an exception, a NaN increment also stops `ExecutionAll` at the first fixed yearly leaf. Python runs every later child of a CombinedStrategy (`er_calc/strategy.py:36-37`). Both the model (`Strategies.NextElapsed`) and Python (`er_calc/strategy.py:57-58`) skip a NaN increment on a relative window's clock, so the clocks agree. A run never passes NaN to execute: `Plan.increment` is a real, and only the initialisation loop passes NaN, to `update_value` (`pfme/simulation.py:40-41`).
- `Assets.Advance`: two cases of Python's `**` are not modelled. With a growth rate of -1 and a negative increment, `0.0 ** increment` raises ZeroDivisionError (`er_calc/asset.py:50`, `pfme/asset.py:47`). With a growth rate below -1 and a non-integer increment, `**` yields a complex number. In both cases the model multiplies the value by whatever `pow` returns, and raises nothing.
- `Assets.ConstantGeomIncreaseAsset.UpdateValue`: it follows `Assets.Advance`, so the same two `**` cases are not modelled.
- np.arange: the k-th year is `start + k × increment`. numpy's accumulation of rounding error is not modelled. Neither is its handling of non-finite bounds.
- tqdm, the progress bar around the year loop, is left out. It changes no state.
- `Simulations.Step`: `pfme/simulation.py:46` and `:48` call `update_income` and `update_expenses` on every strategy. pfme/strategy.py is not part of this model. The model assumes that pfme's strategies define these hooks and that they do nothing, so income and expenses stay empty during a run. er_calc's `Strategy` (`er_calc/strategy.py:11-18`) defines neither hook, so pfme/simulation.py run on er_calc's strategies as they stand would raise AttributeError at the first year.
- pfme/portfolio.py and pfme/strategy.py are not part of this model. `er_calc/portfolio.py` and `er_calc/strategy.py` stand in for them.
- The tax, career and other strategies of the wider repository are not part of this model.
- `er_calc/simulation.py`, the configuration files and the command-line entry points are not modelled.
- `Simulations.SelectProviders`: the iteration order of Python's set is not specified, so the model picks any order. The model proves the result only up to that choice.
- `Simulations.CollectAssets`: `pfme/simulation.py:28` unions each strategy's `requested_assets()` into a set with `|=`, which needs a set. er_calc's strategies return lists (`er_calc/strategy.py:14`, `28-33`, `71-72`), and `set |= list` raises TypeError. The model assumes that pfme's strategies return sets, and it collects the set of the assets in each strategy's list.
- `Strategies.Execution`: a FixedYearlyInvestmentStrategy runs the corrected call, with the asset passed positionally (`Strategies.FixedYearly`). As written (`Strategies.FixedYearlyAsWritten`), every execute that reaches such a leaf raises TypeError and changes nothing. `Execute`, `ExecuteFixedYearly` and `ExecuteAll` follow `Execution`.
- `Simulations.Simulation.Run`: through `Strategies.Execution`, a run uses the corrected fixed yearly leaf. As written, a run aborts with TypeError at the first year in which a fixed yearly investment executes; the model's run carries on and buys the units.
- `Metrics.Metric.Record`: it takes the portfolio's `View` (Portfolio.Snapshot) instead of the object. `calculate` only reads the portfolio.
- `Simulations.Simulation.Run`: the portfolio is local to `run()`, so the contract states the shared objects a run changes: providers, clocks and logs.
- `Simulations.Simulation.Run`: running the same simulation twice shares providers, clocks and logs. The model describes a single call.
- `Simulations.StepOf`: its TypeError fallback for a world that does not fit the plan is never reached (StepsKeep). It exists only to make Step total.
- Strategy and metric class hierarchies are tagged unions. Subclasses defined outside the modelled files cannot be added.
- `Simulations.RecordOnce`, `Simulations.StepEffects`, `Simulations.RunLogs`: they require each metric object to appear once in the list. A repeated object would get several entries per year.
- `Simulations.AdvanceOnce`, `Simulations.StepEffects`, `Simulations.RunValues`: they require a distinct provider per asset. A shared provider is updated once per asset (AdvanceProviders states this case).
- `Simulations.StepNeverRaises`: it requires non-zero unit values. A zero unit value makes a cash purchase raise ZeroDivisionError (AddContract states this case).

## Findings

| source | as written | input that shows it | evidently intended | confidence | as-written member | corrected member |
|---|---|---|---|---|---|---|
| er_calc/strategy.py:75 | `add` is called with `asset=` as a keyword, but `er_calc/portfolio.py:37` makes `asset` positional-only, so Python raises TypeError | any FixedYearlyInvestmentStrategy executed on any portfolio | pass the asset positionally and add `amount * increment` in cash | not executed | Strategies.FixedYearlyAsWritten, StrategyProperties.FixedYearlyAsWrittenRaises | Strategies.FixedYearly, StrategyProperties.FixedYearlyContract |
| er_calc/metric.py:63 | FIReached compares with the unit value of `Asset.EXPENSES`, which the er_calc `Asset` enum (`er_calc/asset.py:9-11`) does not define, so calculate raises AttributeError | any er_calc FIReached metric recorded on any portfolio | compare with the total expenses, as `pfme/metric.py:60-64` does | not executed | Metrics.Calculate (kind ErCalcFIReached), Metrics.ErCalcFIReachedFails | Metrics.Calculate (kind FIReached), Metrics.FIReachedIff |
