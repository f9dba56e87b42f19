/** The simulation engine (pfme/simulation.py): asset collection and provider selection
    at construction, then a run that initialises the providers and steps over a
    half-open range of years, each step in the order income hooks, expense hooks,
    strategies, metric records, provider updates. */
module Simulations {
  import opened Wrappers
  import opened Assets
  import opened Portfolios
  import opened Strategies
  import opened Metrics
  import StrategyProperties

  type Provider = ConstantGeomIncreaseAsset

  /** SimulationConfig with its fields given explicitly (its defaults read today's date). */
  datatype Config = Config(metrics: seq<Metric>, strategies: seq<Strategy>, increment: real,
                           startYear: real, endYear: real, registry: map<Asset, Provider>)

  // ---------------------------------------------------------------------------
  // Construction

  /** The union of requested_assets() over the strategies. */
  function StrategyAssets(strategies: seq<Strategy>): set<Asset>
    decreases |strategies|
  {
    if strategies == [] then {}
    else
      var s := strategies[|strategies| - 1];
      StrategyAssets(strategies[..|strategies| - 1]) + set a | a in Strategies.RequestedAssets(s)
  }

  /** The union of requested_assets() over the metrics. */
  function MetricAssets(metrics: seq<Metric>): set<Asset>
    decreases |metrics|
  {
    if metrics == [] then {}
    else MetricAssets(metrics[..|metrics| - 1]) + Metrics.RequestedAssets(metrics[|metrics| - 1].kind)
  }

  /** An asset is collected exactly when some strategy requests it. */
  lemma {:induction false} StrategyAssetsMembers(strategies: seq<Strategy>, a: Asset)
    ensures a in StrategyAssets(strategies) <==>
            exists i :: 0 <= i < |strategies| && a in Strategies.RequestedAssets(strategies[i])
    decreases |strategies|
  {
    if strategies != [] {
      var init := strategies[..|strategies| - 1];
      StrategyAssetsMembers(init, a);
      if a in StrategyAssets(init) {
        var i :| 0 <= i < |init| && a in Strategies.RequestedAssets(init[i]);
        assert strategies[i] == init[i];
      }
      if exists i :: 0 <= i < |strategies| && a in Strategies.RequestedAssets(strategies[i]) {
        var i :| 0 <= i < |strategies| && a in Strategies.RequestedAssets(strategies[i]);
        if i < |init| {
          assert init[i] == strategies[i];
        }
      }
    }
  }

  /** No metric requests an asset. */
  lemma {:induction false} MetricAssetsEmpty(metrics: seq<Metric>)
    ensures MetricAssets(metrics) == {}
    decreases |metrics|
  {
    if metrics != [] {
      MetricAssetsEmpty(metrics[..|metrics| - 1]);
    }
  }

  /** The collection loops of Simulation.__init__. */
  method CollectAssets(strategies: seq<Strategy>, metrics: seq<Metric>) returns (collected: set<Asset>)
    ensures collected == StrategyAssets(strategies) + MetricAssets(metrics)
  {
    collected := {};
    var i := 0;
    while i < |strategies|
      invariant 0 <= i <= |strategies|
      invariant collected == StrategyAssets(strategies[..i])
    {
      assert strategies[..i + 1][..i] == strategies[..i];
      collected := collected + set a | a in Strategies.RequestedAssets(strategies[i]);
      i := i + 1;
    }
    assert strategies[..i] == strategies;
    var j := 0;
    while j < |metrics|
      invariant 0 <= j <= |metrics|
      invariant collected == StrategyAssets(strategies) + MetricAssets(metrics[..j])
    {
      assert metrics[..j + 1][..j] == metrics[..j];
      collected := collected + Metrics.RequestedAssets(metrics[j].kind);
      j := j + 1;
    }
    assert metrics[..j] == metrics;
  }

  /** The asset_providers comprehension: iterate over the collected set in some order
      (a set's iteration order is not specified) and look each asset up in the
      registry; the first unregistered asset raises KeyError. On success the keys are in
      iteration order and each asset maps to its registered provider. */
  method SelectProviders(collected: set<Asset>, registry: map<Asset, Provider>)
    returns (raised: Option<Error>, order: seq<Asset>, providers: map<Asset, Provider>)
    ensures raised.None? <==> collected <= registry.Keys
    ensures raised.Some? ==> raised == Some(KeyError)
    ensures raised.None? ==> IsKeyOrder(order, collected)
    ensures raised.None? ==> providers == map a | a in collected :: registry[a]
  {
    var remaining := collected;
    order, providers := [], map[];
    while remaining != {}
      invariant remaining <= collected
      invariant Distinct(order)
      invariant forall a :: a in order <==> a in collected && a !in remaining
      invariant forall a :: a in order ==> a in registry
      invariant providers == map a | a in order :: registry[a]
      decreases |remaining|
    {
      var a :| a in remaining;
      if a !in registry {
        raised := Some(KeyError);
        return;
      }
      forall i | 0 <= i < |order| ensures order[i] != a {
        assert order[i] in order;
      }
      order := order + [a];
      providers := providers[a := registry[a]];
      remaining := remaining - {a};
    }
    raised := None;
  }

  // ---------------------------------------------------------------------------
  // The year range

  /** ceil(x) */
  function Ceil(x: real): (c: int)
    ensures x <= c as real < x + 1.0
  {
    -((-x).Floor)
  }

  /** len(np.arange(start, end, increment)) for a non-zero increment. */
  function StepCount(start: real, end: real, increment: real): (n: nat)
    requires increment != 0.0
  {
    var c := Ceil((end - start) / increment);
    if c < 0 then 0 else c
  }

  /** The k-th element of np.arange(start, end, increment). */
  function Year(start: real, increment: real, k: nat): real
  {
    start + k as real * increment
  }

  /** The range is half-open: with a positive increment the steps are exactly the years
      start + k * increment strictly below the end, and with a negative increment those
      strictly above it. */
  lemma StepCountHalfOpen(start: real, end: real, increment: real, k: nat)
    requires increment != 0.0
    ensures 0.0 < increment ==> (k < StepCount(start, end, increment) <==> Year(start, increment, k) < end)
    ensures increment < 0.0 ==> (k < StepCount(start, end, increment) <==> Year(start, increment, k) > end)
  {
    var q := (end - start) / increment;
    assert q * increment == end - start;
    var c := Ceil(q);
    assert k < StepCount(start, end, increment) <==> k as real < q;
    if 0.0 < increment {
      assert k as real < q <==> k as real * increment < q * increment;
    } else {
      assert k as real < q <==> k as real * increment > q * increment;
    }
  }

  /** With a positive increment the years strictly increase. */
  lemma YearsIncrease(start: real, increment: real, j: nat, k: nat)
    requires 0.0 < increment && j < k
    ensures Year(start, increment, j) < Year(start, increment, k)
  {
    assert (k - j) as real * increment > 0.0;
    assert Year(start, increment, k) - Year(start, increment, j) == (k - j) as real * increment;
  }

  // ---------------------------------------------------------------------------
  // The state a run changes, and one phase at a time

  /** Everything a run changes: the portfolio's holdings, the unit value of every provider
      object, the elapsed time of every LimitedDurationStrategy, and the log of every metric
      object. Objects are keys, so a provider registered for two assets, a strategy
      appearing twice in a tree or a metric listed twice is one entry. */
  datatype World = World(holdings: map<Asset, real>, values: map<Provider, real>,
                         clocks: map<Clock, real>, logs: map<Metric, seq<Entry>>)

  /** What a run works on, fixed at construction. */
  datatype Plan = Plan(assets: seq<Asset>, providers: map<Asset, Provider>, strategies: seq<Strategy>,
                       metrics: seq<Metric>, start: real, end: real, increment: real)

  function MetricSet(metrics: seq<Metric>): set<Metric>
  {
    set m | m in metrics
  }

  /** No provider object is registered for two assets. */
  ghost predicate Injective(providers: map<Asset, Provider>)
  {
    forall a, b :: a in providers && b in providers && a != b ==> providers[a] != providers[b]
  }

  /** The world has an entry for everything the plan touches. */
  ghost predicate Fits(plan: Plan, w: World)
  {
    && (forall a :: a in plan.assets ==> a in plan.providers)
    && plan.providers.Values <= w.values.Keys
    && plan.providers.Keys <= w.holdings.Keys
    && ClocksAll(plan.strategies) <= w.clocks.Keys
    && MetricSet(plan.metrics) <= w.logs.Keys
  }

  /** Every provider's unit value, as asset_value_per_unit reads it. */
  function PricesFrom(providers: map<Asset, Provider>, values: map<Provider, real>): (prices: map<Asset, real>)
    requires providers.Values <= values.Keys
  {
    map a | a in providers :: values[providers[a]]
  }

  /** update_value(year, increment) on the provider of each asset, in key order. */
  function AdvanceAll(order: seq<Asset>, providers: map<Asset, Provider>, values: map<Provider, real>,
                      increment: Option<real>, pow: PowFn): (r: map<Provider, real>)
    requires forall a :: a in order ==> a in providers && providers[a] in values
    ensures r.Keys == values.Keys
    decreases |order|
  {
    if order == [] then values
    else
      var r := AdvanceAll(order[..|order| - 1], providers, values, increment, pow);
      var o := providers[order[|order| - 1]];
      r[o := Advance(r[o], o.growthRate, increment, pow)]
  }

  /** record(portfolio, year) on each metric in list order; the first exception stops
      the phase. */
  function RecordAll(metrics: seq<Metric>, logs: map<Metric, seq<Entry>>, v: View, year: real)
    : (r: Attempt<map<Metric, seq<Entry>>>)
    requires v.Covers() && MetricSet(metrics) <= logs.Keys
    ensures r.state.Keys == logs.Keys
    decreases |metrics|
  {
    if metrics == [] then Attempt(logs, None)
    else
      var r := RecordAll(metrics[..|metrics| - 1], logs, v, year);
      var m := metrics[|metrics| - 1];
      if r.raised.Some? then r else RecordOne(m, r.state, v, year)
  }

  /** record(portfolio, year) on one metric: append {year, calculate(portfolio)}, or
      raise what calculate raises. */
  function RecordOne(m: Metric, logs: map<Metric, seq<Entry>>, v: View, year: real)
    : (r: Attempt<map<Metric, seq<Entry>>>)
    requires v.Covers() && m in logs
    ensures r.state.Keys == logs.Keys
  {
    match Calculate(m.kind, v)
    case Ok(value) => Attempt(logs[m := logs[m] + [Entry(year, value)]], None)
    case Err(e) => Attempt(logs, Some(e))
  }

  /** Recording one more metric. */
  lemma RecordAllSnoc(metrics: seq<Metric>, i: nat, logs: map<Metric, seq<Entry>>, v: View, year: real)
    requires i < |metrics| && v.Covers() && MetricSet(metrics) <= logs.Keys
    ensures MetricSet(metrics[..i]) <= logs.Keys && MetricSet(metrics[..i + 1]) <= logs.Keys
    ensures var r := RecordAll(metrics[..i], logs, v, year);
            RecordAll(metrics[..i + 1], logs, v, year)
            == if r.raised.Some? then r else RecordOne(metrics[i], r.state, v, year)
  {
    assert metrics[..i + 1][..i] == metrics[..i];
    assert MetricSet(metrics[..i + 1]) <= MetricSet(metrics);
  }

  /** The portfolio as the metrics see it: income and expenses are untouched by every
      modelled strategy, so they stay empty. */
  function ViewOf(plan: Plan, w: World): (v: View)
    requires Fits(plan, w)
    ensures v.Covers()
  {
    View(plan.assets, w.holdings, PricesFrom(plan.providers, w.values), [], [])
  }

  /** The execute loop of a step: every strategy in list order, at the unit values
      before this step's update. */
  function ExecutePhase(plan: Plan, w: World, year: real): (r: Attempt<World>)
    requires Fits(plan, w)
    ensures Keeps(plan, w, r.state) && r.state.values == w.values && r.state.logs == w.logs
  {
    var ex := ExecutionAll(plan.strategies, State(w.holdings, w.clocks), PricesFrom(plan.providers, w.values),
                           year, Some(plan.increment));
    Attempt(w.(holdings := ex.state.holdings, clocks := ex.state.clocks), ex.raised)
  }

  /** The record loop of a step: every metric in list order. */
  function RecordPhase(plan: Plan, w: World, year: real): (r: Attempt<World>)
    requires Fits(plan, w)
    ensures Keeps(plan, w, r.state) && r.state == w.(logs := r.state.logs)
  {
    var rec := RecordAll(plan.metrics, w.logs, ViewOf(plan, w), year);
    Attempt(w.(logs := rec.state), rec.raised)
  }

  /** The provider loop: every asset's provider, in key order. */
  function AdvancePhase(plan: Plan, w: World, increment: Option<real>, pow: PowFn): (r: World)
    requires Fits(plan, w)
    ensures Keeps(plan, w, r) && r == w.(values := r.values)
  {
    w.(values := AdvanceAll(plan.assets, plan.providers, w.values, increment, pow))
  }

  /** One step at `year`: the income and expense hooks do nothing; then every strategy's
      execute, then every metric's record (which sees the unit values before this step's
      update), then every provider's update_value. An exception ends the step where it
      is raised. */
  function Step(plan: Plan, w: World, year: real, pow: PowFn): (r: Attempt<World>)
    requires Fits(plan, w)
    ensures Keeps(plan, w, r.state)
  {
    var ex := ExecutePhase(plan, w, year);
    if ex.raised.Some? then ex
    else
      var rec := RecordPhase(plan, ex.state, year);
      if rec.raised.Some? then rec
      else Attempt(AdvancePhase(plan, rec.state, Some(plan.increment), pow), None)
  }

  /** What one step keeps: the world still fits the plan, with the same keys. */
  ghost predicate Keeps(plan: Plan, w: World, w': World)
  {
    && Fits(plan, w')
    && w'.holdings.Keys == w.holdings.Keys && w'.values.Keys == w.values.Keys
    && w'.clocks.Keys == w.clocks.Keys && w'.logs.Keys == w.logs.Keys
  }

  /** Step as a function value. Iterating it through a parameter keeps the lemmas about
      many steps apart from the body of one step. Every world a run reaches fits the
      plan (StepsKeep), so the TypeError of a world that does not is never produced. */
  ghost function StepOf(plan: Plan, pow: PowFn): (World, real) -> Attempt<World>
  {
    (w: World, year: real) => if Fits(plan, w) then Step(plan, w, year, pow) else Attempt(w, Some(TypeError))
  }

  /** The first n steps, years start, start + increment, ...; the first exception ends
      the run. */
  ghost function Steps(plan: Plan, step: (World, real) -> Attempt<World>, w: World, n: nat)
    : Attempt<World>
    decreases n
  {
    if n == 0 then Attempt(w, None)
    else
      var r := Steps(plan, step, w, n - 1);
      if r.raised.Some? then r
      else step(r.state, Year(plan.start, plan.increment, n - 1))
  }

  /** run(): every provider's update_value(start_year, NaN), then the steps; a zero
      increment makes np.arange raise ZeroDivisionError after the initialisation. */
  ghost function RunSpec(plan: Plan, w: World, pow: PowFn): (r: Attempt<World>)
    requires Fits(plan, w)
  {
    var init := AdvancePhase(plan, w, None, pow);
    if plan.increment == 0.0 then Attempt(init, Some(ZeroDivisionError))
    else Steps(plan, StepOf(plan, pow), init, StepCount(plan.start, plan.end, plan.increment))
  }

  // ---------------------------------------------------------------------------
  // Properties of a run

  /** Initialising with a NaN increment changes no unit value. */
  lemma {:induction false} InitialisationKeepsValues(order: seq<Asset>, providers: map<Asset, Provider>,
                                                     values: map<Provider, real>, pow: PowFn)
    requires forall a :: a in order ==> a in providers && providers[a] in values
    ensures AdvanceAll(order, providers, values, None, pow) == values
    decreases |order|
  {
    if order != [] {
      InitialisationKeepsValues(order[..|order| - 1], providers, values, pow);
    }
  }

  /** With a distinct provider object per asset, the advance phase applies update_value
      exactly once to the provider of each listed asset and to no other object. */
  lemma {:induction false} AdvanceOnce(order: seq<Asset>, providers: map<Asset, Provider>,
                                       values: map<Provider, real>, increment: Option<real>,
                                       pow: PowFn, o: Provider)
    requires forall a :: a in order ==> a in providers && providers[a] in values
    requires Distinct(order)
    requires Injective(providers)
    requires o in values
    ensures AdvanceAll(order, providers, values, increment, pow)[o]
            == if exists a :: a in order && providers[a] == o
               then Advance(values[o], o.growthRate, increment, pow)
               else values[o]
    decreases |order|
  {
    if order != [] {
      var init, last := order[..|order| - 1], order[|order| - 1];
      DistinctInit(order);
      AdvanceOnce(init, providers, values, increment, pow, o);
    }
  }

  /** With distinct metric objects, recording appends exactly one entry {year,
      calculate(portfolio)} to each metric's log, and nothing to other logs, unless a
      metric raises. */
  lemma {:induction false} RecordOnce(metrics: seq<Metric>, logs: map<Metric, seq<Entry>>, v: View,
                                      year: real, m: Metric)
    requires v.Covers() && MetricSet(metrics) <= logs.Keys
    requires Distinct(metrics) && m in logs
    requires RecordAll(metrics, logs, v, year).raised.None?
    ensures m in metrics ==> Calculate(m.kind, v).Ok?
    ensures RecordAll(metrics, logs, v, year).state[m]
            == if m in metrics then logs[m] + [Entry(year, Calculate(m.kind, v).value)] else logs[m]
    decreases |metrics|
  {
    if metrics != [] {
      var init, last := metrics[..|metrics| - 1], metrics[|metrics| - 1];
      DistinctInit(metrics);
      assert MetricSet(init) <= MetricSet(metrics);
      RecordOnce(init, logs, v, year, m);
    }
  }

  /** Metrics that cannot fail never stop the record phase. */
  lemma {:induction false} PfmeMetricsNeverRaise(metrics: seq<Metric>, logs: map<Metric, seq<Entry>>,
                                                 v: View, year: real)
    requires v.Covers() && MetricSet(metrics) <= logs.Keys
    requires forall i :: 0 <= i < |metrics| ==> !metrics[i].kind.ErCalcFIReached?
    ensures RecordAll(metrics, logs, v, year).raised.None?
    decreases |metrics|
  {
    if metrics != [] {
      var init := metrics[..|metrics| - 1];
      assert MetricSet(init) <= MetricSet(metrics);
      PfmeMetricsNeverRaise(init, logs, v, year);
    }
  }

  /** One step appends to each (distinct) metric's log exactly one entry, for this step's
      year, computed on the holdings after the strategies ran and the unit values before
      the providers advance; each (distinct) provider advances once by the increment. */
  lemma StepEffects(plan: Plan, w: World, year: real, pow: PowFn, m: Metric, o: Provider)
    requires Fits(plan, w) && Step(plan, w, year, pow).raised.None?
    requires Distinct(plan.metrics) && m in plan.metrics
    requires Distinct(plan.assets)
    requires Injective(plan.providers)
    requires IsKeyOrder(plan.assets, plan.providers.Keys) && o in plan.providers.Values
    ensures var ex := ExecutionAll(plan.strategies, State(w.holdings, w.clocks),
                                   PricesFrom(plan.providers, w.values), year, Some(plan.increment));
            var seen := View(plan.assets, ex.state.holdings, PricesFrom(plan.providers, w.values), [], []);
            && Calculate(m.kind, seen).Ok?
            && Step(plan, w, year, pow).state.logs[m] == w.logs[m] + [Entry(year, Calculate(m.kind, seen).value)]
    ensures Step(plan, w, year, pow).state.values[o] == Advance(w.values[o], o.growthRate, Some(plan.increment), pow)
  {
    var prices := PricesFrom(plan.providers, w.values);
    var ex := ExecutionAll(plan.strategies, State(w.holdings, w.clocks), prices, year, Some(plan.increment));
    var w1 := w.(holdings := ex.state.holdings, clocks := ex.state.clocks);
    assert PricesFrom(plan.providers, w1.values) == prices;
    RecordOnce(plan.metrics, w1.logs, ViewOf(plan, w1), year, m);
    var w2 := w1.(logs := RecordAll(plan.metrics, w1.logs, ViewOf(plan, w1), year).state);
    AdvanceOnce(plan.assets, plan.providers, w2.values, Some(plan.increment), pow, o);
    var a :| a in plan.providers && plan.providers[a] == o;
    assert a in plan.assets;
  }

  /** The grow-by-one part of StepEffects, for the induction over steps. */
  lemma StepAppendsOne(plan: Plan, w: World, year: real, pow: PowFn, m: Metric)
    requires Fits(plan, w) && Step(plan, w, year, pow).raised.None?
    requires Distinct(plan.metrics) && m in plan.metrics
    ensures AppendsOne(w.logs[m], Step(plan, w, year, pow).state.logs[m], year)
  {
    var prices := PricesFrom(plan.providers, w.values);
    var ex := ExecutionAll(plan.strategies, State(w.holdings, w.clocks), prices, year, Some(plan.increment));
    var w1 := w.(holdings := ex.state.holdings, clocks := ex.state.clocks);
    RecordOnce(plan.metrics, w1.logs, ViewOf(plan, w1), year, m);
  }

  /** Iterating a step that appends one entry per step to a log, for the step's year,
      makes the log grow by one entry per step, in year order. */
  lemma {:induction false} StepsLogs(plan: Plan, step: (World, real) -> Attempt<World>, w: World,
                                     n: nat, m: Metric)
    requires m in w.logs
    requires forall w': World, year: real :: m in w'.logs ==>
               && m in step(w', year).state.logs
               && (step(w', year).raised.None? ==> AppendsOne(w'.logs[m], step(w', year).state.logs[m], year))
    ensures m in Steps(plan, step, w, n).state.logs
    ensures Steps(plan, step, w, n).raised.None? ==>
              LogOfSteps(w.logs[m], Steps(plan, step, w, n).state.logs[m], plan.start, plan.increment, n)
    decreases n
  {
    if n > 0 {
      var r := Steps(plan, step, w, n - 1);
      StepsLogs(plan, step, w, n - 1, m);
      if r.raised.None? {
        var next := step(r.state, Year(plan.start, plan.increment, n - 1));
        assert allocated(r.state);  // the hypothesis is about allocated worlds
        if next.raised.None? {
          LogOfStepsExtend(w.logs[m], r.state.logs[m], next.state.logs[m], plan.start, plan.increment, n - 1);
        }
      }
    }
  }

  /** `log` is `before` with one entry for `year` appended. */
  ghost predicate AppendsOne(before: seq<Entry>, log: seq<Entry>, year: real)
  {
    |log| == |before| + 1 && log[..|before|] == before && log[|before|].year == year
  }

  /** `log` is `log0` followed by n entries for the years of steps 0 .. n - 1. */
  ghost predicate LogOfSteps(log0: seq<Entry>, log: seq<Entry>, start: real, increment: real, n: nat)
  {
    && |log| == |log0| + n
    && log[..|log0|] == log0
    && forall k :: 0 <= k < n ==> log[|log0| + k].year == Year(start, increment, k)
  }

  lemma LogOfStepsExtend(log0: seq<Entry>, before: seq<Entry>, log: seq<Entry>, start: real,
                         increment: real, n: nat)
    requires LogOfSteps(log0, before, start, increment, n)
    requires AppendsOne(before, log, Year(start, increment, n))
    ensures LogOfSteps(log0, log, start, increment, n + 1)
  {
    assert log[..|log0|] == before[..|log0|];
    forall k | 0 <= k < n + 1 ensures log[|log0| + k].year == Year(start, increment, k) {
      if k < n {
        assert log[|log0| + k] == before[|log0| + k];
      }
    }
  }

  /** The advance part of StepEffects, for the induction over steps. */
  lemma StepAdvancesOnce(plan: Plan, w: World, year: real, pow: PowFn, o: Provider)
    requires Fits(plan, w) && Step(plan, w, year, pow).raised.None?
    requires Distinct(plan.assets) && Injective(plan.providers)
    requires IsKeyOrder(plan.assets, plan.providers.Keys) && o in plan.providers.Values
    ensures Step(plan, w, year, pow).state.values[o] == Advance(w.values[o], o.growthRate, Some(plan.increment), pow)
  {
    var prices := PricesFrom(plan.providers, w.values);
    var ex := ExecutionAll(plan.strategies, State(w.holdings, w.clocks), prices, year, Some(plan.increment));
    var w1 := w.(holdings := ex.state.holdings, clocks := ex.state.clocks);
    var w2 := w1.(logs := RecordAll(plan.metrics, w1.logs, ViewOf(plan, w1), year).state);
    AdvanceOnce(plan.assets, plan.providers, w2.values, Some(plan.increment), pow, o);
    var a :| a in plan.providers && plan.providers[a] == o;
    assert a in plan.assets;
  }

  /** One more update by the same increment. */
  lemma CompoundedSnoc(v: real, growthRate: real, d: real, n: nat, pow: PowFn)
    ensures Compounded(v, growthRate, seq(n + 1, _ => Some(d)), pow)
         == Advance(Compounded(v, growthRate, seq(n, _ => Some(d)), pow), growthRate, Some(d), pow)
  {
    assert seq(n + 1, _ => Some(d))[..n] == seq(n, _ => Some(d));
  }

  /** Iterating a step that advances a provider once by the increment advances it once
      per step. */
  lemma {:induction false} StepsValues(plan: Plan, step: (World, real) -> Attempt<World>, w: World,
                                       n: nat, pow: PowFn, o: Provider)
    requires o in w.values
    requires forall w': World, year: real :: o in w'.values ==>
               && o in step(w', year).state.values
               && (step(w', year).raised.None? ==>
                     step(w', year).state.values[o] == Advance(w'.values[o], o.growthRate, Some(plan.increment), pow))
    ensures o in Steps(plan, step, w, n).state.values
    ensures Steps(plan, step, w, n).raised.None? ==>
              Steps(plan, step, w, n).state.values[o]
              == Compounded(w.values[o], o.growthRate, seq(n, _ => Some(plan.increment)), pow)
    decreases n
  {
    if n > 0 {
      var r := Steps(plan, step, w, n - 1);
      StepsValues(plan, step, w, n - 1, pow, o);
      assert allocated(r.state);  // the hypothesis is about allocated worlds
      CompoundedSnoc(w.values[o], o.growthRate, plan.increment, n - 1, pow);
    }
  }

  /** A zero increment stops the run with ZeroDivisionError before any step. */
  lemma ZeroIncrementRaises(plan: Plan, w: World, pow: PowFn)
    requires Fits(plan, w) && plan.increment == 0.0
    requires forall a :: a in plan.providers ==> a in plan.assets
    ensures RunSpec(plan, w, pow).raised == Some(ZeroDivisionError)
    ensures RunSpec(plan, w, pow).state == w
  {
    InitialisationKeepsValues(plan.assets, plan.providers, w.values, pow);
  }

  /** The portfolio is built over exactly the assets the strategies request, so when
      every unit value is non-zero and no metric is er_calc's FIReached, no step raises. */
  lemma StepNeverRaises(plan: Plan, w: World, year: real, pow: PowFn)
    requires Fits(plan, w)
    requires StrategyAssets(plan.strategies) <= plan.providers.Keys
    requires forall a :: a in plan.providers ==> w.values[plan.providers[a]] != 0.0
    requires forall i :: 0 <= i < |plan.metrics| ==> !plan.metrics[i].kind.ErCalcFIReached?
    ensures Step(plan, w, year, pow).raised.None?
  {
    var prices := PricesFrom(plan.providers, w.values);
    forall a | a in RequestedAll(plan.strategies)
      ensures a in w.holdings && a in prices && prices[a] != 0.0
    {
      RequestedAllMember(plan.strategies, a);
      var i :| 0 <= i < |plan.strategies| && a in Strategies.RequestedAssets(plan.strategies[i]);
      StrategyAssetsMembers(plan.strategies, a);
    }
    StrategyProperties.RequestedAllCoversExecution(plan.strategies, State(w.holdings, w.clocks), prices,
                                                   year, Some(plan.increment));
    var ex := ExecutionAll(plan.strategies, State(w.holdings, w.clocks), prices, year, Some(plan.increment));
    var w1 := w.(holdings := ex.state.holdings, clocks := ex.state.clocks);
    PfmeMetricsNeverRaise(plan.metrics, w1.logs, ViewOf(plan, w1), year);
  }

  /** An asset of the concatenated request list comes from one of the strategies. */
  lemma {:induction false} RequestedAllMember(strategies: seq<Strategy>, a: Asset)
    requires a in RequestedAll(strategies)
    ensures exists i :: 0 <= i < |strategies| && a in Strategies.RequestedAssets(strategies[i])
    decreases |strategies|
  {
    var init := strategies[..|strategies| - 1];
    if a in RequestedAll(init) {
      RequestedAllMember(init, a);
      var i :| 0 <= i < |init| && a in Strategies.RequestedAssets(init[i]);
      assert strategies[i] == init[i];
    } else {
      assert a in Strategies.RequestedAssets(strategies[|strategies| - 1]);
    }
  }

  /** Every world a run reaches fits the plan and has the keys of the first. */
  lemma {:induction false} StepsKeep(plan: Plan, w: World, n: nat, pow: PowFn)
    requires Fits(plan, w)
    ensures Keeps(plan, w, Steps(plan, StepOf(plan, pow), w, n).state)
    decreases n
  {
    if n > 0 {
      StepsKeep(plan, w, n - 1, pow);
      var prev := Steps(plan, StepOf(plan, pow), w, n - 1);
      if prev.raised.None? {
        var year := Year(plan.start, plan.increment, n - 1);
        assert StepOf(plan, pow)(prev.state, year) == Step(plan, prev.state, year, pow);
        assert Steps(plan, StepOf(plan, pow), w, n) == Step(plan, prev.state, year, pow);
      }
    }
  }

  /** Step, as StepOf, meets the hypothesis of StepsLogs for every listed metric. */
  lemma StepOfAppends(plan: Plan, pow: PowFn, m: Metric)
    requires Distinct(plan.metrics) && m in plan.metrics
    ensures forall w': World, year: real :: m in w'.logs ==>
              && m in StepOf(plan, pow)(w', year).state.logs
              && (StepOf(plan, pow)(w', year).raised.None? ==>
                    AppendsOne(w'.logs[m], StepOf(plan, pow)(w', year).state.logs[m], year))
  {
    forall w': World, year: real | m in w'.logs
      ensures && m in StepOf(plan, pow)(w', year).state.logs
              && (StepOf(plan, pow)(w', year).raised.None? ==>
                    AppendsOne(w'.logs[m], StepOf(plan, pow)(w', year).state.logs[m], year))
    {
      if Fits(plan, w') && Step(plan, w', year, pow).raised.None? {
        StepAppendsOne(plan, w', year, pow, m);
      }
    }
  }

  /** Step, as StepOf, meets the hypothesis of StepsValues for every provider. */
  lemma StepOfAdvances(plan: Plan, pow: PowFn, o: Provider)
    requires Distinct(plan.assets) && Injective(plan.providers)
    requires IsKeyOrder(plan.assets, plan.providers.Keys) && o in plan.providers.Values
    ensures forall w': World, year: real :: o in w'.values ==>
              && o in StepOf(plan, pow)(w', year).state.values
              && (StepOf(plan, pow)(w', year).raised.None? ==>
                    StepOf(plan, pow)(w', year).state.values[o]
                    == Advance(w'.values[o], o.growthRate, Some(plan.increment), pow))
  {
    forall w': World, year: real | o in w'.values
      ensures && o in StepOf(plan, pow)(w', year).state.values
              && (StepOf(plan, pow)(w', year).raised.None? ==>
                    StepOf(plan, pow)(w', year).state.values[o]
                    == Advance(w'.values[o], o.growthRate, Some(plan.increment), pow))
    {
      if Fits(plan, w') && Step(plan, w', year, pow).raised.None? {
        StepAdvancesOnce(plan, w', year, pow, o);
      }
    }
  }

  /** After a run without exception each (distinct) metric holds one entry per year of
      the range, in order, after the entries it had before. */
  lemma RunLogs(plan: Plan, w: World, pow: PowFn, m: Metric)
    requires Fits(plan, w) && plan.increment != 0.0
    requires Distinct(plan.metrics) && m in plan.metrics
    requires RunSpec(plan, w, pow).raised.None?
    ensures LogOfSteps(w.logs[m], RunSpec(plan, w, pow).state.logs[m], plan.start, plan.increment,
                       StepCount(plan.start, plan.end, plan.increment))
  {
    var init := AdvancePhase(plan, w, None, pow);
    StepOfAppends(plan, pow, m);
    StepsLogs(plan, StepOf(plan, pow), init, StepCount(plan.start, plan.end, plan.increment), m);
  }

  /** After a run without exception each (distinct) provider's value is its value before
      the run, updated once with NaN and then once per year of the range by the
      increment. */
  lemma RunValues(plan: Plan, w: World, pow: PowFn, o: Provider)
    requires Fits(plan, w) && plan.increment != 0.0
    requires Distinct(plan.assets) && Injective(plan.providers)
    requires IsKeyOrder(plan.assets, plan.providers.Keys) && o in plan.providers.Values
    requires RunSpec(plan, w, pow).raised.None?
    ensures RunSpec(plan, w, pow).state.values[o]
            == Compounded(w.values[o], o.growthRate,
                          [None] + seq(StepCount(plan.start, plan.end, plan.increment), _ => Some(plan.increment)), pow)
  {
    var n := StepCount(plan.start, plan.end, plan.increment);
    var init := AdvancePhase(plan, w, None, pow);
    InitialisationKeepsValues(plan.assets, plan.providers, w.values, pow);
    StepOfAdvances(plan, pow, o);
    StepsValues(plan, StepOf(plan, pow), init, n, pow, o);
    NaNFirstIsNoOp(w.values[o], o.growthRate, seq(n, _ => Some(plan.increment)), pow);
  }

  // ---------------------------------------------------------------------------
  // The engine on the heap

  /** The shared objects a run changes hold the unit values, elapsed times and logs
      of `w`. */
  ghost predicate Holds(w: World)
    reads w.values.Keys, w.clocks.Keys, w.logs.Keys
  {
    HoldsValues(w.values) && HoldsClocks(w.clocks) && HoldsLogs(w.logs)
  }

  ghost predicate HoldsValues(values: map<Provider, real>)
    reads values.Keys
  {
    forall o :: o in values ==> o.value == values[o]
  }

  ghost predicate HoldsLogs(logs: map<Metric, seq<Entry>>)
    reads logs.Keys
  {
    forall m :: m in logs ==> m.values == logs[m]
  }

  /** The unit values the portfolio reads are those of the world that the heap holds. */
  lemma PricesAgree(providers: map<Asset, Provider>, values: map<Provider, real>)
    requires providers.Values <= values.Keys && HoldsValues(values)
    ensures PricesOf(providers) == PricesFrom(providers, values)
  {
  }

  /** A record phase that stopped at metric k stops the whole phase. */
  lemma {:induction false} RecordAllStops(metrics: seq<Metric>, k: nat, logs: map<Metric, seq<Entry>>, v: View,
                                          year: real)
    requires k <= |metrics| && v.Covers() && MetricSet(metrics) <= logs.Keys
    requires RecordAll(metrics[..k], logs, v, year).raised.Some?
    ensures RecordAll(metrics, logs, v, year) == RecordAll(metrics[..k], logs, v, year)
    decreases |metrics| - k
  {
    assert MetricSet(metrics[..k]) <= MetricSet(metrics);
    if k < |metrics| {
      assert metrics[..k + 1][..k] == metrics[..k];
      assert MetricSet(metrics[..k + 1]) <= MetricSet(metrics);
      RecordAllStops(metrics, k + 1, logs, v, year);
    } else {
      assert metrics[..k] == metrics;
    }
  }

  /** The record loop of a step: metric.record(portfolio, year) for each metric in list
      order, stopping at the first exception. */
  method RecordMetrics(metrics: seq<Metric>, v: View, year: real, ghost logs: map<Metric, seq<Entry>>)
    returns (raised: Option<Error>)
    requires v.Covers() && MetricSet(metrics) <= logs.Keys && HoldsLogs(logs)
    modifies MetricSet(metrics)
    ensures var r := RecordAll(metrics, logs, v, year);
            raised == r.raised && HoldsLogs(r.state)
  {
    raised := None;
    var i := 0;
    while i < |metrics|
      invariant 0 <= i <= |metrics| && raised.None?
      invariant MetricSet(metrics[..i]) <= logs.Keys
      invariant var r := RecordAll(metrics[..i], logs, v, year);
                r.raised.None? && HoldsLogs(r.state)
    {
      RecordAllSnoc(metrics, i, logs, v, year);
      raised := metrics[i].Record(v, year);
      if raised.Some? {
        RecordAllStops(metrics, i + 1, logs, v, year);
        return;
      }
      i := i + 1;
    }
    assert metrics[..i] == metrics;
  }

  /** The provider loop: update_value(year, increment) on the provider of each asset, in
      key order. A provider registered for two assets is updated twice. */
  method AdvanceProviders(order: seq<Asset>, providers: map<Asset, Provider>, year: real,
                          increment: Option<real>, pow: PowFn, ghost values: map<Provider, real>)
    requires forall a :: a in order ==> a in providers && providers[a] in values
    requires providers.Values <= values.Keys
    requires forall o :: o in values ==> o.value == values[o]
    modifies providers.Values
    ensures var r := AdvanceAll(order, providers, values, increment, pow);
            forall o :: o in values ==> o.value == r[o]
  {
    var i := 0;
    while i < |order|
      invariant 0 <= i <= |order|
      invariant var r := AdvanceAll(order[..i], providers, values, increment, pow);
                forall o :: o in values ==> o.value == r[o]
    {
      assert order[..i + 1][..i] == order[..i];
      providers[order[i]].UpdateValue(year, increment, pow);
      i := i + 1;
    }
    assert order[..i] == order;
  }

  /** A Simulation: its configuration, the metrics and strategies taken from it, and
      asset_providers as a key order with a map. */
  class Simulation {
    const config: Config
    const metrics: seq<Metric>
    const strategies: seq<Strategy>
    const assets: seq<Asset>
    const providers: map<Asset, Provider>

    /** The run-time data of this simulation. */
    function PlanOf(): (plan: Plan)
    {
      Plan(assets, providers, strategies, metrics, config.startYear, config.endYear, config.increment)
    }

    /** The shared objects a run reads and changes, as they are now; the portfolio is
        the fresh one run() builds. */
    ghost function Observed(): (w: World)
      reads providers.Values, ClocksAll(strategies), MetricSet(metrics)
      requires IsKeyOrder(assets, providers.Keys)
      ensures Fits(PlanOf(), w) && Holds(w)
    {
      World(map a | a in providers :: 0.0, map o | o in providers.Values :: o.value,
            map c | c in ClocksAll(strategies) :: c.elapsed, map m | m in MetricSet(metrics) :: m.values)
    }

    /** The attribute assignments of __init__, once the providers are selected. */
    constructor (config: Config, assets: seq<Asset>, providers: map<Asset, Provider>)
      requires IsKeyOrder(assets, providers.Keys)
      ensures this.config == config && metrics == config.metrics && strategies == config.strategies
      ensures this.assets == assets && this.providers == providers
    {
      this.config := config;
      metrics := config.metrics;
      strategies := config.strategies;
      this.assets := assets;
      this.providers := providers;
    }

    /** Simulation(config): collect the requested assets, then select their providers;
        an unregistered asset raises KeyError and no simulation is built. */
    static method Create(config: Config) returns (raised: Option<Error>, sim: Simulation?)
      ensures var collected := StrategyAssets(config.strategies) + MetricAssets(config.metrics);
              && (raised.None? <==> collected <= config.registry.Keys)
              && (raised.Some? ==> raised == Some(KeyError) && sim == null)
              && (raised.None? ==>
                    && sim != null && fresh(sim) && sim.config == config
                    && sim.metrics == config.metrics && sim.strategies == config.strategies
                    && IsKeyOrder(sim.assets, collected)
                    && sim.providers == map a | a in collected :: config.registry[a])
    {
      var collected := CollectAssets(config.strategies, config.metrics);
      var order, providers;
      raised, order, providers := SelectProviders(collected, config.registry);
      if raised.Some? {
        sim := null;
        return;
      }
      sim := new Simulation(config, order, providers);
    }

    /** `w` has an entry for exactly the objects this simulation works on. */
    ghost predicate Shaped(w: World)
    {
      && Fits(PlanOf(), w)
      && w.values.Keys == providers.Values && w.clocks.Keys == ClocksAll(strategies)
      && w.logs.Keys == MetricSet(metrics)
    }

    /** The heap is in the state `w`, with `p` the run's portfolio. */
    ghost predicate Mirrors(p: Portfolio, w: World)
      reads p, w.values.Keys, w.clocks.Keys, w.logs.Keys
    {
      && Holds(w)
      && p.Valid() && p.assets == assets && p.providers == providers
      && p.holdings == w.holdings && p.income == [] && p.expenses == []
    }

    /** The execute loop of one step. */
    method ExecuteStrategies(p: Portfolio, year: real, ghost w: World) returns (raised: Option<Error>)
      requires Shaped(w) && Mirrors(p, w)
      modifies p, ClocksAll(strategies)
      ensures var r := ExecutePhase(PlanOf(), w, year);
              raised == r.raised && Mirrors(p, r.state)
    {
      ghost var prices := PricesOf(p.providers);
      PricesAgree(providers, w.values);
      ghost var ex := ExecutionAll(strategies, State(w.holdings, w.clocks), prices, year, Some(config.increment));
      assert ExecutePhase(PlanOf(), w, year) == Attempt(w.(holdings := ex.state.holdings, clocks := ex.state.clocks), ex.raised);
      raised := ExecuteAll(strategies, p, year, Some(config.increment), w.clocks);
      assert PricesOf(p.providers) == prices;
    }

    /** The record loop of one step. */
    method RecordStep(p: Portfolio, year: real, ghost w: World) returns (raised: Option<Error>)
      requires Shaped(w) && Mirrors(p, w)
      modifies MetricSet(metrics)
      ensures var r := RecordPhase(PlanOf(), w, year);
              raised == r.raised && Mirrors(p, r.state)
    {
      PricesAgree(providers, w.values);
      var v := p.Snapshot();
      assert v == ViewOf(PlanOf(), w);
      ghost var rec := RecordAll(metrics, w.logs, v, year);
      assert RecordPhase(PlanOf(), w, year) == Attempt(w.(logs := rec.state), rec.raised);
      label pre:
      raised := RecordMetrics(metrics, v, year, w.logs);
      assert unchanged@pre(p) && unchanged@pre(w.values.Keys) && unchanged@pre(w.clocks.Keys);
      assert HoldsValues(w.values) && HoldsClocks(w.clocks);
    }

    /** The provider loop of one step, or of the initialisation. */
    method AdvanceStep(p: Portfolio, year: real, increment: Option<real>, pow: PowFn, ghost w: World)
      requires Shaped(w) && Mirrors(p, w)
      modifies providers.Values
      ensures Mirrors(p, AdvancePhase(PlanOf(), w, increment, pow))
    {
      AdvanceProviders(assets, providers, year, increment, pow, w.values);
    }

    /** One iteration of run's year loop: the income and expense hooks (no modelled
        strategy defines them), every strategy's execute, every metric's record, every
        provider's update_value. */
    method StepAt(p: Portfolio, year: real, pow: PowFn, ghost w: World) returns (raised: Option<Error>)
      requires Shaped(w) && Mirrors(p, w)
      modifies p, providers.Values, ClocksAll(strategies), MetricSet(metrics)
      ensures var r := Step(PlanOf(), w, year, pow);
              raised == r.raised && Mirrors(p, r.state)
    {
      ghost var plan := PlanOf();
      raised := ExecuteStrategies(p, year, w);
      if raised.Some? {
        return;
      }
      ghost var w1 := ExecutePhase(plan, w, year).state;
      raised := RecordStep(p, year, w1);
      if raised.Some? {
        return;
      }
      ghost var w2 := RecordPhase(plan, w1, year).state;
      AdvanceStep(p, year, Some(config.increment), pow, w2);
    }

    /** The start of run(): a fresh portfolio over asset_providers, then
        update_value(start_year, NaN) on every provider. */
    method Start(pow: PowFn) returns (p: Portfolio, ghost w: World)
      requires IsKeyOrder(assets, providers.Keys)
      modifies providers.Values
      ensures fresh(p) && w == AdvancePhase(PlanOf(), old(Observed()), None, pow)
      ensures Shaped(w) && Mirrors(p, w)
    {
      ghost var w0 := Observed();
      assert Shaped(w0);
      ClocksAllocated(strategies);
      p := new Portfolio(assets, providers);
      assert HoldsValues(w0.values) && HoldsClocks(w0.clocks) && HoldsLogs(w0.logs);
      assert p.holdings == w0.holdings;
      AdvanceStep(p, config.startYear, None, pow, w0);
      w := AdvancePhase(PlanOf(), w0, None, pow);
    }

    /** run(): after the start, one step per year of np.arange(start_year, end_year,
        increment); a zero increment raises before any step, and the first exception
        ends the run. The shared objects end in the state RunSpec gives for the state
        they were in. */
    method Run(pow: PowFn) returns (raised: Option<Error>)
      requires IsKeyOrder(assets, providers.Keys)
      modifies providers.Values, ClocksAll(strategies), MetricSet(metrics)
      ensures var r := RunSpec(PlanOf(), old(Observed()), pow);
              && raised == r.raised
              && HoldsValues(r.state.values) && HoldsClocks(r.state.clocks) && HoldsLogs(r.state.logs)
    {
      ghost var plan := PlanOf();
      var p;
      ghost var w;
      p, w := Start(pow);
      if config.increment == 0.0 {
        return Some(ZeroDivisionError);
      }
      var n := StepCount(config.startYear, config.endYear, config.increment);
      var k := 0;
      raised := None;
      while k < n
        invariant 0 <= k <= n && raised.None?
        invariant Steps(plan, StepOf(plan, pow), w, k).raised.None?
        invariant Shaped(Steps(plan, StepOf(plan, pow), w, k).state)
        invariant Mirrors(p, Steps(plan, StepOf(plan, pow), w, k).state)
      {
        ghost var cur := Steps(plan, StepOf(plan, pow), w, k).state;
        raised := StepAt(p, Year(config.startYear, config.increment, k), pow, cur);
        StepsNext(plan, w, k, pow);
        if raised.Some? {
          StepsStop(plan, StepOf(plan, pow), w, k + 1, n);
          return;
        }
        k := k + 1;
      }
    }
  }

  /** Step k + 1 of a run is Step on the world after k steps. */
  lemma StepsNext(plan: Plan, w: World, k: nat, pow: PowFn)
    requires Fits(plan, w) && Steps(plan, StepOf(plan, pow), w, k).raised.None?
    ensures Fits(plan, Steps(plan, StepOf(plan, pow), w, k).state)
    ensures Steps(plan, StepOf(plan, pow), w, k + 1)
            == Step(plan, Steps(plan, StepOf(plan, pow), w, k).state, Year(plan.start, plan.increment, k), pow)
    ensures Keeps(plan, w, Steps(plan, StepOf(plan, pow), w, k + 1).state)
  {
    StepsKeep(plan, w, k, pow);
    StepsKeep(plan, w, k + 1, pow);
  }

  /** Once a step has raised, the run is over. */
  lemma {:induction false} StepsStop(plan: Plan, step: (World, real) -> Attempt<World>, w: World, k: nat, n: nat)
    requires k <= n && Steps(plan, step, w, k).raised.Some?
    ensures Steps(plan, step, w, n) == Steps(plan, step, w, k)
    decreases n - k
  {
    if k < n {
      StepsStop(plan, step, w, k + 1, n);
    }
  }

  /** Every LimitedDurationStrategy of an allocated strategy tree is allocated. */
  lemma {:induction false} ClockAllocated(s: Strategy)
    requires allocated(s)
    ensures forall c :: c in Clocks(s) ==> allocated(c)
    decreases s, 1
  {
    match s
    case Inert(_) =>
    case Combined(children) => ClocksAllocated(children);
    case LimitedDuration(child, _, _, _, _) => ClockAllocated(child);
    case FixedYearlyInvestment(_, _) =>
  }

  lemma {:induction false} ClocksAllocated(strategies: seq<Strategy>)
    requires allocated(strategies)
    ensures forall c :: c in ClocksAll(strategies) ==> allocated(c)
    decreases strategies, 0
  {
    if strategies != [] {
      ClocksAllocated(strategies[..|strategies| - 1]);
      ClockAllocated(strategies[|strategies| - 1]);
    }
  }
}
