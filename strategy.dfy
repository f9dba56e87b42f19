/** Strategies: the base class, the two combinators and the fixed yearly investment leaf
    (er_calc/strategy.py). A strategy is a tree; the one piece of mutable strategy
    state, LimitedDurationStrategy.elapsed, lives in a Clock object. */
module Strategies {
  import opened Wrappers
  import opened Assets
  import opened Portfolios

  /** A window bound: a float, or -inf / +inf. */
  datatype Bound = NegInfinity | At(x: real) | PosInfinity

  /** bound <= t */
  predicate AtMost(bound: Bound, t: real)
  {
    match bound
    case NegInfinity => true
    case At(x) => x <= t
    case PosInfinity => false
  }

  /** t <= bound */
  predicate AtLeast(bound: Bound, t: real)
  {
    match bound
    case NegInfinity => false
    case At(x) => t <= x
    case PosInfinity => true
  }

  /** start <= t <= end */
  predicate InWindow(start: Bound, end: Bound, t: real)
  {
    AtMost(start, t) && AtLeast(end, t)
  }

  /** The `elapsed` field of one LimitedDurationStrategy instance. */
  class Clock {
    var elapsed: real

    constructor ()
      ensures elapsed == 0.0
    {
      elapsed := 0.0;
    }
  }

  /** Every clock in the map shows the elapsed value the map records for it. */
  ghost predicate HoldsClocks(clocks: map<Clock, real>)
    reads clocks.Keys
  {
    forall c :: c in clocks ==> c.elapsed == clocks[c]
  }

  /** The strategy classes. Inert is a strategy that keeps the base class's execute,
      with the asset list it declares. */
  datatype Strategy =
    | Inert(requested: seq<Asset>)
    | Combined(children: seq<Strategy>)
    | LimitedDuration(child: Strategy, start: Bound, end: Bound, relative: bool, clock: Clock)
    | FixedYearlyInvestment(asset: Asset, amount: real)

  /** LimitedDurationStrategy(child, start=-inf, end=inf, relative=True): a fresh
      `elapsed` of 0.0. */
  method NewLimitedDuration(child: Strategy, start: Option<real>, end: Option<real>, relative: Option<bool>)
    returns (s: Strategy)
    ensures s.LimitedDuration? && s.child == child && fresh(s.clock) && s.clock.elapsed == 0.0
    ensures s.start == (if start.Some? then At(start.value) else NegInfinity)
    ensures s.end == (if end.Some? then At(end.value) else PosInfinity)
    ensures s.relative == (relative.None? || relative.value)
  {
    var clock := new Clock();
    s := LimitedDuration(child,
                         if start.Some? then At(start.value) else NegInfinity,
                         if end.Some? then At(end.value) else PosInfinity,
                         relative.None? || relative.value,
                         clock);
  }

  /** requested_assets(): in order, duplicates kept. */
  function RequestedAssets(s: Strategy): seq<Asset>
    decreases s, 1
  {
    match s
    case Inert(requested) => requested
    case Combined(children) => RequestedAll(children)
    case LimitedDuration(child, _, _, _, _) => RequestedAssets(child)
    case FixedYearlyInvestment(asset, _) => [asset]
  }

  function RequestedAll(strategies: seq<Strategy>): seq<Asset>
    decreases strategies, 0
  {
    if strategies == [] then []
    else RequestedAll(strategies[..|strategies| - 1]) + RequestedAssets(strategies[|strategies| - 1])
  }

  /** The LimitedDurationStrategy instances of a strategy tree. */
  function Clocks(s: Strategy): set<Clock>
    decreases s, 1
  {
    match s
    case Inert(_) => {}
    case Combined(children) => ClocksAll(children)
    case LimitedDuration(child, _, _, _, clock) => {clock} + Clocks(child)
    case FixedYearlyInvestment(_, _) => {}
  }

  function ClocksAll(strategies: seq<Strategy>): set<Clock>
    decreases strategies, 0
  {
    if strategies == [] then {}
    else ClocksAll(strategies[..|strategies| - 1]) + Clocks(strategies[|strategies| - 1])
  }

  /** What execute changes: the holdings and the elapsed value of every clock. */
  datatype State = State(holdings: map<Asset, real>, clocks: map<Clock, real>)

  /** The accumulator update of a relative window: a NaN increment is skipped. */
  function NextElapsed(elapsed: real, increment: Option<real>): real
  {
    if increment.Some? then elapsed + increment.value else elapsed
  }

  /** The body of FixedYearlyInvestmentStrategy.execute once add's arguments are bound:
      add the cash amount * increment to the asset. */
  function InvestCash(asset: Asset, amount: real, st: State, prices: map<Asset, real>,
                      increment: Option<real>): (r: Attempt<State>)
    ensures r.state.holdings.Keys == st.holdings.Keys && r.state.clocks == st.clocks
  {
    match increment
    case None => Attempt(st, Some(NaNArithmetic))
    case Some(d) =>
      var added := AddSpec(st.holdings, prices, asset, Some(amount * d), None);
      Attempt(st.(holdings := added.state), added.raised)
  }

  /** FixedYearlyInvestmentStrategy.execute as the source writes it:
      portfolio.add(asset=self.asset, cash=self.amount * increment). */
  function FixedYearlyAsWritten(asset: Asset, amount: real, st: State, prices: map<Asset, real>,
                                increment: Option<real>): Attempt<State>
  {
    match BindAddAsset([], Some(asset))
    case Err(e) => Attempt(st, Some(e))
    case Ok(a) => InvestCash(a, amount, st, prices, increment)
  }

  /** FixedYearlyInvestmentStrategy.execute with the asset passed positionally:
      portfolio.add(self.asset, cash=self.amount * increment). */
  function FixedYearly(asset: Asset, amount: real, st: State, prices: map<Asset, real>,
                       increment: Option<real>): (r: Attempt<State>)
    ensures r.state.holdings.Keys == st.holdings.Keys && r.state.clocks == st.clocks
  {
    match BindAddAsset([asset], None)
    case Err(e) => Attempt(st, Some(e))
    case Ok(a) => InvestCash(a, amount, st, prices, increment)
  }

  /** The corrected strategy buys `amount * increment` worth of its asset; a NaN increment
      is refused before the portfolio is touched. */
  lemma FixedYearlyInvests(asset: Asset, amount: real, st: State, prices: map<Asset, real>,
                           increment: Option<real>)
    ensures increment.None? ==> FixedYearly(asset, amount, st, prices, increment)
                                == Attempt(st, Some(NaNArithmetic))
    ensures increment.Some? ==>
              var added := AddSpec(st.holdings, prices, asset, Some(amount * increment.value), None);
              FixedYearly(asset, amount, st, prices, increment)
              == Attempt(st.(holdings := added.state), added.raised)
  {
    assert BindAddAsset([asset], None) == Ok(asset);
    assert FixedYearly(asset, amount, st, prices, increment)
        == InvestCash(asset, amount, st, prices, increment);
  }

  /** execute(portfolio, year, increment) on the state, with the providers' unit values
      `prices` (execute does not change them). */
  function Execution(s: Strategy, st: State, prices: map<Asset, real>, year: real,
                     increment: Option<real>): (r: Attempt<State>)
    requires Clocks(s) <= st.clocks.Keys
    ensures r.state.holdings.Keys == st.holdings.Keys && r.state.clocks.Keys == st.clocks.Keys
    ensures forall c :: c in st.clocks && c !in Clocks(s) ==> r.state.clocks[c] == st.clocks[c]
    decreases s, 1
  {
    match s
    case Inert(_) => Attempt(st, None)
    case Combined(children) => ExecutionAll(children, st, prices, year, increment)
    case LimitedDuration(child, start, end, relative, clock) =>
      if relative then
        var elapsed := NextElapsed(st.clocks[clock], increment);
        var st' := st.(clocks := st.clocks[clock := elapsed]);
        if InWindow(start, end, elapsed) then Execution(child, st', prices, year, increment)
        else Attempt(st', None)
      else if InWindow(start, end, year) then Execution(child, st, prices, year, increment)
      else Attempt(st, None)
    case FixedYearlyInvestment(asset, amount) => FixedYearly(asset, amount, st, prices, increment)
  }

  /** The children run one after another; the first exception stops the rest. */
  function ExecutionAll(strategies: seq<Strategy>, st: State, prices: map<Asset, real>, year: real,
                        increment: Option<real>): (r: Attempt<State>)
    requires ClocksAll(strategies) <= st.clocks.Keys
    ensures r.state.holdings.Keys == st.holdings.Keys && r.state.clocks.Keys == st.clocks.Keys
    ensures forall c :: c in st.clocks && c !in ClocksAll(strategies) ==> r.state.clocks[c] == st.clocks[c]
    decreases strategies, 0
  {
    if strategies == [] then Attempt(st, None)
    else
      var r := ExecutionAll(strategies[..|strategies| - 1], st, prices, year, increment);
      if r.raised.Some? then r
      else Execution(strategies[|strategies| - 1], r.state, prices, year, increment)
  }

  /** Every clock of one strategy in a list is a clock of the list. */
  lemma {:induction false} ClocksOfMember(strategies: seq<Strategy>, i: nat)
    requires i < |strategies|
    ensures Clocks(strategies[i]) <= ClocksAll(strategies)
    decreases |strategies|
  {
    if i < |strategies| - 1 {
      ClocksOfMember(strategies[..|strategies| - 1], i);
    }
  }

  /** Once a child has raised, the later children do not run. */
  lemma {:induction false} ExecutionAllStops(strategies: seq<Strategy>, k: nat, st: State,
                                             prices: map<Asset, real>, year: real, increment: Option<real>)
    requires k <= |strategies| && ClocksAll(strategies) <= st.clocks.Keys
    requires ClocksAll(strategies[..k]) <= st.clocks.Keys
    requires ExecutionAll(strategies[..k], st, prices, year, increment).raised.Some?
    ensures ExecutionAll(strategies, st, prices, year, increment)
         == ExecutionAll(strategies[..k], st, prices, year, increment)
    decreases |strategies| - k
  {
    if k < |strategies| {
      var init := strategies[..|strategies| - 1];
      assert init[..k] == strategies[..k];
      ExecutionAllStops(init, k, st, prices, year, increment);
    } else {
      assert strategies[..k] == strategies;
    }
  }

  /** execute on the portfolio and the clocks. `clocks` is the caller's record of the
      elapsed value of every clock it tracks (at least those of `s`). */
  method Execute(s: Strategy, p: Portfolio, year: real, increment: Option<real>,
                 ghost clocks: map<Clock, real>) returns (raised: Option<Error>)
    requires p.Valid()
    requires Clocks(s) <= clocks.Keys
    requires HoldsClocks(clocks)
    modifies p, Clocks(s)
    ensures p.Valid() && p.income == old(p.income) && p.expenses == old(p.expenses)
    ensures var r := Execution(s, State(old(p.holdings), clocks), PricesOf(p.providers), year, increment);
            && raised == r.raised && p.holdings == r.state.holdings
            && HoldsClocks(r.state.clocks)
    decreases s, 1
  {
    match s
    case Inert(_) =>
      raised := None;
    case Combined(children) =>
      raised := ExecuteAll(children, p, year, increment, clocks);
    case LimitedDuration(_, _, _, _, _) =>
      raised := ExecuteLimitedDuration(s, p, year, increment, clocks);
    case FixedYearlyInvestment(asset, amount) =>
      raised := ExecuteFixedYearly(asset, amount, p, increment, clocks);
  }

  /** LimitedDurationStrategy.execute: in relative mode the clock advances by the
      increment first (a NaN increment leaves it as it was) and is compared with the
      window; otherwise the year is. */
  method ExecuteLimitedDuration(s: Strategy, p: Portfolio, year: real, increment: Option<real>,
                                ghost clocks: map<Clock, real>) returns (raised: Option<Error>)
    requires s.LimitedDuration?
    requires p.Valid()
    requires Clocks(s) <= clocks.Keys
    requires HoldsClocks(clocks)
    modifies p, Clocks(s)
    ensures p.Valid() && p.income == old(p.income) && p.expenses == old(p.expenses)
    ensures var r := Execution(s, State(old(p.holdings), clocks), PricesOf(p.providers), year, increment);
            && raised == r.raised && p.holdings == r.state.holdings
            && HoldsClocks(r.state.clocks)
    decreases s, 0
  {
    var clock := s.clock;
    if s.relative {
      if increment.Some? {
        clock.elapsed := clock.elapsed + increment.value;
      }
      if InWindow(s.start, s.end, clock.elapsed) {
        raised := Execute(s.child, p, year, increment, clocks[clock := clock.elapsed]);
      } else {
        raised := None;
      }
    } else if InWindow(s.start, s.end, year) {
      raised := Execute(s.child, p, year, increment, clocks);
    } else {
      raised := None;
    }
  }

  /** FixedYearlyInvestmentStrategy.execute, with the asset passed positionally. */
  method ExecuteFixedYearly(asset: Asset, amount: real, p: Portfolio, increment: Option<real>,
                            ghost clocks: map<Clock, real>) returns (raised: Option<Error>)
    requires p.Valid()
    modifies p
    ensures p.Valid() && p.income == old(p.income) && p.expenses == old(p.expenses)
    ensures var r := FixedYearly(asset, amount, State(old(p.holdings), clocks), PricesOf(p.providers), increment);
            raised == r.raised && p.holdings == r.state.holdings
  {
    ghost var prices := PricesOf(p.providers);
    FixedYearlyInvests(asset, amount, State(p.holdings, clocks), prices, increment);
    if increment.None? {
      raised := Some(NaNArithmetic);
    } else {
      raised := p.Add(asset, Some(amount * increment.value), None);
      assert prices == PricesOf(p.providers);
    }
  }

  /** CombinedStrategy.execute: each child in list order. */
  method ExecuteAll(strategies: seq<Strategy>, p: Portfolio, year: real, increment: Option<real>,
                    ghost clocks: map<Clock, real>) returns (raised: Option<Error>)
    requires p.Valid()
    requires ClocksAll(strategies) <= clocks.Keys
    requires HoldsClocks(clocks)
    modifies p, ClocksAll(strategies)
    ensures p.Valid() && p.income == old(p.income) && p.expenses == old(p.expenses)
    ensures var r := ExecutionAll(strategies, State(old(p.holdings), clocks), PricesOf(p.providers), year, increment);
            && raised == r.raised && p.holdings == r.state.holdings
            && HoldsClocks(r.state.clocks)
    decreases strategies, 0
  {
    ghost var prices := PricesOf(p.providers);
    ghost var st := State(p.holdings, clocks);
    var i := 0;
    raised := None;
    while i < |strategies|
      invariant 0 <= i <= |strategies| && raised.None?
      invariant p.Valid() && p.income == old(p.income) && p.expenses == old(p.expenses)
      invariant PricesOf(p.providers) == prices
      invariant ClocksAll(strategies[..i]) <= clocks.Keys
      invariant var r := ExecutionAll(strategies[..i], st, prices, year, increment);
                && r.raised.None? && p.holdings == r.state.holdings
                && HoldsClocks(r.state.clocks)
    {
      ghost var cur := ExecutionAll(strategies[..i], st, prices, year, increment).state;
      assert strategies[..i + 1][..i] == strategies[..i];
      ClocksOfMember(strategies, i);
      ClocksOfMember(strategies[..i + 1], i);
      ghost var next := Execution(strategies[i], cur, prices, year, increment);
      assert ExecutionAll(strategies[..i + 1], st, prices, year, increment) == next;
      label pre:
      raised := Execute(strategies[i], p, year, increment, cur.clocks);
      assert unchanged@pre(p.providers.Values);
      assert PricesOf(p.providers) == prices;
      assert raised == next.raised && p.holdings == next.state.holdings;
      if raised.Some? {
        ExecutionAllStops(strategies, i + 1, st, prices, year, increment);
        assert ExecutionAll(strategies, st, prices, year, increment) == next;
        return;
      }
      i := i + 1;
    }
    assert strategies[..i] == strategies;
  }
}
