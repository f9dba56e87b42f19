/** Properties of the strategy model: the corrected leaf, the sequencing of
    CombinedStrategy, the relative and absolute windows, and the examples the
    repository's strategy tests check. */
module StrategyProperties {
  import opened Wrappers
  import opened Assets
  import opened Portfolios
  import opened Strategies

  /** An increment that never moves a relative clock backwards. */
  predicate NonNegative(increment: Option<real>)
  {
    increment.None? || 0.0 <= increment.value
  }

  // ---------------------------------------------------------------------------
  // The leaf

  /** The keyword call of the source never reaches the portfolio: it raises TypeError
      and changes nothing. */
  lemma FixedYearlyAsWrittenRaises(asset: Asset, amount: real, st: State, prices: map<Asset, real>,
                                   increment: Option<real>)
    ensures FixedYearlyAsWritten(asset, amount, st, prices, increment) == Attempt(st, Some(TypeError))
  {
    assert BindAddAsset([], Some(asset)).Err?;
  }

  /** The corrected leaf buys `amount * increment / price` units of its asset, and succeeds
      exactly when the increment is a number, the asset is held and priced, and the
      price is not zero. Nothing but that one holding changes. */
  lemma FixedYearlyContract(asset: Asset, amount: real, st: State, prices: map<Asset, real>,
                            increment: Option<real>)
    ensures var r := FixedYearly(asset, amount, st, prices, increment);
            r.Succeeded() <==>
              increment.Some? && asset in st.holdings && asset in prices && prices[asset] != 0.0
    ensures var r := FixedYearly(asset, amount, st, prices, increment);
            r.Succeeded() ==>
              r.state == st.(holdings := st.holdings[asset := st.holdings[asset]
                                                     + amount * increment.value / prices[asset]])
    ensures var r := FixedYearly(asset, amount, st, prices, increment);
            !r.Succeeded() ==> r.state == st
  {
    FixedYearlyInvests(asset, amount, st, prices, increment);
    if increment.Some? {
      var cash := Some(amount * increment.value);
      AddContract(st.holdings, prices, asset, cash, None);
      var added := AddSpec(st.holdings, prices, asset, cash, None);
      if added.Succeeded() {
        var expected := st.holdings[asset := st.holdings[asset] + amount * increment.value / prices[asset]];
        assert added.state.Keys == expected.Keys;
        assert forall b :: b in expected ==> added.state[b] == expected[b];
        assert added.state == expected;
      }
    }
  }

  /** tests/test_strategy.py, TestFixedYearlyInvestmentStrategy: 50 a year at a unit
      value of 100 buys 0.5 units, then 0.25 more over half a year. */
  lemma FixedYearlyExample()
    ensures var s := FixedYearlyInvestment(EtfGlobalStock, 50.0);
            var prices := map[EtfGlobalStock := 100.0];
            var r1 := Execution(s, State(map[EtfGlobalStock := 0.0], map[]), prices, 2024.0, Some(1.0));
            var r2 := Execution(s, r1.state, prices, 2025.0, Some(0.5));
            && r1.Succeeded() && r1.state.holdings[EtfGlobalStock] == 0.5
            && r2.Succeeded() && r2.state.holdings[EtfGlobalStock] == 0.75
  {
    var s := FixedYearlyInvestment(EtfGlobalStock, 50.0);
    var prices := map[EtfGlobalStock := 100.0];
    var st0 := State(map[EtfGlobalStock := 0.0], map[]);
    var r1 := Execution(s, st0, prices, 2024.0, Some(1.0));
    FixedYearlyContract(EtfGlobalStock, 50.0, st0, prices, Some(1.0));
    FixedYearlyContract(EtfGlobalStock, 50.0, r1.state, prices, Some(0.5));
  }

  // ---------------------------------------------------------------------------
  // The base class and CombinedStrategy

  /** The base Strategy.execute does nothing. */
  lemma InertIsNoOp(requested: seq<Asset>, st: State, prices: map<Asset, real>, year: real,
                    increment: Option<real>)
    ensures Execution(Inert(requested), st, prices, year, increment) == Attempt(st, None)
  {
  }

  /** The clocks of a concatenation of strategy lists. */
  lemma {:induction false} ClocksAllAppend(xs: seq<Strategy>, ys: seq<Strategy>)
    ensures ClocksAll(xs + ys) == ClocksAll(xs) + ClocksAll(ys)
    decreases |ys|
  {
    if ys == [] {
      assert xs + ys == xs;
    } else {
      var init := ys[..|ys| - 1];
      assert (xs + ys)[..|xs + ys| - 1] == xs + init;
      ClocksAllAppend(xs, init);
    }
  }

  /** requested_assets of a CombinedStrategy over xs + ys is the list for xs followed by
      the list for ys, duplicates kept. */
  lemma {:induction false} RequestedAllAppend(xs: seq<Strategy>, ys: seq<Strategy>)
    ensures RequestedAll(xs + ys) == RequestedAll(xs) + RequestedAll(ys)
    decreases |ys|
  {
    if ys == [] {
      assert xs + ys == xs;
    } else {
      var init := ys[..|ys| - 1];
      assert (xs + ys)[..|xs + ys| - 1] == xs + init;
      RequestedAllAppend(xs, init);
    }
  }

  /** The flattened request list of one strategy: the leaves' assets, left to right. */
  lemma CombinedRequested(children: seq<Strategy>, child: Strategy, start: Bound, end: Bound,
                          relative: bool, clock: Clock)
    ensures RequestedAssets(Combined(children)) == RequestedAll(children)
    ensures RequestedAssets(LimitedDuration(child, start, end, relative, clock)) == RequestedAssets(child)
    ensures |children| == 1 ==> RequestedAll(children) == RequestedAssets(children[0])
  {
    if |children| == 1 {
      assert children[..0] == [];
    }
  }

  /** Running the children of xs + ys is running xs and then, unless one of them raised,
      ys on the state xs left behind. */
  lemma {:induction false} ExecutionAllAppend(xs: seq<Strategy>, ys: seq<Strategy>, st: State,
                                              prices: map<Asset, real>, year: real,
                                              increment: Option<real>)
    requires ClocksAll(xs) + ClocksAll(ys) <= st.clocks.Keys
    ensures ClocksAll(xs + ys) <= st.clocks.Keys
    ensures var a := ExecutionAll(xs, st, prices, year, increment);
            ExecutionAll(xs + ys, st, prices, year, increment)
            == if a.raised.Some? then a else ExecutionAll(ys, a.state, prices, year, increment)
    decreases |ys|
  {
    ClocksAllAppend(xs, ys);
    if ys == [] {
      assert xs + ys == xs;
    } else {
      var init, last := ys[..|ys| - 1], ys[|ys| - 1];
      assert (xs + ys)[..|xs + ys| - 1] == xs + init;
      assert (xs + ys)[|xs + ys| - 1] == last;
      ClocksAllAppend(init, [last]);
      assert init + [last] == ys;
      assert [last][..0] == [];
      ExecutionAllAppend(xs, init, st, prices, year, increment);
      var a := ExecutionAll(xs, st, prices, year, increment);
      var b := ExecutionAll(xs + init, st, prices, year, increment);
      assert ExecutionAll(xs + ys, st, prices, year, increment)
          == if b.raised.Some? then b else Execution(last, b.state, prices, year, increment);
      if a.raised.None? {
        var c := ExecutionAll(init, a.state, prices, year, increment);
        assert b == c;
        assert ExecutionAll(ys, a.state, prices, year, increment)
            == if c.raised.Some? then c else Execution(last, c.state, prices, year, increment);
      }
    }
  }

  /** CombinedStrategy.execute is executing the children one after another in list
      order: the first child on the given state, the rest on what it leaves, and nothing
      after a child that raised. */
  lemma CombinedIsSequential(children: seq<Strategy>, st: State, prices: map<Asset, real>,
                             year: real, increment: Option<real>)
    requires |children| > 0 && ClocksAll(children) <= st.clocks.Keys
    ensures Clocks(children[0]) <= st.clocks.Keys && ClocksAll(children[1..]) <= st.clocks.Keys
    ensures var first := Execution(children[0], st, prices, year, increment);
            Execution(Combined(children), st, prices, year, increment)
            == if first.raised.Some? then first
               else Execution(Combined(children[1..]), first.state, prices, year, increment)
  {
    assert children == [children[0]] + children[1..];
    ClocksAllAppend([children[0]], children[1..]);
    assert [children[0]][..0] == [];
    ExecutionAllAppend([children[0]], children[1..], st, prices, year, increment);
  }

  /** tests/test_strategy.py, TestCombinedStrategy: two leaves of 50 and 100 at a unit
      value of 100 each buy their own asset in one step. */
  lemma CombinedExample()
    ensures var prices := map[EtfGlobalStock := 100.0, SavingsAccountVariableRate := 100.0];
            var st0 := State(map[EtfGlobalStock := 0.0, SavingsAccountVariableRate := 0.0], map[]);
            var s := Combined([FixedYearlyInvestment(EtfGlobalStock, 50.0),
                               FixedYearlyInvestment(SavingsAccountVariableRate, 100.0)]);
            var r := Execution(s, st0, prices, 2024.0, Some(1.0));
            && r.Succeeded()
            && r.state.holdings[EtfGlobalStock] == 0.5 && r.state.holdings[SavingsAccountVariableRate] == 1.0
  {
    var a1, a2 := EtfGlobalStock, SavingsAccountVariableRate;
    var leaf1, leaf2 := FixedYearlyInvestment(a1, 50.0), FixedYearlyInvestment(a2, 100.0);
    var prices := map[a1 := 100.0, a2 := 100.0];
    var st0 := State(map[a1 := 0.0, a2 := 0.0], map[]);
    assert [leaf1, leaf2][..1] == [leaf1] && [leaf1][..0] == [];
    assert ClocksAll([leaf1]) == {};
    assert ClocksAll([leaf1, leaf2]) == {};
    CombinedIsSequential([leaf1, leaf2], st0, prices, 2024.0, Some(1.0));
    assert [leaf1, leaf2][1..] == [leaf2];
    CombinedIsSequential([leaf2], Execution(leaf1, st0, prices, 2024.0, Some(1.0)).state,
                         prices, 2024.0, Some(1.0));
    assert [leaf2][1..] == [];
    FixedYearlyContract(a1, 50.0, st0, prices, Some(1.0));
    var mid := Execution(leaf1, st0, prices, 2024.0, Some(1.0));
    FixedYearlyContract(a2, 100.0, mid.state, prices, Some(1.0));
  }

  // ---------------------------------------------------------------------------
  // LimitedDurationStrategy

  /** Unset bounds (-inf, +inf) admit every time. */
  lemma UnboundedWindow(t: real)
    ensures InWindow(NegInfinity, PosInfinity, t)
    ensures forall x :: InWindow(At(x), PosInfinity, t) <==> x <= t
    ensures forall x :: InWindow(NegInfinity, At(x), t) <==> t <= x
  {
  }

  /** The relative mode: the clock moves by the increment (not by a NaN one) and the child
      runs on the moved clock exactly when start <= elapsed <= end. */
  lemma RelativeWindow(child: Strategy, start: Bound, end: Bound, clock: Clock, st: State,
                       prices: map<Asset, real>, year: real, increment: Option<real>)
    requires Clocks(LimitedDuration(child, start, end, true, clock)) <= st.clocks.Keys
    ensures var elapsed := NextElapsed(st.clocks[clock], increment);
            var moved := st.(clocks := st.clocks[clock := elapsed]);
            Execution(LimitedDuration(child, start, end, true, clock), st, prices, year, increment)
            == if InWindow(start, end, elapsed) then Execution(child, moved, prices, year, increment)
               else Attempt(moved, None)
    ensures increment.None? ==> NextElapsed(st.clocks[clock], increment) == st.clocks[clock]
  {
  }

  /** The absolute mode: the child runs exactly when start <= year <= end, and the
      strategy's own clock is left alone. */
  lemma AbsoluteWindow(child: Strategy, start: Bound, end: Bound, clock: Clock, st: State,
                       prices: map<Asset, real>, year: real, increment: Option<real>)
    requires Clocks(LimitedDuration(child, start, end, false, clock)) <= st.clocks.Keys
    ensures Execution(LimitedDuration(child, start, end, false, clock), st, prices, year, increment)
            == if InWindow(start, end, year) then Execution(child, st, prices, year, increment)
               else Attempt(st, None)
    ensures clock !in Clocks(child) ==>
              Execution(LimitedDuration(child, start, end, false, clock), st, prices, year, increment)
                .state.clocks[clock] == st.clocks[clock]
  {
  }

  /** With increments that are not negative, no clock of the state ever moves back. */
  lemma {:induction false} ClocksMonotone(s: Strategy, st: State, prices: map<Asset, real>,
                                          year: real, increment: Option<real>)
    requires Clocks(s) <= st.clocks.Keys && NonNegative(increment)
    ensures var r := Execution(s, st, prices, year, increment);
            forall c :: c in st.clocks ==> st.clocks[c] <= r.state.clocks[c]
    decreases s, 1
  {
    match s
    case Inert(_) =>
    case Combined(children) =>
      ClocksAllMonotone(children, st, prices, year, increment);
    case LimitedDuration(child, start, end, relative, clock) =>
      if relative {
        var moved := st.(clocks := st.clocks[clock := NextElapsed(st.clocks[clock], increment)]);
        if InWindow(start, end, NextElapsed(st.clocks[clock], increment)) {
          ClocksMonotone(child, moved, prices, year, increment);
        }
      } else if InWindow(start, end, year) {
        ClocksMonotone(child, st, prices, year, increment);
      }
    case FixedYearlyInvestment(asset, amount) =>
      FixedYearlyContract(asset, amount, st, prices, increment);
  }

  lemma {:induction false} ClocksAllMonotone(strategies: seq<Strategy>, st: State,
                                             prices: map<Asset, real>, year: real,
                                             increment: Option<real>)
    requires ClocksAll(strategies) <= st.clocks.Keys && NonNegative(increment)
    ensures var r := ExecutionAll(strategies, st, prices, year, increment);
            forall c :: c in st.clocks ==> st.clocks[c] <= r.state.clocks[c]
    decreases strategies, 0
  {
    if strategies != [] {
      var init := strategies[..|strategies| - 1];
      ClocksAllMonotone(init, st, prices, year, increment);
      var r := ExecutionAll(init, st, prices, year, increment);
      if r.raised.None? {
        ClocksMonotone(strategies[|strategies| - 1], r.state, prices, year, increment);
      }
    }
  }

  /** One call of execute for each (year, increment) step, in order; the first exception
      ends the run, as it ends a simulation. */
  function Repeated(s: Strategy, st: State, prices: map<Asset, real>, steps: seq<(real, Option<real>)>)
    : (r: Attempt<State>)
    requires Clocks(s) <= st.clocks.Keys
    ensures r.state.holdings.Keys == st.holdings.Keys && r.state.clocks.Keys == st.clocks.Keys
    decreases |steps|
  {
    if steps == [] then Attempt(st, None)
    else
      var r := Repeated(s, st, prices, steps[..|steps| - 1]);
      if r.raised.Some? then r
      else Execution(s, r.state, prices, steps[|steps| - 1].0, steps[|steps| - 1].1)
  }

  /** Once a relative clock has passed the window's end, with increments that are not
      negative the child never runs again: the holdings stay as they are and the clock
      stays past the end. */
  lemma {:induction false} PastEndNeverRuns(child: Strategy, start: Bound, end: real, clock: Clock,
                                            st: State, prices: map<Asset, real>,
                                            steps: seq<(real, Option<real>)>)
    requires Clocks(LimitedDuration(child, start, At(end), true, clock)) <= st.clocks.Keys
    requires st.clocks[clock] > end
    requires forall k :: 0 <= k < |steps| ==> NonNegative(steps[k].1)
    ensures var r := Repeated(LimitedDuration(child, start, At(end), true, clock), st, prices, steps);
            && r.raised.None? && r.state.holdings == st.holdings && r.state.clocks[clock] > end
    decreases |steps|
  {
    if steps != [] {
      var init := steps[..|steps| - 1];
      PastEndNeverRuns(child, start, end, clock, st, prices, init);
    }
  }

  /** One execution of a window around a fixed yearly investment is the investment on the
      state with the clock moved, or that state alone outside the window. */
  lemma LimitedFixedUnfold(asset: Asset, amount: real, start: Bound, end: Bound, relative: bool,
                           clock: Clock, st: State, prices: map<Asset, real>, year: real, d: real)
    requires clock in st.clocks
    ensures var s := LimitedDuration(FixedYearlyInvestment(asset, amount), start, end, relative, clock);
            var t := if relative then st.clocks[clock] + d else year;
            var moved := if relative then st.(clocks := st.clocks[clock := t]) else st;
            Execution(s, st, prices, year, Some(d))
            == if InWindow(start, end, t) then FixedYearly(asset, amount, moved, prices, Some(d))
               else Attempt(moved, None)
  {
  }

  /** One step of a window around a fixed yearly investment, on a numeric increment:
      the holding grows by amount * increment / price exactly when the time compared
      with the window (the moved clock in relative mode, the year otherwise) lies in it. */
  lemma LimitedFixedStep(asset: Asset, amount: real, start: Bound, end: Bound, relative: bool,
                         clock: Clock, st: State, prices: map<Asset, real>, year: real, d: real)
    requires clock in st.clocks && asset in st.holdings && asset in prices && prices[asset] != 0.0
    ensures var s := LimitedDuration(FixedYearlyInvestment(asset, amount), start, end, relative, clock);
            var t := if relative then st.clocks[clock] + d else year;
            var r := Execution(s, st, prices, year, Some(d));
            && r.raised.None?
            && r.state.holdings[asset]
               == st.holdings[asset] + (if InWindow(start, end, t) then amount * d / prices[asset] else 0.0)
            && r.state.clocks[clock] == (if relative then st.clocks[clock] + d else st.clocks[clock])
  {
    var t := if relative then st.clocks[clock] + d else year;
    var moved := if relative then st.(clocks := st.clocks[clock := t]) else st;
    LimitedFixedUnfold(asset, amount, start, end, relative, clock, st, prices, year, d);
    var r := Execution(LimitedDuration(FixedYearlyInvestment(asset, amount), start, end, relative, clock),
                       st, prices, year, Some(d));
    assert moved.holdings == st.holdings;
    if InWindow(start, end, t) {
      var f := FixedYearly(asset, amount, moved, prices, Some(d));
      FixedYearlyContract(asset, amount, moved, prices, Some(d));
      assert r == f;
      assert f.Succeeded();
      assert amount * Some(d).value / prices[asset] == amount * d / prices[asset];
      assert r.state == moved.(holdings := moved.holdings[asset := moved.holdings[asset] + amount * d / prices[asset]]);
      assert r.state.holdings == st.holdings[asset := st.holdings[asset] + amount * d / prices[asset]];
      assert r.state.clocks == moved.clocks;
    } else {
      assert r == Attempt(moved, None);
    }
  }

  /** The set-up of the window tests: a window around 100 a year of one asset, at a unit
      value of 100, executed on a state with holding h and elapsed time c. */
  function WindowTest(start: real, end: real, relative: bool, clock: Clock, h: real, c: real,
                      year: real, d: real): Attempt<State>
  {
    Execution(LimitedDuration(FixedYearlyInvestment(EtfGlobalStock, 100.0), At(start), At(end), relative, clock),
              State(map[EtfGlobalStock := h], map[clock := c]), map[EtfGlobalStock := 100.0], year, Some(d))
  }

  /** One step of that set-up: the holding grows by d exactly when the compared time lies
      in the window, and only a relative clock moves. */
  lemma WindowTestStep(start: real, end: real, relative: bool, clock: Clock, h: real, c: real,
                       year: real, d: real)
    ensures var t := if relative then c + d else year;
            WindowTest(start, end, relative, clock, h, c, year, d)
            == Attempt(State(map[EtfGlobalStock := h + (if start <= t <= end then d else 0.0)],
                             map[clock := if relative then c + d else c]), None)
  {
    var st := State(map[EtfGlobalStock := h], map[clock := c]);
    var prices := map[EtfGlobalStock := 100.0];
    var s := LimitedDuration(FixedYearlyInvestment(EtfGlobalStock, 100.0), At(start), At(end), relative, clock);
    LimitedFixedStep(EtfGlobalStock, 100.0, At(start), At(end), relative, clock, st, prices, year, d);
    var r := Execution(s, st, prices, year, Some(d));
    var t := if relative then c + d else year;
    assert InWindow(At(start), At(end), t) <==> start <= t <= end;
    assert 100.0 * d / 100.0 == d;
    var added := if start <= t <= end then d else 0.0;
    assert r.state.holdings[EtfGlobalStock]
        == h + (if InWindow(At(start), At(end), t) then 100.0 * d / prices[EtfGlobalStock] else 0.0);
    assert r.state.holdings[EtfGlobalStock] == h + added;
    assert r.state.holdings.Keys == {EtfGlobalStock} && r.state.clocks.Keys == {clock};
    assert r.state.holdings == map[EtfGlobalStock := h + added];
    assert r.state.clocks == map[clock := if relative then c + d else c];
  }

  /** tests/test_strategy.py, TestLimitedDurationStrategy.test_relative_start_end: a
      window [2, 3] on the elapsed time, 100 a year at a unit value of 100, increments
      1, 1, 0.5, 0.5, 1: the holding is 0, 1, 1.5, 2 and then stays at 2. */
  lemma RelativeWindowExample(clock: Clock)
    ensures WindowTest(2.0, 3.0, true, clock, 0.0, 0.0, 2024.0, 1.0)
         == Attempt(State(map[EtfGlobalStock := 0.0], map[clock := 1.0]), None)
    ensures WindowTest(2.0, 3.0, true, clock, 0.0, 1.0, 2025.0, 1.0)
         == Attempt(State(map[EtfGlobalStock := 1.0], map[clock := 2.0]), None)
    ensures WindowTest(2.0, 3.0, true, clock, 1.0, 2.0, 2025.5, 0.5)
         == Attempt(State(map[EtfGlobalStock := 1.5], map[clock := 2.5]), None)
    ensures WindowTest(2.0, 3.0, true, clock, 1.5, 2.5, 2026.0, 0.5)
         == Attempt(State(map[EtfGlobalStock := 2.0], map[clock := 3.0]), None)
    ensures WindowTest(2.0, 3.0, true, clock, 2.0, 3.0, 2027.0, 1.0)
         == Attempt(State(map[EtfGlobalStock := 2.0], map[clock := 4.0]), None)
  {
    WindowTestStep(2.0, 3.0, true, clock, 0.0, 0.0, 2024.0, 1.0);
    WindowTestStep(2.0, 3.0, true, clock, 0.0, 1.0, 2025.0, 1.0);
    WindowTestStep(2.0, 3.0, true, clock, 1.0, 2.0, 2025.5, 0.5);
    WindowTestStep(2.0, 3.0, true, clock, 1.5, 2.5, 2026.0, 0.5);
    WindowTestStep(2.0, 3.0, true, clock, 2.0, 3.0, 2027.0, 1.0);
  }

  /** tests/test_strategy.py, TestLimitedDurationStrategy.test_absolute_start_end: a window
      [2024, 2025] on the year: nothing in 2023, then 1, 1.5, 2, and nothing in 2026; the
      clock stays at 0. */
  lemma AbsoluteWindowExample(clock: Clock)
    ensures WindowTest(2024.0, 2025.0, false, clock, 0.0, 0.0, 2023.0, 1.0)
         == Attempt(State(map[EtfGlobalStock := 0.0], map[clock := 0.0]), None)
    ensures WindowTest(2024.0, 2025.0, false, clock, 0.0, 0.0, 2024.0, 1.0)
         == Attempt(State(map[EtfGlobalStock := 1.0], map[clock := 0.0]), None)
    ensures WindowTest(2024.0, 2025.0, false, clock, 1.0, 0.0, 2024.5, 0.5)
         == Attempt(State(map[EtfGlobalStock := 1.5], map[clock := 0.0]), None)
    ensures WindowTest(2024.0, 2025.0, false, clock, 1.5, 0.0, 2025.0, 0.5)
         == Attempt(State(map[EtfGlobalStock := 2.0], map[clock := 0.0]), None)
    ensures WindowTest(2024.0, 2025.0, false, clock, 2.0, 0.0, 2026.0, 1.0)
         == Attempt(State(map[EtfGlobalStock := 2.0], map[clock := 0.0]), None)
  {
    WindowTestStep(2024.0, 2025.0, false, clock, 0.0, 0.0, 2023.0, 1.0);
    WindowTestStep(2024.0, 2025.0, false, clock, 0.0, 0.0, 2024.0, 1.0);
    WindowTestStep(2024.0, 2025.0, false, clock, 1.0, 0.0, 2024.5, 0.5);
    WindowTestStep(2024.0, 2025.0, false, clock, 1.5, 0.0, 2025.0, 0.5);
    WindowTestStep(2024.0, 2025.0, false, clock, 2.0, 0.0, 2026.0, 1.0);
  }

  // ---------------------------------------------------------------------------
  // Requested assets and execution

  /** A strategy whose requested assets all have a holding and a non-zero unit value
      never raises on a numeric increment: the simulation builds its portfolio from exactly
      these assets. */
  lemma {:induction false} RequestedCoversExecution(s: Strategy, st: State, prices: map<Asset, real>,
                                                    year: real, increment: Option<real>)
    requires Clocks(s) <= st.clocks.Keys && increment.Some?
    requires forall a :: a in RequestedAssets(s) ==> a in st.holdings && a in prices && prices[a] != 0.0
    ensures Execution(s, st, prices, year, increment).raised.None?
    decreases s, 1
  {
    match s
    case Inert(_) =>
    case Combined(children) =>
      RequestedAllCoversExecution(children, st, prices, year, increment);
    case LimitedDuration(child, start, end, relative, clock) =>
      if relative {
        var moved := st.(clocks := st.clocks[clock := NextElapsed(st.clocks[clock], increment)]);
        if InWindow(start, end, NextElapsed(st.clocks[clock], increment)) {
          RequestedCoversExecution(child, moved, prices, year, increment);
        }
      } else if InWindow(start, end, year) {
        RequestedCoversExecution(child, st, prices, year, increment);
      }
    case FixedYearlyInvestment(asset, amount) =>
      FixedYearlyContract(asset, amount, st, prices, increment);
  }

  lemma {:induction false} RequestedAllCoversExecution(strategies: seq<Strategy>, st: State,
                                                       prices: map<Asset, real>, year: real,
                                                       increment: Option<real>)
    requires ClocksAll(strategies) <= st.clocks.Keys && increment.Some?
    requires forall a :: a in RequestedAll(strategies) ==> a in st.holdings && a in prices && prices[a] != 0.0
    ensures ExecutionAll(strategies, st, prices, year, increment).raised.None?
    decreases strategies, 0
  {
    if strategies != [] {
      var init := strategies[..|strategies| - 1];
      RequestedAllCoversExecution(init, st, prices, year, increment);
      var r := ExecutionAll(init, st, prices, year, increment);
      RequestedCoversExecution(strategies[|strategies| - 1], r.state, prices, year, increment);
    }
  }
}
