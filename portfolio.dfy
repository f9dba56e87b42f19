/** The per-run mutable portfolio: holdings, income and expenses (er_calc/portfolio.py). */
module Portfolios {
  import opened Wrappers
  import opened Assets

  datatype Expense = Rent | Living
  datatype Income = UkSalary | UkRental | UkTrading

  function ExpenseName(e: Expense): string
  {
    match e
    case Rent => "RENT"
    case Living => "LIVING"
  }

  function IncomeName(i: Income): string
  {
    match i
    case UkSalary => "UK_SALARY"
    case UkRental => "UK_RENTAL"
    case UkTrading => "UK_TRADING"
  }

  /** `order` lists the keys of a dict with key set `keys`, each once, in dict order. */
  ghost predicate IsKeyOrder(order: seq<Asset>, keys: set<Asset>)
  {
    Distinct(order) && forall a :: a in keys <==> a in order
  }

  /** The keys of an association list are pairwise different. */
  ghost predicate DistinctKeys<K>(entries: seq<(K, real)>)
  {
    forall i, j :: 0 <= i < j < |entries| ==> entries[i].0 != entries[j].0
  }

  /** The unit value of every provider, read now. */
  function PricesOf(providers: map<Asset, ConstantGeomIncreaseAsset>): (prices: map<Asset, real>)
    reads providers.Values
    ensures prices.Keys == providers.Keys
  {
    map a | a in providers :: providers[a].value
  }

  /** sum(units * unit value) over the assets, in order. */
  function HoldingsValue(assets: seq<Asset>, holdings: map<Asset, real>, prices: map<Asset, real>): real
    requires forall a :: a in assets ==> a in holdings && a in prices
    decreases |assets|
  {
    if assets == [] then 0.0
    else
      var a := assets[|assets| - 1];
      HoldingsValue(assets[..|assets| - 1], holdings, prices) + prices[a] * holdings[a]
  }

  /** sum(d.values()) for a dict kept as an association list. */
  function SumAmounts<K>(entries: seq<(K, real)>): real
    decreases |entries|
  {
    if entries == [] then 0.0
    else SumAmounts(entries[..|entries| - 1]) + entries[|entries| - 1].1
  }

  /** What the read-only queries of a Portfolio see: the holdings in key order, the
      providers' unit values at the time of the query, and the income and expense
      dicts as association lists in insertion order. */
  datatype View = View(assets: seq<Asset>, holdings: map<Asset, real>, prices: map<Asset, real>,
                       income: seq<(Income, real)>, expenses: seq<(Expense, real)>)
  {
    ghost predicate Covers()
    {
      forall a :: a in assets ==> a in holdings && a in prices
    }

    /** current_value() */
    function CurrentValue(): real
      requires Covers()
    {
      HoldingsValue(assets, holdings, prices)
    }

    /** asset_value_per_unit(asset); a missing provider raises KeyError. */
    function AssetValuePerUnit(a: Asset): Result<real>
    {
      if a in prices then Ok(prices[a]) else Err(KeyError)
    }

    /** units_of_asset_held(asset); a missing holding raises KeyError. */
    function UnitsOfAssetHeld(a: Asset): Result<real>
    {
      if a in holdings then Ok(holdings[a]) else Err(KeyError)
    }

    /** cash_of_asset_held(asset): units held times the unit value. */
    function CashOfAssetHeld(a: Asset): (r: Result<real>)
      ensures r.Ok? <==> a in holdings && a in prices
      ensures r.Ok? ==> r.value == holdings[a] * prices[a]
    {
      match UnitsOfAssetHeld(a)
      case Err(e) => Err(e)
      case Ok(units) =>
        match AssetValuePerUnit(a)
        case Err(e) => Err(e)
        case Ok(price) => Ok(units * price)
    }

    /** total_income() */
    function TotalIncome(): real
    {
      SumAmounts(income)
    }

    /** total_expenses() */
    function TotalExpenses(): real
    {
      SumAmounts(expenses)
    }
  }

  /** Python's binding of the arguments of a call to add(self, asset, /, cash=None,
      units=None): `asset` is positional-only, so a call that passes it by keyword
      raises TypeError before the body runs. */
  function BindAddAsset(positional: seq<Asset>, assetKeyword: Option<Asset>): (r: Result<Asset>)
  {
    if assetKeyword.Some? then Err(TypeError)
    else if |positional| == 1 then Ok(positional[0])
    else Err(TypeError)
  }

  /** add(asset, cash=..., units=...) on the holdings dict. Both branches run when both
      arguments are given; the units are added before the cash is converted, so an
      exception in the cash branch leaves the units added. */
  function AddSpec(holdings: map<Asset, real>, prices: map<Asset, real>, asset: Asset,
                   cash: Option<real>, units: Option<real>): (r: Attempt<map<Asset, real>>)
    ensures r.state.Keys == holdings.Keys
  {
    if cash.None? && units.None? then Attempt(holdings, Some(ValueError))
    else if units.Some? && asset !in holdings then Attempt(holdings, Some(KeyError))
    else
      var h := if units.Some? then holdings[asset := holdings[asset] + units.value] else holdings;
      if cash.None? then Attempt(h, None)
      else if asset !in prices then Attempt(h, Some(KeyError))
      else if prices[asset] == 0.0 then Attempt(h, Some(ZeroDivisionError))
      else if asset !in h then Attempt(h, Some(KeyError))
      else Attempt(h[asset := h[asset] + cash.value / prices[asset]], None)
  }

  /** What add promises: only the named holding changes; neither argument is a
      ValueError and a missing asset a failure, both leaving the holdings as they were;
      a zero unit value in the cash branch is a ZeroDivisionError and every other
      failure a KeyError;
      on success the holding grows by the units plus the cash divided by the unit value;
      a failure after the units branch keeps the units added. */
  lemma AddContract(holdings: map<Asset, real>, prices: map<Asset, real>, asset: Asset,
                    cash: Option<real>, units: Option<real>)
    ensures var r := AddSpec(holdings, prices, asset, cash, units);
            forall b :: b in holdings && b != asset ==> r.state[b] == holdings[b]
    ensures cash.None? && units.None? ==>
              AddSpec(holdings, prices, asset, cash, units) == Attempt(holdings, Some(ValueError))
    ensures var r := AddSpec(holdings, prices, asset, cash, units);
            asset !in holdings ==> r.state == holdings && !r.Succeeded()
    ensures var r := AddSpec(holdings, prices, asset, cash, units);
            r.raised == Some(ValueError) <==> cash.None? && units.None?
    ensures var r := AddSpec(holdings, prices, asset, cash, units);
            r.raised == Some(ZeroDivisionError) <==>
              cash.Some? && (units.None? || asset in holdings) && asset in prices && prices[asset] == 0.0
    ensures var r := AddSpec(holdings, prices, asset, cash, units);
            (cash.Some? || units.Some?) && asset !in holdings && asset !in prices ==> r.raised == Some(KeyError)
    ensures var r := AddSpec(holdings, prices, asset, cash, units);
            !r.Succeeded() && r.raised != Some(ValueError) && r.raised != Some(ZeroDivisionError) ==>
              r.raised == Some(KeyError)
    ensures var r := AddSpec(holdings, prices, asset, cash, units);
            r.Succeeded() <==>
              && (cash.Some? || units.Some?) && asset in holdings
              && (cash.Some? ==> asset in prices && prices[asset] != 0.0)
    ensures var r := AddSpec(holdings, prices, asset, cash, units);
            r.Succeeded() ==>
              r.state[asset] == holdings[asset]
                                + (if units.Some? then units.value else 0.0)
                                + (if cash.Some? then cash.value / prices[asset] else 0.0)
    ensures var r := AddSpec(holdings, prices, asset, cash, units);
            !r.Succeeded() ==>
              r.state == if units.Some? && cash.Some? && asset in holdings
                         then holdings[asset := holdings[asset] + units.value]
                         else holdings
  {
  }

  /** Portfolio. `assets` is the key order of the providers dict, which is also the key
      order of asset_holdings. */
  class Portfolio {
    const assets: seq<Asset>
    const providers: map<Asset, ConstantGeomIncreaseAsset>
    var holdings: map<Asset, real>
    var income: seq<(Income, real)>
    var expenses: seq<(Expense, real)>

    /** asset_holdings has exactly the keys of providers. */
    ghost predicate Valid()
      reads this
    {
      && IsKeyOrder(assets, providers.Keys)
      && holdings.Keys == providers.Keys
      && DistinctKeys(income) && DistinctKeys(expenses)
    }

    /** Portfolio(providers): every provided asset held at 0.0 units, no income and
        no expenses. */
    constructor (assets: seq<Asset>, providers: map<Asset, ConstantGeomIncreaseAsset>)
      requires IsKeyOrder(assets, providers.Keys)
      ensures Valid() && this.assets == assets && this.providers == providers
      ensures holdings == map a | a in providers :: 0.0
      ensures income == [] && expenses == []
    {
      var h: map<Asset, real> := map[];
      var i := 0;
      while i < |assets|
        invariant 0 <= i <= |assets|
        invariant h == map a | a in assets[..i] :: 0.0
      {
        assert assets[..i + 1] == assets[..i] + [assets[i]];
        h := h[assets[i] := 0.0];
        i := i + 1;
      }
      assert assets[..|assets|] == assets;
      this.assets := assets;
      this.providers := providers;
      holdings := h;
      income := [];
      expenses := [];
    }

    /** The state the read-only queries observe. */
    function Snapshot(): (v: View)
      reads this, providers.Values
      requires Valid()
      ensures v.Covers()
    {
      View(assets, holdings, PricesOf(providers), income, expenses)
    }

    /** add(asset, cash=..., units=...): the cash is converted at the provider's unit
        value at the time of the call. */
    method Add(asset: Asset, cash: Option<real>, units: Option<real>) returns (raised: Option<Error>)
      requires Valid()
      modifies this
      ensures Valid()
      ensures income == old(income) && expenses == old(expenses)
      ensures Attempt(holdings, raised) == AddSpec(old(holdings), PricesOf(providers), asset, cash, units)
    {
      ghost var h0, prices := holdings, PricesOf(providers);
      ghost var r := AddSpec(h0, prices, asset, cash, units);
      if cash.None? && units.None? {
        return Some(ValueError);
      }
      if units.Some? {
        if asset !in holdings {
          return Some(KeyError);
        }
        holdings := holdings[asset := holdings[asset] + units.value];
      }
      assert holdings == if units.Some? then h0[asset := h0[asset] + units.value] else h0;
      if cash.Some? {
        if asset !in providers {
          assert asset !in prices;
          return Some(KeyError);
        }
        var price := providers[asset].value;
        assert price == prices[asset];
        if price == 0.0 {
          return Some(ZeroDivisionError);
        }
        var cashUnits := cash.value / price;
        if asset !in holdings {
          return Some(KeyError);
        }
        holdings := holdings[asset := holdings[asset] + cashUnits];
      }
      return None;
    }
  }

  /** Changing one holding by delta changes the value by delta times that unit value. */
  lemma {:induction false} HoldingsValueUpdate(assets: seq<Asset>, holdings: map<Asset, real>,
                                               prices: map<Asset, real>, a: Asset, delta: real)
    requires forall b :: b in assets ==> b in holdings && b in prices
    requires Distinct(assets) && a in holdings
    ensures HoldingsValue(assets, holdings[a := holdings[a] + delta], prices)
         == HoldingsValue(assets, holdings, prices) + (if a in assets then prices[a] * delta else 0.0)
    decreases |assets|
  {
    if assets != [] {
      var init, last := assets[..|assets| - 1], assets[|assets| - 1];
      var updated := holdings[a := holdings[a] + delta];
      DistinctInit(assets);
      HoldingsValueUpdate(init, holdings, prices, a, delta);
      assert HoldingsValue(assets, updated, prices) == HoldingsValue(init, updated, prices) + prices[last] * updated[last];
      assert HoldingsValue(assets, holdings, prices) == HoldingsValue(init, holdings, prices) + prices[last] * holdings[last];
      if last == a {
        assert a !in init;
        assert prices[a] * (holdings[a] + delta) == prices[a] * holdings[a] + prices[a] * delta;
      } else {
        assert updated[last] == holdings[last];
        assert a in assets <==> a in init;
      }
    }
  }

  /** A successful add raises the portfolio's current value by the units added times the
      unit value, plus exactly the cash invested. */
  lemma AddChangesCurrentValue(v: View, asset: Asset, cash: Option<real>, units: Option<real>)
    requires v.Covers() && Distinct(v.assets)
    requires forall a :: a in v.holdings ==> a in v.assets
    requires AddSpec(v.holdings, v.prices, asset, cash, units).Succeeded()
    ensures var after := v.(holdings := AddSpec(v.holdings, v.prices, asset, cash, units).state);
            && after.Covers()
            && after.CurrentValue()
               == v.CurrentValue()
                  + (if units.Some? then v.prices[asset] * units.value else 0.0)
                  + (if cash.Some? then cash.value else 0.0)
  {
    var p := v.prices[asset];
    AddSucceeds(v.holdings, v.prices, asset, cash, units);
    ValueOfAddedUnits(v.assets, v.holdings, v.prices, asset, cash, units);
    var after := v.(holdings := AddSpec(v.holdings, v.prices, asset, cash, units).state);
    assert after.holdings == v.holdings[asset := v.holdings[asset] + AddedUnits(p, cash, units)];
  }

  /** Putting AddedUnits on one held asset raises HoldingsValue by the units at the unit
      value plus the cash. */
  lemma ValueOfAddedUnits(assets: seq<Asset>, holdings: map<Asset, real>, prices: map<Asset, real>,
                          a: Asset, cash: Option<real>, units: Option<real>)
    requires forall b :: b in assets ==> b in holdings && b in prices
    requires Distinct(assets) && a in assets && (cash.Some? ==> prices[a] != 0.0)
    ensures HoldingsValue(assets, holdings[a := holdings[a] + AddedUnits(prices[a], cash, units)], prices)
         == HoldingsValue(assets, holdings, prices)
            + (if units.Some? then prices[a] * units.value else 0.0)
            + (if cash.Some? then cash.value else 0.0)
  {
    var delta := AddedUnits(prices[a], cash, units);
    HoldingsValueUpdate(assets, holdings, prices, a, delta);
    AddedValue(prices[a], cash, units);
  }

  /** A successful add changes the one holding, by AddedUnits. */
  lemma AddSucceeds(holdings: map<Asset, real>, prices: map<Asset, real>, asset: Asset,
                    cash: Option<real>, units: Option<real>)
    requires asset in prices && AddSpec(holdings, prices, asset, cash, units).Succeeded()
    ensures asset in holdings && (cash.Some? ==> prices[asset] != 0.0)
    ensures AddSpec(holdings, prices, asset, cash, units).state
         == holdings[asset := holdings[asset] + AddedUnits(prices[asset], cash, units)]
  {
    AddContract(holdings, prices, asset, cash, units);
    var h := AddSpec(holdings, prices, asset, cash, units).state;
    var expected := holdings[asset := holdings[asset] + AddedUnits(prices[asset], cash, units)];
    assert h.Keys == expected.Keys;
    forall b | b in h ensures h[b] == expected[b] {
    }
  }

  /** The units a successful add puts on the holding: the units given plus the cash
      divided by the unit value. */
  function AddedUnits(p: real, cash: Option<real>, units: Option<real>): real
    requires cash.Some? ==> p != 0.0
  {
    (if units.Some? then units.value else 0.0) + (if cash.Some? then cash.value / p else 0.0)
  }

  /** Those units are worth the units given at the unit value plus the cash. */
  lemma AddedValue(p: real, cash: Option<real>, units: Option<real>)
    requires cash.Some? ==> p != 0.0
    ensures p * AddedUnits(p, cash, units)
         == (if units.Some? then p * units.value else 0.0) + (if cash.Some? then cash.value else 0.0)
  {
    var du := if units.Some? then units.value else 0.0;
    var dc := if cash.Some? then cash.value / p else 0.0;
    assert p * (du + dc) == p * du + p * dc;
    if cash.Some? {
      assert p * dc == cash.value;
    }
  }

  /** A fresh portfolio is worth nothing. */
  lemma {:induction false} ZeroHoldingsHaveNoValue(assets: seq<Asset>, holdings: map<Asset, real>, prices: map<Asset, real>)
    requires forall a :: a in assets ==> a in holdings && a in prices && holdings[a] == 0.0
    ensures HoldingsValue(assets, holdings, prices) == 0.0
    decreases |assets|
  {
    if assets != [] {
      ZeroHoldingsHaveNoValue(assets[..|assets| - 1], holdings, prices);
    }
  }

  /** The portfolio test: 5 units, then 200 in cash at a unit value of 100, make 7 units. */
  lemma AddExample(a: Asset)
    ensures var first := AddSpec(map[a := 0.0], map[a := 100.0], a, None, Some(5.0));
            && first == Attempt(map[a := 5.0], None)
            && AddSpec(first.state, map[a := 100.0], a, Some(200.0), None) == Attempt(map[a := 7.0], None)
  {
    assert map[a := 0.0][a := 0.0 + 5.0] == map[a := 5.0];
    assert map[a := 5.0][a := 5.0 + 200.0 / 100.0] == map[a := 7.0];
  }
}
