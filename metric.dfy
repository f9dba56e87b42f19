/** Run metrics (pfme/metric.py, er_calc/metric.py): append-only logs of
    {year, value} entries, where the value is computed by a read-only observer of the
    portfolio. The two files agree except for FIReached. */
module Metrics {
  import opened Wrappers
  import opened Assets
  import opened Portfolios

  /** One element of the HoldingsByAsset list: {"asset", "units", "unit_value"}. */
  datatype HoldingEntry = HoldingEntry(asset: string, units: real, unitValue: real)

  /** One element of a CashflowStatement list: {"name", "value"}. */
  datatype NamedAmount = NamedAmount(name: string, value: real)

  /** What calculate returns, per metric class. */
  datatype Value =
    | Number(x: real)
    | Flag(b: bool)
    | Holdings(entries: seq<HoldingEntry>)
    | Cashflow(income: seq<NamedAmount>, expenses: seq<NamedAmount>)

  /** One entry of `values`: {"year": year, "value": value}. */
  datatype Entry = Entry(year: real, value: Value)

  /** The metric classes. ErCalcFIReached is er_calc's FIReached; the others are the
      pfme classes, whose er_calc twins (TotalAssets, HoldingsByAsset) are identical. */
  datatype Kind =
    | TotalAssets
    | HoldingsByAsset
    | FIReached(withdrawalRate: real)
    | CashflowStatement
    | ErCalcFIReached(withdrawalRate: real)

  /** name(): the class name. */
  function Name(kind: Kind): string
  {
    match kind
    case TotalAssets => "TotalAssets"
    case HoldingsByAsset => "HoldingsByAsset"
    case FIReached(_) => "FIReached"
    case CashflowStatement => "CashflowStatement"
    case ErCalcFIReached(_) => "FIReached"
  }

  /** requested_assets(): no metric class overrides the empty default. */
  function RequestedAssets(kind: Kind): set<Asset>
  {
    {}
  }

  /** HoldingsByAsset.calculate: one entry per key of asset_holdings, in key order. */
  function HoldingsList(assets: seq<Asset>, holdings: map<Asset, real>, prices: map<Asset, real>)
    : (entries: seq<HoldingEntry>)
    requires forall a :: a in assets ==> a in holdings && a in prices
    ensures |entries| == |assets|
    ensures forall i :: 0 <= i < |assets| ==>
              entries[i] == HoldingEntry(AssetName(assets[i]), holdings[assets[i]], prices[assets[i]])
    decreases |assets|
  {
    if assets == [] then []
    else
      var a := assets[|assets| - 1];
      HoldingsList(assets[..|assets| - 1], holdings, prices) + [HoldingEntry(AssetName(a), holdings[a], prices[a])]
  }

  /** The {name, value} list of a dict, in insertion order. */
  function NamedAmounts<K>(entries: seq<(K, real)>, name: K -> string): (r: seq<NamedAmount>)
  {
    seq(|entries|, i requires 0 <= i < |entries| => NamedAmount(name(entries[i].0), entries[i].1))
  }

  /** calculate(portfolio). er_calc's FIReached names Asset.EXPENSES, which the er_calc
      Asset enum does not define, so it raises AttributeError. */
  function Calculate(kind: Kind, v: View): Result<Value>
    requires v.Covers()
  {
    match kind
    case TotalAssets => Ok(Number(v.CurrentValue()))
    case HoldingsByAsset => Ok(Holdings(HoldingsList(v.assets, v.holdings, v.prices)))
    case FIReached(rate) => Ok(Flag(v.CurrentValue() * rate >= v.TotalExpenses()))
    case CashflowStatement =>
      Ok(Cashflow(NamedAmounts(v.income, IncomeName), NamedAmounts(v.expenses, ExpenseName)))
    case ErCalcFIReached(_) => Err(AttributeError)
  }

  /** A RunMetric: its class and its log. */
  class Metric {
    const kind: Kind
    var values: seq<Entry>

    /** RunMetric.__init__: an empty log. */
    constructor (kind: Kind)
      ensures this.kind == kind && values == []
    {
      this.kind := kind;
      values := [];
    }

    /** record(portfolio, year): append {year, calculate(portfolio)}; an exception from
        calculate leaves the log as it was. calculate only reads the portfolio, so the
        portfolio is passed as the state it shows (Portfolio.Snapshot). */
    method Record(v: View, year: real) returns (raised: Option<Error>)
      requires v.Covers()
      modifies this
      ensures match Calculate(kind, v)
              case Ok(value) => raised.None? && values == old(values) + [Entry(year, value)]
              case Err(e) => raised == Some(e) && values == old(values)
    {
      var r := Calculate(kind, v);
      match r
      case Ok(value) =>
        values := values + [Entry(year, value)];
        raised := None;
      case Err(e) =>
        raised := Some(e);
    }
  }

  /** Sum of units times unit value over a HoldingsByAsset list. */
  function EntriesValue(entries: seq<HoldingEntry>): real
    decreases |entries|
  {
    if entries == [] then 0.0
    else EntriesValue(entries[..|entries| - 1]) + entries[|entries| - 1].unitValue * entries[|entries| - 1].units
  }

  /** Sum of the values of a CashflowStatement list. */
  function NamedTotal(amounts: seq<NamedAmount>): real
    decreases |amounts|
  {
    if amounts == [] then 0.0
    else NamedTotal(amounts[..|amounts| - 1]) + amounts[|amounts| - 1].value
  }

  /** The HoldingsByAsset entries add up to TotalAssets. */
  lemma {:induction false} HoldingsListValue(assets: seq<Asset>, holdings: map<Asset, real>,
                                             prices: map<Asset, real>)
    requires forall a :: a in assets ==> a in holdings && a in prices
    ensures EntriesValue(HoldingsList(assets, holdings, prices)) == HoldingsValue(assets, holdings, prices)
    decreases |assets|
  {
    if assets != [] {
      var init := assets[..|assets| - 1];
      var l := HoldingsList(assets, holdings, prices);
      assert l[..|l| - 1] == HoldingsList(init, holdings, prices);
      HoldingsListValue(init, holdings, prices);
    }
  }

  /** The listed amounts of a CashflowStatement add up to the dict's total. */
  lemma {:induction false} NamedAmountsTotal<K>(entries: seq<(K, real)>, name: K -> string)
    ensures NamedTotal(NamedAmounts(entries, name)) == SumAmounts(entries)
    decreases |entries|
  {
    if entries != [] {
      var init := entries[..|entries| - 1];
      var l := NamedAmounts(entries, name);
      assert l[..|l| - 1] == NamedAmounts(init, name);
      NamedAmountsTotal(init, name);
    }
  }

  /** TotalAssets reports the portfolio's current value. */
  lemma TotalAssetsIsCurrentValue(v: View)
    requires v.Covers()
    ensures Calculate(TotalAssets, v) == Ok(Number(v.CurrentValue()))
  {
  }

  /** HoldingsByAsset has one entry per held asset, and the entries' units times unit
      values add up to TotalAssets. */
  lemma HoldingsByAssetAddsUp(v: View)
    requires v.Covers()
    ensures var r := Calculate(HoldingsByAsset, v);
            && r.Ok? && r.value.Holdings?
            && |r.value.entries| == |v.assets|
            && EntriesValue(r.value.entries) == v.CurrentValue()
  {
    HoldingsListValue(v.assets, v.holdings, v.prices);
  }

  /** FIReached is true exactly when value * withdrawal rate covers the expenses. */
  lemma FIReachedIff(rate: real, v: View)
    requires v.Covers()
    ensures Calculate(FIReached(rate), v).Ok? && Calculate(FIReached(rate), v).value.Flag?
    ensures Calculate(FIReached(rate), v).value.b <==> v.CurrentValue() * rate >= v.TotalExpenses()
  {
  }

  /** CashflowStatement lists every income and every expense item, and the listed values
      add up to total_income() and total_expenses(). */
  lemma CashflowAddsUp(v: View)
    requires v.Covers()
    ensures var r := Calculate(CashflowStatement, v);
            && r.Ok? && r.value.Cashflow?
            && |r.value.income| == |v.income| && |r.value.expenses| == |v.expenses|
            && NamedTotal(r.value.income) == v.TotalIncome()
            && NamedTotal(r.value.expenses) == v.TotalExpenses()
  {
    NamedAmountsTotal(v.income, IncomeName);
    NamedAmountsTotal(v.expenses, ExpenseName);
  }

  /** er_calc's FIReached never produces a value, so its record always raises and never
      appends. */
  lemma ErCalcFIReachedFails(rate: real, v: View)
    requires v.Covers()
    ensures Calculate(ErCalcFIReached(rate), v) == Err(AttributeError)
  {
  }

  /** On a freshly built portfolio (no holdings value, no expenses) FIReached is true for
      any rate, and the cashflow statement is empty. */
  lemma FreshPortfolioMetrics(rate: real, assets: seq<Asset>, prices: map<Asset, real>)
    requires forall a :: a in assets ==> a in prices
    ensures var v := View(assets, map a | a in assets :: 0.0, prices, [], []);
            && Calculate(FIReached(rate), v) == Ok(Flag(true))
            && Calculate(TotalAssets, v) == Ok(Number(0.0))
            && Calculate(CashflowStatement, v) == Ok(Cashflow([], []))
  {
    var v := View(assets, map a | a in assets :: 0.0, prices, [], []);
    ZeroHoldingsHaveNoValue(assets, v.holdings, prices);
    assert |NamedAmounts(v.income, IncomeName)| == 0 && |NamedAmounts(v.expenses, ExpenseName)| == 0;
  }
}
