/** Assets and the constant geometric growth asset provider
    (er_calc/asset.py and pfme/asset.py). */
module Assets {
  import opened Wrappers

  /** The asset classes. pfme's enum; er_calc's has no Cash. */
  datatype Asset = Cash | EtfGlobalStock | SavingsAccountVariableRate

  /** `asset.name` */
  function AssetName(a: Asset): string
  {
    match a
    case Cash => "CASH"
    case EtfGlobalStock => "ETF_GLOBAL_STOCK"
    case SavingsAccountVariableRate => "SAVINGS_ACCOUNT_VARIABLE_RATE"
  }

  /** Python's float `**`. Raising a real to a real power is not definable in Dafny,
      so the operator is a parameter of the model. */
  type PowFn = (real, real) -> real

  /** The laws of exponentiation that the properties below rely on. */
  ghost predicate ExponentLaws(pow: PowFn)
  {
    && (forall x :: pow(1.0, x) == 1.0)
    && (forall b :: pow(b, 0.0) == 1.0)
    && (forall b :: pow(b, 1.0) == b)
    && (forall b, x, y :: 0.0 < b ==> pow(b, x + y) == pow(b, x) * pow(b, y))
  }

  /** b to the natural power n. */
  function NatPow(b: real, n: nat): real
  {
    if n == 0 then 1.0 else NatPow(b, n - 1) * b
  }

  /** One call of update_value on a stored value: a NaN increment leaves it alone,
      any other increment d multiplies it by (1 + r) ** d. */
  function Advance(v: real, growthRate: real, increment: Option<real>, pow: PowFn): real
  {
    match increment
    case None => v
    case Some(d) => v * pow(1.0 + growthRate, d)
  }

  /** The value after a sequence of update_value calls, applied in order. */
  function Compounded(v: real, growthRate: real, increments: seq<Option<real>>, pow: PowFn): real
    decreases |increments|
  {
    if increments == [] then v
    else Advance(Compounded(v, growthRate, increments[..|increments| - 1], pow),
                 growthRate, increments[|increments| - 1], pow)
  }

  /** Which of the two source classes an object is: er_calc's is tagged with its asset
      and starts at 100.0, pfme's starts at an explicit starting value. */
  datatype Origin = ErCalc(asset: Asset) | Pfme(startingValue: real)

  /** ConstantGeomIncreaseAsset. `value()` is the field `value`; er_calc's `asset()` is
      `origin.asset`. The growth rate and the origin are constants, so no update
      can change them. */
  class ConstantGeomIncreaseAsset {
    const origin: Origin
    const growthRate: real
    var value: real

    /** er_calc: the value starts at 100.0 whatever the asset or the growth rate. */
    constructor ForAsset(asset: Asset, growthRate: real)
      ensures origin == ErCalc(asset) && this.growthRate == growthRate
      ensures value == 100.0
    {
      origin := ErCalc(asset);
      this.growthRate := growthRate;
      value := 100.0;
    }

    /** pfme: the value starts at starting_value. */
    constructor WithStartingValue(startingValue: real, growthRate: real)
      ensures origin == Pfme(startingValue) && this.growthRate == growthRate
      ensures value == startingValue
    {
      origin := Pfme(startingValue);
      this.growthRate := growthRate;
      value := startingValue;
    }

    /** update_value(year, increment): the year is ignored. */
    method UpdateValue(year: real, increment: Option<real>, pow: PowFn)
      modifies this
      ensures value == Advance(old(value), growthRate, increment, pow)
      ensures increment.None? ==> value == old(value)
    {
      if increment.Some? {
        value := value * pow(1.0 + growthRate, increment.value);
      }
    }
  }

  /** A NaN increment is a no-op: it does not reset the value to its start. */
  lemma NaNIncrementKeepsValue(v: real, growthRate: real, pow: PowFn)
    ensures Advance(v, growthRate, None, pow) == v
  {
  }

  /** With growth rate 0 or with increment 0 an update leaves the value unchanged. */
  lemma NeutralUpdate(v: real, growthRate: real, d: real, pow: PowFn)
    requires ExponentLaws(pow)
    requires growthRate == 0.0 || d == 0.0
    ensures Advance(v, growthRate, Some(d), pow) == v
  {
    if growthRate == 0.0 {
      assert pow(1.0, d) == 1.0;
    } else {
      assert pow(1.0 + growthRate, 0.0) == 1.0;
    }
  }

  /** Compounding by a and then by b is compounding once by a + b. */
  lemma AdvanceAdditive(v: real, growthRate: real, a: real, b: real, pow: PowFn)
    requires ExponentLaws(pow)
    requires -1.0 < growthRate
    ensures Advance(Advance(v, growthRate, Some(a), pow), growthRate, Some(b), pow)
         == Advance(v, growthRate, Some(a + b), pow)
  {
    var g := 1.0 + growthRate;
    assert pow(g, a + b) == pow(g, a) * pow(g, b);
    calc {
      Advance(Advance(v, growthRate, Some(a), pow), growthRate, Some(b), pow);
      (v * pow(g, a)) * pow(g, b);
      v * (pow(g, a) * pow(g, b));
    }
  }

  /** A NaN update before a sequence of updates changes nothing. */
  lemma {:induction false} NaNFirstIsNoOp(v: real, growthRate: real, increments: seq<Option<real>>, pow: PowFn)
    ensures Compounded(v, growthRate, [None] + increments, pow) == Compounded(v, growthRate, increments, pow)
    decreases |increments|
  {
    var all := [None] + increments;
    if increments == [] {
      assert all[..0] == [];
    } else {
      assert all[..|all| - 1] == [None] + increments[..|increments| - 1];
      NaNFirstIsNoOp(v, growthRate, increments[..|increments| - 1], pow);
    }
  }

  /** A provider with growth rate 0, such as pfme's Cash provider at 1.0, keeps its
      value through any sequence of updates. */
  lemma {:induction false} ZeroGrowthIsConstant(v: real, increments: seq<Option<real>>, pow: PowFn)
    requires ExponentLaws(pow)
    ensures Compounded(v, 0.0, increments, pow) == v
    decreases |increments|
  {
    if increments != [] {
      var last := increments[|increments| - 1];
      ZeroGrowthIsConstant(v, increments[..|increments| - 1], pow);
      match last {
        case None =>
        case Some(d) => NeutralUpdate(v, 0.0, d, pow);
      }
    }
  }

  /** The initialisation call followed by n updates of one year each gives
      v * (1 + r)^n. */
  lemma {:induction false} YearlyCompounding(v: real, growthRate: real, n: nat, pow: PowFn)
    requires ExponentLaws(pow)
    ensures Compounded(v, growthRate, [None] + seq(n, _ => Some(1.0)), pow)
         == v * NatPow(1.0 + growthRate, n)
    decreases n
  {
    var incs := [None] + seq(n, _ => Some(1.0));
    if n == 0 {
      assert incs[..0] == [];
    } else {
      assert incs[..|incs| - 1] == [None] + seq(n - 1, _ => Some(1.0));
      YearlyCompounding(v, growthRate, n - 1, pow);
      assert pow(1.0 + growthRate, 1.0) == 1.0 + growthRate;
    }
  }

  /** The figures of er_calc's provider test: 100.0 after the initialisation call,
      110.0 after one year at 10%. */
  lemma ErCalcProviderExample(pow: PowFn)
    requires ExponentLaws(pow)
    ensures Compounded(100.0, 0.1, [None], pow) == 100.0
    ensures Compounded(100.0, 0.1, [None, Some(1.0)], pow) == 110.0
  {
    var one: seq<Option<real>> := [None];
    assert [None, Some(1.0)][..1] == one;
    assert one[..0] == [];
    assert pow(1.1, 1.0) == 1.1;
  }
}
