/** Trading rules of one broker and trading pair: leverage, fees and order
    constraints, the margin formula, and the order validator. */
module TradingRules {
  import opened Base

  datatype LeverageType = NoLeverage | FlatMarginPerVolume | MarginMultiplier

  datatype FeeType = NoFee | FlatPerVolume | FlatPerTrade | PercentOfNotional | PercentOfMargin

  datatype FeeTiming = OnCreate | OnFill | OnClose | OnCancel | OnOvernightPending | OnOvernightFilled

  datatype OvernightTiming = OnPeriodChange | OnFixedTime

  datatype Fee = Fee(feeType: FeeType, timing: FeeTiming, amount: real)

  datatype RulesError =
    | NegativeFeeAmount
    | BlankPairCode
    | NoLeverageNotOne
    | NonPositiveLeverageValue
    | MissingChargeTime
    | NegativeMinVolume
    | NegativeMinNotional
    | NegativeMinMargin
    | NoDirectionAllowed

  /** `Fee.__post_init__`: the amount may not be negative. */
  function CreateFee(feeType: FeeType, timing: FeeTiming, amount: real): (r: Result<Fee, RulesError>)
    ensures r.Ok? <==> amount >= 0.0
    ensures r.Ok? ==> r.value == Fee(feeType, timing, amount)
    ensures r.Err? ==> r.error == NegativeFeeAmount
  {
    if amount < 0.0 then Err(NegativeFeeAmount) else Ok(Fee(feeType, timing, amount))
  }

  /** A time of day, as seconds after midnight. */
  type TimeOfDay = nat

  datatype Rules = Rules(
    id: Id,
    brokerId: Id,
    pairCode: string,
    leverageType: LeverageType,
    leverageValue: real,
    brokerageFee: Option<Fee>,
    custodyFee: Option<Fee>,
    leverageFee: Option<Fee>,
    overnightTiming: OvernightTiming,
    overnightChargeTime: Option<TimeOfDay>,
    minVolume: real,
    minNotional: real,
    minMargin: real,
    allowsLong: bool,
    allowsShort: bool)

  /** The leverage configuration the margin formula relies on. */
  predicate LeverageConfigOk(t: LeverageType, value: real) {
    match t
    case NoLeverage => value == 1.0
    case FlatMarginPerVolume => value > 0.0
    case MarginMultiplier => value > 0.0
  }

  /** Every check of `__post_init__`, as one condition. */
  ghost predicate WellFormed(d: Rules) {
    && !IsBlank(d.pairCode)
    && LeverageConfigOk(d.leverageType, d.leverageValue)
    && (d.overnightTiming == OnFixedTime ==> d.overnightChargeTime.Some?)
    && d.minVolume >= 0.0 && d.minNotional >= 0.0 && d.minMargin >= 0.0
    && (d.allowsLong || d.allowsShort)
  }

  /** `TradingRules.__post_init__`: the checks in their order. */
  function Create(d: Rules): (r: Result<Rules, RulesError>)
    ensures r.Ok? <==> WellFormed(d)
    ensures r.Ok? ==> r.value == d
    ensures r == Err(BlankPairCode) <==> IsBlank(d.pairCode)
    ensures r == Err(NoLeverageNotOne) <==> !IsBlank(d.pairCode) && d.leverageType == NoLeverage && d.leverageValue != 1.0
    ensures r == Err(NonPositiveLeverageValue) <==> !IsBlank(d.pairCode) && d.leverageType != NoLeverage && d.leverageValue <= 0.0
    ensures r == Err(MissingChargeTime) <==>
      !IsBlank(d.pairCode) && LeverageConfigOk(d.leverageType, d.leverageValue)
      && d.overnightTiming == OnFixedTime && d.overnightChargeTime.None?
    ensures r == Err(NegativeMinVolume) <==>
      !IsBlank(d.pairCode) && LeverageConfigOk(d.leverageType, d.leverageValue)
      && (d.overnightTiming == OnFixedTime ==> d.overnightChargeTime.Some?)
      && d.minVolume < 0.0
    ensures r == Err(NegativeMinNotional) <==>
      !IsBlank(d.pairCode) && LeverageConfigOk(d.leverageType, d.leverageValue)
      && (d.overnightTiming == OnFixedTime ==> d.overnightChargeTime.Some?)
      && d.minVolume >= 0.0 && d.minNotional < 0.0
    ensures r == Err(NegativeMinMargin) <==>
      !IsBlank(d.pairCode) && LeverageConfigOk(d.leverageType, d.leverageValue)
      && (d.overnightTiming == OnFixedTime ==> d.overnightChargeTime.Some?)
      && d.minVolume >= 0.0 && d.minNotional >= 0.0 && d.minMargin < 0.0
    ensures r == Err(NoDirectionAllowed) <==>
      !IsBlank(d.pairCode) && LeverageConfigOk(d.leverageType, d.leverageValue)
      && (d.overnightTiming == OnFixedTime ==> d.overnightChargeTime.Some?)
      && d.minVolume >= 0.0 && d.minNotional >= 0.0 && d.minMargin >= 0.0
      && !d.allowsLong && !d.allowsShort
    ensures !d.allowsLong && !d.allowsShort ==> r.Err?
    ensures r.Err? ==> r.error != NegativeFeeAmount
  {
    if IsBlank(d.pairCode) then Err(BlankPairCode)
    else if d.leverageType == NoLeverage && d.leverageValue != 1.0 then Err(NoLeverageNotOne)
    else if d.leverageType != NoLeverage && d.leverageValue <= 0.0 then Err(NonPositiveLeverageValue)
    else if d.overnightTiming == OnFixedTime && d.overnightChargeTime.None? then Err(MissingChargeTime)
    else if d.minVolume < 0.0 then Err(NegativeMinVolume)
    else if d.minNotional < 0.0 then Err(NegativeMinNotional)
    else if d.minMargin < 0.0 then Err(NegativeMinMargin)
    else if !d.allowsLong && !d.allowsShort then Err(NoDirectionAllowed)
    else Ok(d)
  }

  /** What the margin formula needs to be defined: no division by zero. */
  predicate MarginDefined(r: Rules) {
    r.leverageType == MarginMultiplier ==> r.leverageValue != 0.0
  }

  /** `calculate_margin_required`, dispatched on the leverage type. */
  function MarginRequired(r: Rules, volume: real, price: real, contractSize: real): (m: real)
    requires MarginDefined(r)
    ensures r.leverageType == NoLeverage ==> m == volume * price * contractSize
    ensures r.leverageType == FlatMarginPerVolume ==> m == volume * r.leverageValue
    ensures r.leverageType == MarginMultiplier ==> m * r.leverageValue == volume * price * contractSize
  {
    var notional := volume * price * contractSize;
    match r.leverageType
    case NoLeverage => notional
    case FlatMarginPerVolume => volume * r.leverageValue
    case MarginMultiplier => notional / r.leverageValue
  }

  /** Why `validate_order` refused an order. */
  datatype Violation =
    | LongNotAllowed
    | ShortNotAllowed
    | BelowMinVolume
    | BelowMinNotional
    | BelowMinMargin
    | InsufficientMargin

  /** All five checks of `validate_order`, as one condition. */
  ghost predicate OrderAcceptable(r: Rules, volume: real, price: real, available: real, isLong: bool, contractSize: real)
    requires MarginDefined(r)
  {
    && (if isLong then r.allowsLong else r.allowsShort)
    && volume >= r.minVolume
    && volume * price * contractSize >= r.minNotional
    && MarginRequired(r, volume, price, contractSize) >= r.minMargin
    && available >= MarginRequired(r, volume, price, contractSize)
  }

  /** `validate_order`: `None` for `(True, None)`, otherwise the first check
      that failed, checked in the order direction, volume, notional, margin
      minimum, available margin. */
  function ValidateOrder(r: Rules, volume: real, price: real, available: real, isLong: bool, contractSize: real): (v: Option<Violation>)
    requires MarginDefined(r)
    ensures v.None? <==> OrderAcceptable(r, volume, price, available, isLong, contractSize)
    ensures v == Some(LongNotAllowed) <==> isLong && !r.allowsLong
    ensures v == Some(ShortNotAllowed) <==> !isLong && !r.allowsShort
    ensures v == Some(BelowMinVolume) <==> (if isLong then r.allowsLong else r.allowsShort) && volume < r.minVolume
    ensures v == Some(BelowMinNotional) <==>
      (if isLong then r.allowsLong else r.allowsShort) && volume >= r.minVolume
      && volume * price * contractSize < r.minNotional
    ensures v == Some(BelowMinMargin) <==>
      (if isLong then r.allowsLong else r.allowsShort) && volume >= r.minVolume
      && volume * price * contractSize >= r.minNotional
      && MarginRequired(r, volume, price, contractSize) < r.minMargin
    ensures v == Some(InsufficientMargin) <==>
      (if isLong then r.allowsLong else r.allowsShort) && volume >= r.minVolume
      && volume * price * contractSize >= r.minNotional
      && MarginRequired(r, volume, price, contractSize) >= r.minMargin
      && available < MarginRequired(r, volume, price, contractSize)
  {
    if isLong && !r.allowsLong then Some(LongNotAllowed)
    else if !isLong && !r.allowsShort then Some(ShortNotAllowed)
    else if volume < r.minVolume then Some(BelowMinVolume)
    else
      var notional := volume * price * contractSize;
      if notional < r.minNotional then Some(BelowMinNotional)
      else
        var required := MarginRequired(r, volume, price, contractSize);
        if required < r.minMargin then Some(BelowMinMargin)
        else if available < required then Some(InsufficientMargin)
        else None
  }

  // ---------------------------------------------------------------------
  // Properties
  // ---------------------------------------------------------------------

  /** Constructed rules always have a defined margin formula, and for
      non-negative inputs the required margin is non-negative. */
  lemma WellFormedMargin(r: Rules, volume: real, price: real, contractSize: real)
    requires Create(r).Ok?
    ensures MarginDefined(r)
    ensures volume >= 0.0 && price >= 0.0 && contractSize >= 0.0 ==> MarginRequired(r, volume, price, contractSize) >= 0.0
  {
    if r.leverageType == MarginMultiplier && volume >= 0.0 && price >= 0.0 && contractSize >= 0.0 {
      var m := MarginRequired(r, volume, price, contractSize);
      assert volume * price >= 0.0;
      assert m * r.leverageValue >= 0.0;
    }
  }

  /** A multiplier of 1 asks for the full notional, like no leverage; a
      higher multiplier asks for proportionally less. */
  lemma MultiplierScalesNotional(r: Rules, volume: real, price: real, contractSize: real)
    requires r.leverageType == MarginMultiplier && r.leverageValue > 0.0
    ensures r.leverageValue == 1.0 ==>
      MarginRequired(r, volume, price, contractSize) == MarginRequired(r.(leverageType := NoLeverage), volume, price, contractSize)
    ensures volume * price * contractSize > 0.0 && r.leverageValue > 1.0 ==>
      MarginRequired(r, volume, price, contractSize) < volume * price * contractSize
  {
    var n := volume * price * contractSize;
    if n > 0.0 && r.leverageValue > 1.0 {
      assert MarginRequired(r, volume, price, contractSize) == n / r.leverageValue;
      DivisionShrinks(n, r.leverageValue);
    }
  }

  /** Dividing a positive amount by a factor above 1 makes it smaller. */
  lemma DivisionShrinks(n: real, f: real)
    requires n > 0.0 && f > 1.0
    ensures n / f < n
  {
    var m := n / f;
    assert m * f == n;
    assert m > 0.0;
    assert m * (f - 1.0) > 0.0;
    assert n - m == m * (f - 1.0);
    assert n - m > 0.0;
  }

  /** Validation does not depend on the fee configuration or identity of the
      rules, only on their constraints. */
  lemma ValidationIgnoresFees(r: Rules, fees: Option<Fee>, volume: real, price: real, available: real, isLong: bool, contractSize: real)
    requires MarginDefined(r)
    ensures ValidateOrder(r.(brokerageFee := fees, custodyFee := fees, leverageFee := fees), volume, price, available, isLong, contractSize)
            == ValidateOrder(r, volume, price, available, isLong, contractSize)
  {
  }

  /** Rules with 10x leverage on BTCUSD. */
  function ExampleRules(t: LeverageType, value: real): Rules {
    Rules(1, 2, "BTCUSD", t, value, None, None, None, OnPeriodChange, None,
      0.0, 0.0, 0.0, true, true)
  }

  /** A 10x multiplier on 0.1 BTC at 50000 needs a margin of 500; the same
      order without leverage needs the full 5000. */
  lemma MarginExample()
    ensures Create(ExampleRules(MarginMultiplier, 10.0)).Ok?
    ensures MarginRequired(ExampleRules(MarginMultiplier, 10.0), 0.1, 50000.0, 1.0) == 500.0
    ensures MarginRequired(ExampleRules(NoLeverage, 1.0), 0.1, 50000.0, 1.0) == 5000.0
    ensures ValidateOrder(ExampleRules(MarginMultiplier, 10.0), 0.1, 50000.0, 499.0, true, 1.0) == Some(InsufficientMargin)
    ensures ValidateOrder(ExampleRules(MarginMultiplier, 10.0), 0.1, 50000.0, 500.0, true, 1.0) == None
  {
    assert !IsWhitespace(ExampleRules(MarginMultiplier, 10.0).pairCode[0]);
  }

  /** A short order against rules that allow only long positions fails the
      direction check before anything else, even with no margin at all. */
  lemma DirectionFirstExample()
    ensures ValidateOrder(ExampleRules(NoLeverage, 1.0).(allowsShort := false), 0.0, 0.0, -1.0, false, 1.0) == Some(ShortNotAllowed)
  {
  }
}
