/** The configuration entities of a backtest: assets, trading pairs,
    brokers, agents, tax regimes and accounts, each validated when built. */
module Entities {
  import opened Base

  datatype AssetType = Currency | Stock | Crypto | Indice | Commodity

  datatype EntityError =
    | BlankTicker
    | BlankName
    | BlankCode
    | NonPositiveMinUnit
    | NonPositiveMultiplyingFactor
    | NonPositiveContractSize
    | IncomeRateOutOfRange
    | WithholdingRateOutOfRange
    | NegativeInitialBalance

  datatype Asset = Asset(id: Id, ticker: string, name: string, assetType: AssetType, minUnit: real)

  datatype TradingPair = TradingPair(
    id: Id, base: Asset, quote: Asset, pairCode: string,
    multiplyingFactor: real, contractSize: real, minUnit: real)

  datatype Broker = Broker(id: Id, name: string, code: string, land: string, description: string)

  datatype TraderAgent = TraderAgent(id: Id, name: string, description: string)

  datatype TaxRegime = TaxRegime(id: Id, name: string, incomeTaxRate: real, withholdingTaxRate: real)

  datatype Account = Account(
    id: Id, agent: TraderAgent, baseAsset: Asset, broker: Broker, taxRegime: TaxRegime,
    initialBalance: real)

  /** `Asset.__post_init__`: ticker, then name, then minimum unit. */
  function CreateAsset(d: Asset): (r: Result<Asset, EntityError>)
    ensures r.Ok? <==> !IsBlank(d.ticker) && !IsBlank(d.name) && d.minUnit > 0.0
    ensures r.Ok? ==> r.value == d
    ensures r == Err(BlankTicker) <==> IsBlank(d.ticker)
    ensures r == Err(BlankName) <==> !IsBlank(d.ticker) && IsBlank(d.name)
    ensures r == Err(NonPositiveMinUnit) <==> !IsBlank(d.ticker) && !IsBlank(d.name) && d.minUnit <= 0.0
  {
    if IsBlank(d.ticker) then Err(BlankTicker)
    else if IsBlank(d.name) then Err(BlankName)
    else if d.minUnit <= 0.0 then Err(NonPositiveMinUnit)
    else Ok(d)
  }

  /** `TradingPair.__post_init__`: the three sizes must be positive, and an
      empty pair code becomes the base ticker followed by the quote ticker.
      Only the empty string counts as "not provided": a code of spaces is
      kept as it is. */
  function CreatePair(d: TradingPair): (r: Result<TradingPair, EntityError>)
    ensures r.Ok? <==> d.multiplyingFactor > 0.0 && d.contractSize > 0.0 && d.minUnit > 0.0
    ensures r == Err(NonPositiveMultiplyingFactor) <==> d.multiplyingFactor <= 0.0
    ensures r == Err(NonPositiveContractSize) <==> d.multiplyingFactor > 0.0 && d.contractSize <= 0.0
    ensures r == Err(NonPositiveMinUnit) <==> d.multiplyingFactor > 0.0 && d.contractSize > 0.0 && d.minUnit <= 0.0
    ensures r.Ok? ==> r.value.(pairCode := d.pairCode) == d
    ensures r.Ok? && d.pairCode != "" ==> r.value.pairCode == d.pairCode
    ensures r.Ok? && d.pairCode == "" ==> r.value.pairCode == d.base.ticker + d.quote.ticker
  {
    if d.multiplyingFactor <= 0.0 then Err(NonPositiveMultiplyingFactor)
    else if d.contractSize <= 0.0 then Err(NonPositiveContractSize)
    else if d.minUnit <= 0.0 then Err(NonPositiveMinUnit)
    else if d.pairCode == "" then Ok(d.(pairCode := d.base.ticker + d.quote.ticker))
    else Ok(d)
  }

  /** `Broker.__post_init__`: name, then code. */
  function CreateBroker(d: Broker): (r: Result<Broker, EntityError>)
    ensures r.Ok? <==> !IsBlank(d.name) && !IsBlank(d.code)
    ensures r.Ok? ==> r.value == d
    ensures r == Err(BlankName) <==> IsBlank(d.name)
    ensures r == Err(BlankCode) <==> !IsBlank(d.name) && IsBlank(d.code)
  {
    if IsBlank(d.name) then Err(BlankName)
    else if IsBlank(d.code) then Err(BlankCode)
    else Ok(d)
  }

  /** `TraderAgent.__post_init__`: a name is required. */
  function CreateAgent(d: TraderAgent): (r: Result<TraderAgent, EntityError>)
    ensures r.Ok? <==> !IsBlank(d.name)
    ensures r.Ok? ==> r.value == d
    ensures r.Err? ==> r.error == BlankName
  {
    if IsBlank(d.name) then Err(BlankName) else Ok(d)
  }

  /** `TaxRegime.__post_init__`: a name, then both rates within [0, 1]. */
  function CreateTaxRegime(d: TaxRegime): (r: Result<TaxRegime, EntityError>)
    ensures r.Ok? <==> !IsBlank(d.name) && 0.0 <= d.incomeTaxRate <= 1.0 && 0.0 <= d.withholdingTaxRate <= 1.0
    ensures r.Ok? ==> r.value == d
    ensures r == Err(BlankName) <==> IsBlank(d.name)
    ensures r == Err(IncomeRateOutOfRange) <==> !IsBlank(d.name) && !(0.0 <= d.incomeTaxRate <= 1.0)
    ensures r == Err(WithholdingRateOutOfRange) <==>
      !IsBlank(d.name) && 0.0 <= d.incomeTaxRate <= 1.0 && !(0.0 <= d.withholdingTaxRate <= 1.0)
  {
    if IsBlank(d.name) then Err(BlankName)
    else if !(0.0 <= d.incomeTaxRate <= 1.0) then Err(IncomeRateOutOfRange)
    else if !(0.0 <= d.withholdingTaxRate <= 1.0) then Err(WithholdingRateOutOfRange)
    else Ok(d)
  }

  /** `Account.__post_init__`: only the initial balance is checked. */
  function CreateAccount(d: Account): (r: Result<Account, EntityError>)
    ensures r.Ok? <==> d.initialBalance >= 0.0
    ensures r.Ok? ==> r.value == d
    ensures r.Err? ==> r.error == NegativeInitialBalance
  {
    if d.initialBalance < 0.0 then Err(NegativeInitialBalance) else Ok(d)
  }

  // ---------------------------------------------------------------------
  // Properties
  // ---------------------------------------------------------------------

  /** A pair built from two valid assets without a code is named by its
      tickers, so its code is never blank; building it again keeps it. */
  lemma DerivedPairCode(d: TradingPair)
    requires CreateAsset(d.base).Ok? && CreatePair(d).Ok?
    ensures d.pairCode == "" ==> !IsBlank(CreatePair(d).value.pairCode)
    ensures CreatePair(CreatePair(d).value) == CreatePair(d)
  {
    if d.pairCode == "" {
      var code := CreatePair(d).value.pairCode;
      assert !IsBlank(d.base.ticker);
      var i :| 0 <= i < |d.base.ticker| && !IsWhitespace(d.base.ticker[i]);
      assert code[i] == d.base.ticker[i];
    }
  }

  /** Only the empty code is replaced: a non-empty code of whitespace
      survives, so a pair can carry a blank code. */
  lemma BlankPairCodeKept(d: TradingPair)
    requires CreatePair(d).Ok? && IsBlank(d.pairCode) && |d.pairCode| > 0
    ensures CreatePair(d).value.pairCode == d.pairCode
    ensures IsBlank(CreatePair(d).value.pairCode)
  {
  }

  function Btc(): Asset { Asset(1, "BTC", "Bitcoin", Crypto, 0.00000001) }
  function Usd(): Asset { Asset(2, "USD", "US Dollar", Currency, 0.01) }

  /** BTC quoted in USD is named "BTCUSD"; an explicit code is kept. */
  lemma PairCodeExample()
    ensures CreatePair(TradingPair(3, Btc(), Usd(), "", 1.0, 1.0, 0.0001)) == Ok(TradingPair(3, Btc(), Usd(), "BTCUSD", 1.0, 1.0, 0.0001))
    ensures CreatePair(TradingPair(3, Btc(), Usd(), "XBT", 1.0, 1.0, 0.0001)).value.pairCode == "XBT"
    ensures CreateTaxRegime(TaxRegime(4, "Brazil", 0.15, 1.5)) == Err(WithholdingRateOutOfRange)
  {
    assert !IsWhitespace("Brazil"[0]);
    assert Btc().ticker + Usd().ticker == "BTCUSD";
  }
}
