/** The run container and the simple per-run account records. */
module Runs {
  import opened Base
  import Entities

  datatype RunError =
    | StartNotBeforeEnd
    | NoTradingPairs
    | NoAgents
    | TotalMismatch
    | BlankTransactionType

  datatype BacktestRun = BacktestRun(
    id: Id,
    broker: Entities.Broker,
    startDate: Timestamp,
    endDate: Timestamp,
    tradingPairs: seq<Entities.TradingPair>,
    agents: seq<Entities.TraderAgent>,
    description: string)

  /** `BacktestRun.__post_init__`: a non-empty period, then at least one
      trading pair, then at least one agent. */
  function CreateRun(d: BacktestRun): (r: Result<BacktestRun, RunError>)
    ensures r.Ok? <==> d.startDate < d.endDate && |d.tradingPairs| > 0 && |d.agents| > 0
    ensures r.Ok? ==> r.value == d
    ensures r == Err(StartNotBeforeEnd) <==> d.startDate >= d.endDate
    ensures r == Err(NoTradingPairs) <==> d.startDate < d.endDate && |d.tradingPairs| == 0
    ensures r == Err(NoAgents) <==> d.startDate < d.endDate && |d.tradingPairs| > 0 && |d.agents| == 0
  {
    if d.startDate >= d.endDate then Err(StartNotBeforeEnd)
    else if |d.tradingPairs| == 0 then Err(NoTradingPairs)
    else if |d.agents| == 0 then Err(NoAgents)
    else Ok(d)
  }

  datatype AccountBalance = AccountBalance(
    id: Id,
    accountId: Id,
    timestamp: Timestamp,
    total: real,
    available: real,
    unavailable: real,
    unrealizedPnl: real)

  /** The tolerance of the total check. */
  const TotalTolerance: real := 0.01

  function Abs(x: real): real {
    if x < 0.0 then -x else x
  }

  /** `AccountBalance.__post_init__`: the stated total may differ from the sum
      of the components by at most one cent; the components' signs are not
      checked. */
  function CreateAccountBalance(d: AccountBalance): (r: Result<AccountBalance, RunError>)
    ensures r.Ok? <==> d.available + d.unavailable - TotalTolerance <= d.total <= d.available + d.unavailable + TotalTolerance
    ensures r.Ok? ==> r.value == d
    ensures r.Err? ==> r.error == TotalMismatch
  {
    if Abs(d.total - (d.available + d.unavailable)) > TotalTolerance then Err(TotalMismatch) else Ok(d)
  }

  datatype AccountTransaction = AccountTransaction(
    id: Id,
    accountId: Id,
    timestamp: Timestamp,
    amount: real,
    transactionType: string,
    description: string,
    relatedOrderId: Option<Id>)

  /** `AccountTransaction.__post_init__`: the type must not be blank. */
  function CreateAccountTransaction(d: AccountTransaction): (r: Result<AccountTransaction, RunError>)
    ensures r.Ok? <==> !IsBlank(d.transactionType)
    ensures r.Ok? ==> r.value == d
    ensures r.Err? ==> r.error == BlankTransactionType
  {
    if IsBlank(d.transactionType) then Err(BlankTransactionType) else Ok(d)
  }

  /** The total check accepts an exact total and a rounding difference of up
      to one cent, rejects two cents, and accepts negative components. */
  lemma AccountBalanceExample()
    ensures CreateAccountBalance(AccountBalance(1, 2, 0, 100.0, 60.0, 40.0, 0.0)).Ok?
    ensures CreateAccountBalance(AccountBalance(1, 2, 0, 100.01, 60.0, 40.0, 0.0)).Ok?
    ensures CreateAccountBalance(AccountBalance(1, 2, 0, 99.99, 60.0, 40.0, 0.0)).Ok?
    ensures CreateAccountBalance(AccountBalance(1, 2, 0, 100.02, 60.0, 40.0, 0.0)) == Err(TotalMismatch)
    ensures CreateAccountBalance(AccountBalance(1, 2, 0, 0.0, -50.0, 50.0, 0.0)).Ok?
  {
  }
}
