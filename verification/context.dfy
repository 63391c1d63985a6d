/** `BacktestContext`: every repository of one backtest, split into the
    configuration that persists across runs and the runtime state one run
    produces. */
module Context {
  import opened Base
  import opened Repository
  import opened Indexed
  import Entities
  import TradingRules
  import EntityRepositories
  import OrderRepositories
  import MarketData
  import Runs

  datatype BacktestContext = BacktestContext(
    // configuration
    assets: EntityRepositories.AssetRepo,
    brokers: EntityRepositories.BrokerRepo,
    agents: Repo<Id, Entities.TraderAgent>,
    accounts: Repo<Id, Entities.Account>,
    taxRegimes: Repo<Id, Entities.TaxRegime>,
    tradingPairs: EntityRepositories.PairRepo,
    tradingRules: Repo<Id, TradingRules.Rules>,
    marketData: MarketData.MarketDataRepo,
    // runtime state
    orders: OrderRepositories.OrderRepo,
    orderHistory: OrderRepositories.HistoryRepo,
    backtestRuns: Repo<Id, Runs.BacktestRun>,
    accountBalances: Repo<Id, Runs.AccountBalance>,
    accountTransactions: Repo<Id, Runs.AccountTransaction>)

  /** Every repository keeps the dictionary invariant. */
  ghost predicate ValidContext(c: BacktestContext) {
    && ValidIndexed(c.assets) && ValidIndexed(c.brokers) && Valid(c.agents) && Valid(c.accounts)
    && Valid(c.taxRegimes) && ValidIndexed(c.tradingPairs) && Valid(c.tradingRules) && Valid(c.marketData)
    && Valid(c.orders) && Valid(c.orderHistory) && Valid(c.backtestRuns)
    && Valid(c.accountBalances) && Valid(c.accountTransactions)
  }

  /** The two contexts hold the same configuration. */
  ghost predicate SameConfiguration(a: BacktestContext, b: BacktestContext) {
    && a.assets == b.assets && a.brokers == b.brokers && a.agents == b.agents
    && a.accounts == b.accounts && a.taxRegimes == b.taxRegimes
    && a.tradingPairs == b.tradingPairs && a.tradingRules == b.tradingRules
    && a.marketData == b.marketData
  }

  /** No runtime repository holds anything. */
  ghost predicate RuntimeEmpty(c: BacktestContext) {
    && Count(c.orders) == 0 && Count(c.orderHistory) == 0 && Count(c.backtestRuns) == 0
    && Count(c.accountBalances) == 0 && Count(c.accountTransactions) == 0
  }

  /** No configuration repository holds anything, indexes included. */
  ghost predicate ConfigurationEmpty(c: BacktestContext) {
    && Count(c.assets.store) == 0 && Count(c.assets.index) == 0
    && Count(c.brokers.store) == 0 && Count(c.brokers.index) == 0
    && Count(c.agents) == 0 && Count(c.accounts) == 0 && Count(c.taxRegimes) == 0
    && Count(c.tradingPairs.store) == 0 && Count(c.tradingPairs.index) == 0
    && Count(c.tradingRules) == 0 && Count(c.marketData) == 0
  }

  /** `__init__`: every repository empty. */
  function NewContext(): (c: BacktestContext)
    ensures ValidContext(c) && RuntimeEmpty(c) && ConfigurationEmpty(c)
  {
    BacktestContext(EmptyIndexed(), EmptyIndexed(), Empty(), Empty(), Empty(), EmptyIndexed(),
      Empty(), Empty(), Empty(), Empty(), Empty(), Empty(), Empty())
  }

  /** `reset_runtime_state`: clears orders, order history, runs, balances
      and transactions, and nothing else. */
  function ResetRuntimeState(c: BacktestContext): (c': BacktestContext)
    ensures SameConfiguration(c, c')
    ensures RuntimeEmpty(c')
    ensures ValidContext(c) ==> ValidContext(c')
  {
    c.(orders := Clear(c.orders),
       orderHistory := Clear(c.orderHistory),
       backtestRuns := Clear(c.backtestRuns),
       accountBalances := Clear(c.accountBalances),
       accountTransactions := Clear(c.accountTransactions))
  }

  /** `reset_all`: clears every configuration repository (each indexed
      repository together with its index), then the runtime state. */
  function ResetAll(c: BacktestContext): (c': BacktestContext)
    ensures ValidContext(c') && RuntimeEmpty(c') && ConfigurationEmpty(c')
  {
    ResetRuntimeState(c.(
      assets := ClearIndexed(c.assets),
      brokers := ClearIndexed(c.brokers),
      agents := Clear(c.agents),
      accounts := Clear(c.accounts),
      taxRegimes := Clear(c.taxRegimes),
      tradingPairs := ClearIndexed(c.tradingPairs),
      tradingRules := Clear(c.tradingRules),
      marketData := MarketData.ClearData(c.marketData)))
  }

  /** The dictionary `get_statistics` returns. */
  datatype Statistics = Statistics(
    assets: nat,
    brokers: nat,
    agents: nat,
    accounts: nat,
    taxRegimes: nat,
    tradingPairs: nat,
    tradingRules: nat,
    orders: nat,
    orderHistory: nat,
    backtestRuns: nat,
    accountBalances: nat,
    accountTransactions: nat,
    marketDataSymbols: nat)

  /** `get_statistics`: each repository's `count()`, and the number of
      market-data symbols rather than bars. */
  function GetStatistics(c: BacktestContext): (s: Statistics)
    ensures ValidContext(c) ==> s.marketDataSymbols == |MarketData.GetSymbols(c.marketData)|
    ensures s.assets == Count(c.assets.store) && s.brokers == Count(c.brokers.store)
    ensures s.agents == Count(c.agents) && s.accounts == Count(c.accounts)
    ensures s.taxRegimes == Count(c.taxRegimes)
    ensures s.tradingPairs == Count(c.tradingPairs.store) && s.tradingRules == Count(c.tradingRules)
    ensures s.orders == Count(c.orders) && s.orderHistory == Count(c.orderHistory)
    ensures s.backtestRuns == Count(c.backtestRuns)
    ensures s.accountBalances == Count(c.accountBalances)
    ensures s.accountTransactions == Count(c.accountTransactions)
  {
    Statistics(
      Count(c.assets.store), Count(c.brokers.store), Count(c.agents), Count(c.accounts),
      Count(c.taxRegimes), Count(c.tradingPairs.store), Count(c.tradingRules),
      Count(c.orders), Count(c.orderHistory), Count(c.backtestRuns),
      Count(c.accountBalances), Count(c.accountTransactions), |Keys(c.marketData)|)
  }

  function ZeroStatistics(): Statistics {
    Statistics(0, 0, 0, 0, 0, 0, 0, 0, 0, 0, 0, 0, 0)
  }

  // ---------------------------------------------------------------------
  // Properties
  // ---------------------------------------------------------------------

  /** After a runtime reset the statistics report zero for the runtime
      repositories and the same counts as before for the configuration. */
  lemma RuntimeResetStatistics(c: BacktestContext)
    ensures GetStatistics(ResetRuntimeState(c))
      == GetStatistics(c).(orders := 0, orderHistory := 0, backtestRuns := 0, accountBalances := 0, accountTransactions := 0)
  {
  }

  /** A runtime reset keeps every configuration lookup: the same assets,
      brokers, pairs, rules and bars are found afterwards. */
  lemma RuntimeResetKeepsLookups(c: BacktestContext, code: string, symbol: string, broker: Id)
    ensures var c' := ResetRuntimeState(c);
      && EntityRepositories.GetByTicker(c'.assets, code) == EntityRepositories.GetByTicker(c.assets, code)
      && EntityRepositories.GetByCode(c'.brokers, code) == EntityRepositories.GetByCode(c.brokers, code)
      && EntityRepositories.GetByPairCode(c'.tradingPairs, code) == EntityRepositories.GetByPairCode(c.tradingPairs, code)
      && EntityRepositories.RulesByBrokerAndPair(c'.tradingRules, broker, code) == EntityRepositories.RulesByBrokerAndPair(c.tradingRules, broker, code)
      && MarketData.GetBars(c'.marketData, symbol, None, None) == MarketData.GetBars(c.marketData, symbol, None, None)
  {
  }

  /** Resetting the runtime state twice is the same as resetting it once. */
  lemma RuntimeResetIdempotent(c: BacktestContext)
    ensures ResetRuntimeState(ResetRuntimeState(c)) == ResetRuntimeState(c)
  {
  }

  /** `reset_all` returns any context to the state of a new one, and its
      statistics are all zero. */
  lemma ResetAllIsNew(c: BacktestContext)
    ensures ResetAll(c) == NewContext()
    ensures GetStatistics(ResetAll(c)) == ZeroStatistics()
  {
  }

  /** A runtime reset of a context with no configuration is a full reset. */
  lemma RuntimeResetOfEmptyConfiguration(c: BacktestContext)
    requires ConfigurationEmpty(c)
    ensures ResetRuntimeState(c) == ResetAll(c)
  {
  }
}
