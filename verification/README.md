# Backtester order lifecycle and ledger, modelled in Dafny

This project models the exact-arithmetic core of the `backtest` package. That core covers:

- the `TradingOrder` state machine;
- the immutable `SpotOrder` and its copy transitions;
- trading rules, with the margin formula and the order validator;
- the ledger: `Transaction`, the `Balance` snapshot, and balance reconciliation;
- the construction checks of the financial entities, of `DecisionAction` and of the backtest-run records;
- the in-memory repositories, with their secondary indices, time-sorted queries and `clear_run`;
- the `BacktestContext` that bundles all repositories.

How the Python is represented:

- `Decimal` values are `real`.
- UUIDs are `Id = nat`. Fresh ids are parameters.
- Datetimes are `int` timestamps.
- A `ValueError` raised during construction is the `Err` of a `Result`. Its error names the check that failed, so the order of the checks is part of every contract.
- Validators that return `(bool, message)` return `Option<error>`.
- A repository's `_storage` dict is a `Repo<K, V>`: a sequence of entries with distinct keys. `save` overwrites an entry in place or appends a new one, just as an insertion-ordered dict does. `get_all` returns the values in that order.
- Python's `sorted(..., key=...)` is the stable insertion sort `Seqs.SortBy`. Comprehensions are `Seqs.Filter`.

Mutating methods (`fill`, `close`, `cancel`, `add_overnight_fees`, every repository `save`/`delete`/`clear`) are pure functions. Each returns the new record or repository, so a changed order reaches a repository only when it is saved again (see "## Left out").

Modules and files:

| file | module | models |
|---|---|---|
| base.dfy | Base | `Option`, `Result`, Python's blank-string test |
| seqs.dfy | Seqs | comprehensions, stable `sorted`, `max(key=)`, first match |
| repository.dfy | Repository | `InMemoryRepository` |
| orders.dfy | Orders | `TradingOrder` |
| spot_order.dfy | SpotOrders | `SpotOrder` |
| trading_rules.dfy | TradingRules | `Fee`, `TradingRules` |
| transaction.dfy | Transactions | `Transaction` |
| balance.dfy | Balances | `Balance` |
| financial_entities.dfy | Entities | `Asset`, `TradingPair`, `Broker`, `TraderAgent`, `TaxRegime`, `Account` |
| decision_action.dfy | DecisionActions | `DecisionAction.validate` |
| backtest_run.dfy | Runs | `BacktestRun`, `AccountBalance`, `AccountTransaction` |
| entity_repositories.dfy | Indexed, EntityRepositories | code indices; entity repositories |
| balance_repository.dfy | BalanceRepository | `BalanceRepository` |
| transaction_repository.dfy | TransactionRepository | `TransactionRepository` |
| spot_order_repository.dfy | SpotOrderRepository | `SpotOrderRepository` |
| order_repositories.dfy | OrderRepositories | `OrderRepository`, `OrderHistoryRepository` |
| market_data_repository.dfy | MarketData | `MarketDataRepository` |
| context.dfy | Context | `BacktestContext` |

Where the prose description of the system and the code disagree, the model follows the code:

- The ticker, broker-code and pair-code lookups (`EntityRepositories.GetByTicker`, `GetByCode`, `GetByPairCode`) are modelled as written. The index is never cleaned when an entity is saved again under a new code, so a stale code can return an entity that no longer carries it (see "## Findings"). The corrected lookup `Indexed.Lookup` is modelled alongside and is proved to agree with the lookups as written whenever the index is consistent.

- `create_filled_copy` bounds the fill volume by the order's `volume`, not by `remaining_volume`. A pending order that already records fills can therefore be filled past its size. `SpotOrders.FillBoundIsVolumeExample` shows the remaining volume going negative.
- `create_cancelled_copy` does bound by `remaining_volume`.
- `fill_volume or volume` and `cancel_volume or remaining` treat an explicit `Decimal("0")` as absent. See `SpotOrders.ZeroVolumeMeansDefault`.
- `MarketDataRepository.count("")` counts every symbol, because the empty string is falsy. See `MarketData.EmptySymbolCountsAll`.
- `TradingPair` derives `pair_code` only when the code is the empty string. A non-empty code of whitespace is kept as given. See `Entities.BlankPairCodeKept`.
- The first-failure-wins validators (`validate_order`, `DecisionAction.validate`, every `__post_init__`) are modelled with their checks in source order. A later failure is never reported while an earlier one holds.

## Model

| member | source | states |
|---|---|---|
| Base.IsBlank | backtest/models/transaction.py:83 | `not s or not s.strip()`: true for the empty string, and exactly when every character is one `strip` removes |
| Base.BlankConcat | backtest/models/transaction.py:83 | a joined string is blank exactly when both parts are, so whitespace padding never makes a string pass the check |
| Base.OrDefault | backtest/models/spot_order.py:187 | Python's `x or default`: a non-zero value is kept, `None` and an explicit 0 both give the default, and the result is 0 only when the default is |
| Repository.Empty | backtest/repositories/base.py:19-21 | a new repository is well formed and holds nothing |
| Repository.Find | backtest/repositories/base.py:46-56 | the dict lookup: the position of the key if stored, none iff no entry carries it |
| Repository.Get | backtest/repositories/base.py:46-56 | `get` finds a value iff some entry has the id; the value found is the one stored under it and is among `get_all` |
| Repository.GetAll | backtest/repositories/base.py:58-65 | `get_all` lists every stored value, in storage order |
| Repository.Keys | backtest/repositories/base.py:58-65 | the stored ids, in the order their values are listed |
| Repository.Exists | backtest/repositories/base.py:95-105 | `exists` holds exactly when `get` finds the id |
| Repository.Save | backtest/repositories/base.py:23-44 | after `save`, `get` of that id returns the entity, every other id is unchanged, and the count grows by one exactly when the id was new (a second save overwrites) |
| Repository.SaveShape | backtest/repositories/base.py:43 | an existing key is overwritten in place, a new key is appended at the end, as with an insertion-ordered dict |
| Repository.Delete | backtest/repositories/base.py:67-80 | `delete` returns True iff the id existed; afterwards it does not exist, every other id is unchanged, and the count drops by one exactly when something was deleted |
| Repository.DeleteShape | backtest/repositories/base.py:67-80 | `del` cuts out the key's entry and keeps the remaining entries, and so `get_all`, in their old order; deleting a missing key changes nothing |
| Repository.Clear | backtest/repositories/base.py:91-93 | after `clear` the count is 0 and no id is found |
| Repository.CountIsDistinctKeys | backtest/repositories/base.py:82-89 | `count` equals the number of distinct stored ids |
| Repository.DeleteEach | backtest/repositories/balance_repository.py:208-209 | deleting a list of ids one by one removes exactly those ids and keeps every other entry; when the ids are distinct and all stored, the count drops by their number |
| Repository.KeysWhere | backtest/repositories/balance_repository.py:202-206 | the ids collected are exactly those whose stored value satisfies the condition, one per matching value and each only once |
| Repository.DeleteWhere | backtest/repositories/transaction_repository.py:171-180 | collecting the matching ids and deleting them removes exactly the matching entries, returns how many matching values were stored, lowers the count by exactly that number, and leaves the others unchanged |
| Seqs.Filter | backtest/repositories/order_repositories.py:13-23 | a comprehension keeps exactly the elements satisfying the condition, never more of one than the input had |
| Seqs.FilterAppend | backtest/repositories/market_data_repository.py:32-40 | filtering a concatenation is concatenating the filtered parts |
| Seqs.TwoStageFilter | backtest/repositories/spot_order_repository.py:33-44 | a comprehension followed by the optional `if run_id is not None` comprehension keeps exactly what the combined condition keeps |
| Seqs.FilterSplit | backtest/repositories/order_repositories.py:35-38 | filtering by one of two exclusive conditions gives the two filtered lists together, with multiplicities |
| Seqs.SortBy | backtest/repositories/balance_repository.py:62 | `sorted(key=...)` returns a permutation of its input, ordered by the key, and is stable: the elements sharing any one key keep their input order |
| Seqs.InsertBy | backtest/repositories/balance_repository.py:62 | inserting into a sorted list keeps it sorted and adds exactly that element |
| Seqs.SortByFilter | backtest/repositories/balance_repository.py:82-104 | sorting and then filtering gives the same list as filtering and then sorting |
| Seqs.LastMaxIndex | backtest/repositories/balance_repository.py:79-80 | the position `[-1]` of a stable sort picks: its key is maximal and every later element's key is strictly smaller |
| Seqs.SortByLast | backtest/repositories/balance_repository.py:62-80 | the last element of the stable sort is the last element, in input order, with the maximal key |
| Seqs.LastOfFilteredSort | backtest/repositories/balance_repository.py:96-104 | the last element of a sorted list filtered afterwards is the last element with the maximal key among those the filter keeps |
| Seqs.FilterSorted | backtest/repositories/balance_repository.py:99-101 | filtering a sorted list keeps it sorted |
| Seqs.Query | backtest/repositories/transaction_repository.py:50-61 | a filter and then `sorted`: sorted by the key, and holds exactly the elements satisfying the condition, with their multiplicities |
| Seqs.StagedQuery | backtest/repositories/spot_order_repository.py:117-134 | filtering in stages before sorting gives the same list as filtering once by the conjunction and then stably sorting |
| Seqs.LastIsMax | backtest/repositories/balance_repository.py:79-80 | the last element of a sorted list has a maximal key |
| Seqs.FirstMaxIndex | backtest/repositories/market_data_repository.py:77-79 | `max(key=...)`: an element whose key is not below any other, and the first such one |
| Seqs.FirstIndex | backtest/repositories/entity_repositories.py:179-182 | a loop returning on its first match: no earlier element matches, and the one found does |
| Orders.Create | backtest/models/orders.py:125-146 | construction fails on a blank pair code, then volume ≤ 0, then create price ≤ 0, then a set leverage ≤ 0, then a set limit price ≤ 0, each error reported exactly when its check fails and every earlier one passes; a valid order with neither parent nor root becomes its own root, and nothing else is changed |
| Orders.TotalFees | backtest/models/orders.py:174-182 | with no negative stage the total is at least each of the five fee stages, and 0 exactly when every stage is 0 |
| Orders.IsActive | backtest/models/orders.py:169-171 | an order is active exactly while it is neither CLOSED nor CANCELLED |
| Orders.Fill | backtest/models/orders.py:194-217 | `fill` succeeds iff the order is PENDING, otherwise it fails with the current status and writes nothing; on success the order is FILLED with the fill time, price, fees and margin, the fee total changes by the new fill fee only, and every other field is unchanged |
| Orders.Close | backtest/models/orders.py:219-249 | `close` succeeds iff the order is FILLED with a fill price; it sets CLOSED, gross P&L signed by direction, and net P&L = gross − all five fee accumulators including the new close fee; every other field is unchanged |
| Orders.Cancel | backtest/models/orders.py:251-269 | `cancel` succeeds iff the order is PENDING; it sets CANCELLED and net P&L = −total fees, and changes no other field but the cancel time and fee |
| Orders.AddOvernightFees | backtest/models/orders.py:271-284 | negative fees are rejected; otherwise exactly `fees` is added to the overnight accumulator and to the total, net P&L is recomputed only for a CLOSED order, and no other field changes |
| Orders.TransitionsFollowStateMachine | backtest/models/orders.py:210-269 | every successful transition is an edge of PENDING → FILLED → CLOSED or PENDING → CANCELLED; overnight fees keep the status |
| Orders.TerminalStates | backtest/models/orders.py:169-171 | a CLOSED or CANCELLED order accepts no fill, close or cancel and is not active |
| Orders.TransitionsPreservePnl | backtest/models/orders.py:243-284 | every transition keeps the invariant that a CLOSED order's net P&L is its gross P&L less its total fees |
| Orders.CreatedPendingIsConsistent | backtest/models/orders.py:125-171 | a newly constructed order in any status but CLOSED satisfies that invariant; a PENDING one is also active |
| Orders.GrossPnlSigns | backtest/models/orders.py:243-247 | LONG and SHORT gross P&L are opposite; a rise in price is a LONG gain and a SHORT loss |
| Orders.LongGainExample | backtest/models/orders.py:243-247 | a LONG order of volume 1 filled at 100 and closed at 110 makes a gross P&L of +10 |
| Orders.ShortLossExample | backtest/models/orders.py:243-247 | the same prices on a SHORT order make a gross P&L of -10 |
| Orders.LongRoundTripExample | backtest/models/orders.py:194-284 | 0.1 LONG filled at 50000 and closed at 55000, with 5.01 + 3 × 0.50 + 5.50 fees, gives gross 500, fees 12.01, net 487.99 |
| SpotOrders.Create | backtest/models/spot_order.py:94-112 | construction fails on a blank pair code, then volume ≤ 0, then order number < 0, then limit price ≤ 0; an order with neither parent nor root becomes its own root |
| SpotOrders.TotalFees | backtest/models/spot_order.py:145-154 | absent fees count as 0, an order with only a creation fee totals that fee, and with no negative fee the total is at least each fee present |
| SpotOrders.RemainingVolume | backtest/models/spot_order.py:157-161 | an untouched order has its whole volume remaining, non-negative fills and cancellations never raise it, and nothing remains exactly when filled plus cancelled equals the volume |
| SpotOrders.IsActive | backtest/models/spot_order.py:130-132 | a spot order is active exactly while it is in none of the states FILLED, CANCELLED or CLOSED |
| SpotOrders.FilledCopy | backtest/models/spot_order.py:163-214 | a fill of a PENDING order succeeds iff 0 < (fill volume or volume) ≤ volume; the copy is FILLED with the fill fields, carries id, parent, root, volume, creation fee and cancel fields over, and passes construction again |
| SpotOrders.CancelledCopy | backtest/models/spot_order.py:216-263 | a cancellation of a PENDING order succeeds iff 0 < (cancel volume or remaining) ≤ remaining; the copy is CANCELLED with the fill fields and identity carried over |
| SpotOrders.ZeroVolumeMeansDefault | backtest/models/spot_order.py:184-185 | an explicit zero fill or cancel volume behaves exactly as an absent one |
| SpotOrders.FillRemaining | backtest/models/spot_order.py:157-161 | after a fill the remaining volume is volume − fill − earlier cancellation |
| SpotOrders.CancelRemaining | backtest/models/spot_order.py:233-263 | after a cancellation the remaining volume never falls below the earlier cancelled amount, and cancelling the default leaves nothing remaining |
| SpotOrders.CopyFees | backtest/models/spot_order.py:145-154 | a fill copy's fee total replaces the fill fee and a cancel copy's replaces the cancel fee; the rest of the fees carry over |
| SpotOrders.CopiesAreTerminal | backtest/models/spot_order.py:130-132 | a filled or cancelled copy is inactive and refuses every further fill or cancel |
| SpotOrders.RootExample | tests/test_models/test_spot_order.py:62-78 | an order with no parent gets its own id as root, and its filled copy keeps both |
| SpotOrders.AccountingExample | tests/test_models/test_spot_order.py:239-277 | 10 − 6 − 2 leaves 2 remaining; fees 5 + 10 + 2 total 17, and absent fees count as 0 |
| SpotOrders.FillBoundIsVolumeExample | backtest/models/spot_order.py:184-189 | an order of 10 already holding 6 filled and 2 cancelled still accepts a fill of 10 |
| TradingRules.CreateFee | backtest/models/trading_rules.py:57-60 | a fee is accepted iff its amount is non-negative |
| TradingRules.Create | backtest/models/trading_rules.py:102-133 | construction fails on a blank pair code, then a NO_LEVERAGE value other than 1, then a non-positive leverage value, then ON_FIXED_TIME without a charge time, a negative minimum volume, notional or margin, and both directions disallowed, each error reported exactly when its check fails and every earlier one passes |
| TradingRules.MarginRequired | backtest/models/trading_rules.py:135-161 | margin is notional for NO_LEVERAGE, volume × value for FLAT_MARGIN_PER_VOLUME, and notional ÷ value for MARGIN_MULTIPLIER |
| TradingRules.ValidateOrder | backtest/models/trading_rules.py:163-208 | an order passes iff all five checks hold, and each failure (direction, minimum volume, minimum notional, minimum margin, available margin) is reported exactly when its check fails and the earlier ones pass |
| TradingRules.WellFormedMargin | backtest/models/trading_rules.py:108-116 | the margin of well-formed rules is defined and non-negative for non-negative inputs |
| TradingRules.MultiplierScalesNotional | backtest/models/trading_rules.py:158-161 | a multiplier of 1 charges the full notional, and any larger one charges strictly less |
| TradingRules.ValidationIgnoresFees | backtest/models/trading_rules.py:163-208 | the validator's answer does not depend on the fee configuration |
| TradingRules.MarginExample | backtest/repositories/setup_helpers.py:184-194 | 10× MARGIN_MULTIPLIER on 0.1 @ 50000 needs margin 500: 499 available is refused, 500 accepted |
| TradingRules.DirectionFirstExample | backtest/models/trading_rules.py:184-187 | a disallowed direction is reported even when every later check would fail as well |
| Transactions.Create | backtest/models/transaction.py:81-84 | a transaction is accepted iff its description is not blank |
| Transactions.TotalChange | backtest/models/transaction.py:87-89 | the total change is 0 exactly when the two deltas cancel, as a margin move does, and with non-negative deltas it is at least each one |
| Transactions.MarginMovesConserveTotal | tests/test_models/test_transaction.py:36-67 | reserving or returning margin moves value between the components and leaves the total unchanged, and a return undoes a reserve of the same amount |
| Transactions.AnySignAccepted | backtest/models/transaction.py:71-89 | deltas of any sign are accepted, and the total change is their sum |
| Transactions.TotalChangeExample | tests/test_models/test_transaction.py:102-143 | 50 + 30 = 80, −100 + −50 = −150, and blank descriptions are refused |
| Balances.Create | backtest/models/balance.py:42-47 | a snapshot is accepted iff both components are non-negative, available being checked first |
| Balances.Total | backtest/models/balance.py:50-52 | for a snapshot with non-negative components the total is at least each component and 0 only when both are |
| Balances.Utilization | backtest/models/balance.py:55-59 | utilization × total = unavailable × 100, and 0 when the total is 0 |
| Balances.UtilizationBounds | backtest/models/balance.py:55-59 | for a valid snapshot utilization lies in [0, 100], is 0 iff nothing is reserved and 100 iff everything is |
| Balances.UtilizationExample | tests/test_models/test_balance.py:30-117 | the test vectors: 30 %, 5 %, 100 %, 0 % for a zero total, and the two negative-component rejections |
| Entities.CreateAsset | backtest/models/financial_entities.py:37-44 | an asset is accepted iff ticker and name are not blank and the minimum unit is positive, checked in that order |
| Entities.CreatePair | backtest/models/financial_entities.py:69-84 | a pair is accepted iff factor, contract size and minimum unit are positive, and each error is reported exactly when its check fails and the earlier ones pass; an empty code becomes base ticker ++ quote ticker and any other code is kept |
| Entities.CreateBroker | backtest/models/financial_entities.py:105-110 | a broker is accepted iff name and code are not blank |
| Entities.CreateAgent | backtest/models/financial_entities.py:127-130 | an agent is accepted iff its name is not blank |
| Entities.CreateTaxRegime | backtest/models/financial_entities.py:149-156 | a tax regime is accepted iff its name is not blank and both rates lie in [0, 1] |
| Entities.CreateAccount | backtest/models/financial_entities.py:179-182 | an account is accepted iff its initial balance is non-negative |
| Entities.DerivedPairCode | backtest/models/financial_entities.py:79-84 | a derived pair code is never blank, and constructing the constructed pair again changes nothing |
| Entities.BlankPairCodeKept | backtest/models/financial_entities.py:81-84 | a non-empty pair code made only of whitespace is kept unchanged, so the pair's code is blank |
| Entities.PairCodeExample | examples/new_models_demo.py:55-62 | BTC/USD with no code gets "BTCUSD", an explicit "XBT" is kept, and a withholding rate of 1.5 is refused |
| DecisionActions.FirstBadChunk | backtest/models/decision_action.py:151-156 | no error iff every chunk has a positive volume; otherwise the error names the first offending chunk and whether its volume is missing or non-positive |
| DecisionActions.ActionSpecific | backtest/models/decision_action.py:116-156 | the action-type checks pass iff the action carries what its type requires |
| DecisionActions.Validate | backtest/models/decision_action.py:104-166 | valid iff every applicable check passes; a blank pair code is reported before anything else, then the action-specific error is reported whenever there is one, and leverage, stop-loss and take-profit errors are each reported exactly when that check is the first to fail |
| DecisionActions.RequiredFields | backtest/models/decision_action.py:116-149 | creates need volume, then direction, and limit creates a price; order commands need an order id; a split without an order id is refused for that, one with fewer than two chunks for that, and otherwise its first bad chunk is reported |
| DecisionActions.MarketCreateNeedsNoPrice | backtest/models/decision_action.py:116-131 | the price of a market create never affects validation |
| DecisionActions.ValidateExample | backtest/models/decision_action.py:104-166 | a market create validates; a limit create without price, a close without order id, a split with a missing chunk volume or a single chunk, and a blank pair are each refused with their own error |
| Runs.CreateRun | backtest/models/backtest_run.py:36-43 | a run is accepted iff start precedes end and there is at least one trading pair and one agent, checked in that order |
| Runs.CreateAccountBalance | backtest/models/backtest_run.py:69-77 | a snapshot is accepted iff its total is within 0.01 of available + unavailable |
| Runs.CreateAccountTransaction | backtest/models/backtest_run.py:101-104 | a record is accepted iff its type is not blank |
| Runs.AccountBalanceExample | backtest/models/backtest_run.py:69-77 | totals off by 0.01 pass and by 0.02 fail, and a negative component is not refused |
| Indexed.EmptyIndexed | backtest/repositories/entity_repositories.py:21-24 | a new indexed repository is well formed and empty |
| Indexed.SaveIndexed | backtest/repositories/entity_repositories.py:26-30 | `save` stores the entity under its id and points the code at that id, changing no other id or code |
| Indexed.DeleteIndexed | backtest/repositories/base.py:67-80 | `delete` on an indexed repository removes the entity and leaves the index as it was |
| Indexed.LookupAsWritten | backtest/repositories/entity_repositories.py:32-45 | the index lookup as written: none without an index entry, else whatever is stored under the id it points at |
| Indexed.Lookup | backtest/repositories/entity_repositories.py:32-45 | the corrected lookup: it returns only an entity that really carries the code, agrees with the lookup as written whenever that one is right, and finds every entity it does |
| Indexed.ClearIndexed | backtest/repositories/entity_repositories.py:47-50 | `clear` empties storage and index, so every lookup fails |
| Indexed.SaveThenLookup | backtest/repositories/entity_repositories.py:26-45 | a lookup of the code just saved returns the saved entity |
| Indexed.ConsistentIndex | backtest/repositories/entity_repositories.py:26-45 | while the index is consistent the two lookups agree; a save keeps it consistent unless the id is moved to a new code, and a delete always does |
| EntityRepositories.SaveAsset | backtest/repositories/entity_repositories.py:26-30 | after saving an asset it is stored under its id and its ticker points at that id and finds it; every other id and every other ticker is unchanged |
| EntityRepositories.GetByTicker | backtest/repositories/entity_repositories.py:32-45 | the lookup as written: nothing without an index entry, otherwise whatever is stored under the id the index names, which may carry another ticker; while the index is consistent it is the corrected lookup and returns only an asset with that ticker |
| EntityRepositories.SaveBroker | backtest/repositories/entity_repositories.py:61-65 | after saving a broker it is stored under its id and its code points at that id and finds it; every other id and every other code is unchanged |
| EntityRepositories.GetByCode | backtest/repositories/entity_repositories.py:67-80 | the lookup as written: nothing without an index entry, otherwise whatever is stored under the id the index names; while the index is consistent it returns only a broker with that code |
| EntityRepositories.SavePair | backtest/repositories/entity_repositories.py:134-138 | after saving a trading pair it is stored under its id and its pair code points at that id and finds it; every other id and every other pair code is unchanged |
| EntityRepositories.GetByPairCode | backtest/repositories/entity_repositories.py:140-153 | the lookup as written: nothing without an index entry, otherwise whatever is stored under the id the index names; while the index is consistent it returns only a pair with that code |
| EntityRepositories.ClearedLookupsFail | backtest/repositories/entity_repositories.py:47-50 | after `clear` no ticker, broker code or pair code finds anything |
| EntityRepositories.StaleTickerExample | backtest/repositories/entity_repositories.py:26-45 | re-saving asset 1 from "BTC" to "ETH" makes the lookup as written answer "BTC" with the ETH asset, while the corrected lookup finds nothing |
| EntityRepositories.AccountsByAgent | backtest/repositories/entity_repositories.py:96-106 | exactly the stored accounts of that agent |
| EntityRepositories.AccountsByBroker | backtest/repositories/entity_repositories.py:108-118 | exactly the stored accounts at that broker |
| EntityRepositories.RulesByBrokerAndPair | backtest/repositories/entity_repositories.py:164-182 | none iff no stored rule matches both keys; otherwise the first matching rule in storage order |
| EntityRepositories.RulesByBroker | backtest/repositories/entity_repositories.py:184-195 | exactly the stored rules of that broker |
| EntityRepositories.PairLookupWithinBroker | backtest/repositories/entity_repositories.py:164-195 | the broker-and-pair lookup finds a rule iff the broker's rules contain one for that pair |
| BalanceRepository.SaveBalance | backtest/repositories/balance_repository.py:20-27 | saving keys the balance by its balance id and changes no other |
| BalanceRepository.GetByAccount | backtest/repositories/balance_repository.py:36-62 | exactly the account's balances, optionally of one run, stably sorted by time, so balances with equal timestamps stay in storage order |
| BalanceRepository.GetLatestBalance | backtest/repositories/balance_repository.py:64-80 | none iff the account has no balance in the run, else the last stored of the balances with the latest timestamp |
| BalanceRepository.GetBalanceAtTime | backtest/repositories/balance_repository.py:82-104 | none iff no balance of the account and run is at or before the time, else the last stored of those balances with the latest timestamp |
| BalanceRepository.SumsAgree | backtest/models/transaction.py:87-89 | summing the available deltas and the unavailable deltas gives the sum of the total changes |
| BalanceRepository.SumAvailable | backtest/repositories/balance_repository.py:138-139 | the sum of the available deltas, never negative when no delta is |
| BalanceRepository.SumUnavailable | backtest/repositories/balance_repository.py:138-140 | the sum of the unavailable deltas, never negative when no delta is |
| BalanceRepository.SumTotalChange | backtest/models/transaction.py:87-89 | the sum of the transactions' total changes, never negative when no total change is |
| BalanceRepository.SumsSplit | backtest/repositories/balance_repository.py:130-140 | summing a history in two parts and adding the results gives the sums of the whole history |
| BalanceRepository.ApplyTransactions | backtest/repositories/balance_repository.py:130-140 | the loop adds every transaction's two deltas to the starting components |
| BalanceRepository.Reconcile | backtest/repositories/balance_repository.py:106-151 | reconciliation succeeds iff both summed components are non-negative, fails with the available error iff the available sum is negative, and with the unavailable error iff only the unavailable sum is; the new balance starts from the initial one (or 0/0), is stored under the new id, and nothing else changes |
| BalanceRepository.Conservation | backtest/repositories/balance_repository.py:138-140 | the reconciled total is the initial total plus the sum of the transactions' total changes |
| BalanceRepository.ClearRun | backtest/repositories/balance_repository.py:192-211 | removes exactly the run's balances, returns how many there were, lowers the count by exactly that number, and keeps every other one |
| BalanceRepository.ReconcileExample | tests/test_repositories/test_balance_repository.py:114-193 | 100000 with a 1000 margin reserve and a 10 fee gives 98990 available and 1000 reserved; from nothing, a deposit gives 100000; a first fee from nothing is refused |
| TransactionRepository.SaveTransaction | backtest/repositories/transaction_repository.py:19-26 | saving keys the transaction by its id and changes no other |
| TransactionRepository.GetByAccount | backtest/repositories/transaction_repository.py:35-61 | exactly the account's transactions, optionally of one run, ascending by time |
| TransactionRepository.GetByOrder | backtest/repositories/transaction_repository.py:63-76 | exactly the transactions of that order, with their multiplicities, ascending by time |
| TransactionRepository.GetByType | backtest/repositories/transaction_repository.py:78-104 | exactly the transactions of that type, optionally of one run, ascending by time |
| TransactionRepository.GetByTimeRange | backtest/repositories/transaction_repository.py:106-134 | the account's transactions with start ≤ time ≤ end (inclusive), no upper bound without an end, with their multiplicities, ascending by time |
| TransactionRepository.GetSince | backtest/repositories/transaction_repository.py:136-159 | the account's transactions strictly after the time, with their multiplicities, ascending by time |
| TransactionRepository.SinceExcludesBoundary | backtest/repositories/transaction_repository.py:123-159 | "since t" is "from t" without the transactions at exactly t, and a range from t to t holds only those |
| TransactionRepository.RangeWithinAccount | backtest/repositories/transaction_repository.py:123-134 | a time range never returns a transaction the account query does not |
| TransactionRepository.ClearRun | backtest/repositories/transaction_repository.py:161-180 | removes exactly the run's transactions, returns how many there were, lowers the count by exactly that number, and keeps every other one |
| TransactionRepository.ClearRunExample | backtest/repositories/transaction_repository.py:171-180 | two transactions of run 5 and one of run 6: clearing run 5 deletes 2 and keeps the run-6 one |
| SpotOrderRepository.SaveOrder | backtest/repositories/base.py:23-44 | saving keys the spot order by its id and changes no other |
| SpotOrderRepository.GetByStatus | backtest/repositories/spot_order_repository.py:18-44 | exactly the orders with that status, optionally of one run, ascending by creation time |
| SpotOrderRepository.GetByAgent | backtest/repositories/spot_order_repository.py:46-72 | exactly the agent's orders, optionally of one run, ascending by creation time |
| SpotOrderRepository.GetByAccount | backtest/repositories/spot_order_repository.py:74-100 | exactly the account's orders, optionally of one run, ascending by creation time |
| SpotOrderRepository.GetByTradingPair | backtest/repositories/spot_order_repository.py:136-162 | exactly the orders on that pair, optionally of one run, ascending by creation time |
| SpotOrderRepository.GetPendingOrders | backtest/repositories/spot_order_repository.py:102-134 | exactly the PENDING orders, optionally of one agent and one run, ascending by creation time |
| SpotOrderRepository.GetByRootId | backtest/repositories/spot_order_repository.py:164-177 | exactly the orders of that root chain, with their multiplicities, ascending by creation time |
| SpotOrderRepository.ClearRun | backtest/repositories/spot_order_repository.py:179-198 | removes exactly the run's orders, returns how many there were, lowers the count by exactly that number, and keeps every other one |
| SpotOrderRepository.PendingIsStatusQuery | backtest/repositories/spot_order_repository.py:102-134 | without an agent, the pending query is the status query for PENDING |
| SpotOrderRepository.PendingOfAgent | backtest/repositories/spot_order_repository.py:46-134 | an agent's pending orders are exactly its orders that are PENDING |
| SpotOrderRepository.SaveKeepsKeyedById | backtest/repositories/base.py:23-44 | saving keeps every order stored under its own id |
| SpotOrderRepository.SavedCopyLeavesPending | backtest/models/spot_order.py:163-263 | saving a filled or cancelled copy over its original removes the order from every pending query and lists it under its new status |
| SpotOrderRepository.FillLifecycle | backtest/models/spot_order.py:163-214 | after a filled copy is saved it is listed as FILLED and no longer pending |
| SpotOrderRepository.PendingExample | backtest/repositories/spot_order_repository.py:102-134 | of three orders, the two pending ones of run 5 come back oldest first, and agent 8 has one pending |
| OrderRepositories.SaveOrder | backtest/repositories/base.py:23-44 | saving keys the trading order by its id and changes no other |
| OrderRepositories.GetByRunId | backtest/repositories/order_repositories.py:13-23 | exactly the orders of that run |
| OrderRepositories.GetActiveOrders | backtest/repositories/order_repositories.py:25-38 | exactly the agent's PENDING or FILLED orders |
| OrderRepositories.GetByAgent | backtest/repositories/order_repositories.py:40-50 | exactly the agent's orders |
| OrderRepositories.GetByAccount | backtest/repositories/order_repositories.py:52-62 | exactly the account's orders |
| OrderRepositories.GetByStatus | backtest/repositories/order_repositories.py:64-82 | exactly the orders with that status, optionally of one agent |
| OrderRepositories.GetPendingOrders | backtest/repositories/order_repositories.py:84-86 | the same list as the status query for PENDING: exactly those orders, optionally of one agent, in storage order |
| OrderRepositories.GetFilledOrders | backtest/repositories/order_repositories.py:88-90 | the same list as the status query for FILLED: exactly those orders, optionally of one agent, in storage order |
| OrderRepositories.GetClosedOrders | backtest/repositories/order_repositories.py:92-94 | the same list as the status query for CLOSED: exactly those orders, optionally of one agent, in storage order |
| OrderRepositories.SaveKeepsKeyedById | backtest/repositories/base.py:23-44 | saving keeps every stored trading order under its own id |
| OrderRepositories.SavedTransitionLeavesPending | backtest/repositories/order_repositories.py:64-94 | saving a filled, closed or cancelled order over its stored original removes it from every pending query and lists it under its new status |
| OrderRepositories.FillThenSave | backtest/models/orders.py:194-217 | a stored pending order is listed as pending until its filled value is saved again; afterwards it is listed as filled and active, under the same id, and no longer as pending |
| OrderRepositories.ActiveIsPendingPlusFilled | backtest/repositories/order_repositories.py:25-94 | an agent's active orders are its pending ones and its filled ones, with multiplicities |
| OrderRepositories.StatusesPartitionAgentOrders | backtest/repositories/order_repositories.py:25-94 | an agent's orders split into active, cancelled and closed, with nothing lost or counted twice |
| OrderRepositories.SaveSnapshot | backtest/repositories/order_repositories.py:100-110 | saving a snapshot keys it by its id and grows the count by one exactly when the id is new |
| OrderRepositories.GetHistoryForOrder | backtest/repositories/order_repositories.py:112-126 | exactly the order's snapshots, ascending by time |
| OrderRepositories.GetLatestSnapshot | backtest/repositories/order_repositories.py:128-139 | none iff the order has no snapshot, else the last stored of its snapshots with the latest timestamp |
| OrderRepositories.NewestSnapshotIsLatest | backtest/repositories/order_repositories.py:100-139 | after saving a snapshot no older than the order's others, the latest snapshot has its timestamp |
| OrderRepositories.HistoryIgnoresOtherOrders | backtest/repositories/order_repositories.py:100-126 | saving a new snapshot of another order leaves an order's history unchanged |
| MarketData.AddBar | backtest/repositories/market_data_repository.py:21-30 | appends the bar to its symbol's list, creating the list if absent; other symbols are unchanged, the total grows by one, and a new symbol is listed last |
| MarketData.AddBars | backtest/repositories/market_data_repository.py:32-40 | adding bars one by one appends each symbol's bars in input order, and the total grows by their number |
| MarketData.GetBars | backtest/repositories/market_data_repository.py:42-65 | nothing for an unknown symbol, else exactly its bars with start ≤ time ≤ end, ascending by time |
| MarketData.GetLatestBar | backtest/repositories/market_data_repository.py:67-79 | none iff the symbol has no bars, else the first bar with a maximal timestamp |
| MarketData.GetSymbols | backtest/repositories/market_data_repository.py:81-88 | every symbol with data, once each |
| MarketData.ClearData | backtest/repositories/market_data_repository.py:90-92 | afterwards no symbol and no bar remain |
| MarketData.CountBars | backtest/repositories/market_data_repository.py:94-106 | the symbol's bar count for a non-empty symbol, else the total over all symbols |
| MarketData.LoadedBarsComeBack | backtest/repositories/market_data_repository.py:32-106 | after loading bars into an empty repository, the counts and the range query return exactly the loaded bars of each symbol |
| MarketData.EmptySymbolCountsAll | backtest/repositories/market_data_repository.py:103-106 | `count("")` is the total, as `count()` is |
| MarketData.LatestBarExample | backtest/repositories/market_data_repository.py:67-79 | loading BTC bars at 20 and 10 makes the bar at 20 the latest |
| Context.NewContext | backtest/repositories/context.py:50-67 | a new context has every repository empty and well formed |
| Context.ResetRuntimeState | backtest/repositories/context.py:69-80 | orders, history, runs, balances and transactions are emptied, and the configuration is untouched |
| Context.ResetAll | backtest/repositories/context.py:82-96 | every repository, indices included, is emptied |
| Context.GetStatistics | backtest/repositories/context.py:98-119 | each of the twelve repository figures is that repository's count, and market data reports its number of symbols |
| Context.RuntimeResetStatistics | backtest/repositories/context.py:69-119 | after a runtime reset the runtime counts are 0 and the configuration counts are as before |
| Context.RuntimeResetKeepsLookups | backtest/repositories/context.py:69-80 | a runtime reset changes no asset, broker, pair, rule or bar lookup |
| Context.RuntimeResetIdempotent | backtest/repositories/context.py:69-80 | a second runtime reset changes nothing |
| Context.ResetAllIsNew | backtest/repositories/context.py:50-96 | `reset_all` gives back a new context, with all statistics 0 |
| Context.RuntimeResetOfEmptyConfiguration | backtest/repositories/context.py:69-96 | with no configuration the runtime reset is a full reset |

## Left out

- Decimal context: Python's `Decimal` rounds the result of every arithmetic operation to 28 significant digits. That includes the notional `volume * price * contract_size`, the margin, the reconcile sums, the fee totals and the utilization. `real` is exact, so the model agrees with the source only while no intermediate result needs more than 28 digits.
- Fresh ids and clocks: `uuid4()` defaults and `datetime.now()` defaults become ordinary fields, so every id and timestamp is supplied by the caller.
- The runtime `hasattr`/`isinstance` id checks of `InMemoryRepository.save` (backtest/repositories/base.py:36-41): every stored entity has a typed id field, so the "no id" error cannot arise.
- Which id field a repository keys by is fixed per repository (`balance_id`, `transaction_id`, `id`) rather than found by the `hasattr` chain.
- `BalanceRepository.get`/`delete` and `TransactionRepository.get`/`delete` are the generic `Repository.Get`/`Repository.Delete`; the overrides only rename the key.
- `get_balance_history_df` (pandas), every `__repr__`, `to_dict`, and the wording of error messages.
- The global context singleton (backtest/repositories/context.py:135-160): ambient mutable state outside the context's own operations.
- The `market_data` dict carried in `BacktestRun` and the bar validation of `MarketBar`: they belong to the float-based data stack, which is not part of this model. `MarketData.Bar` carries the OHLCV fields as `real`, but no operation here reads the prices or the volume, and the validation of those fields is not modelled.
- Fee amounts in `TradingRules` are stored but not applied: the source computes fees elsewhere, in code that is not part of this model.
- The `is_pending`/`is_filled`/`is_closed`/`is_cancelled`/`is_market_order`/`is_limit_order` properties: each is a one-line status or field test, used inside the contracts rather than modelled separately. `is_active` is modelled, as `Orders.IsActive` and `SpotOrders.IsActive`.
- Immutability of frozen dataclasses (`SpotOrder`, `Transaction`, `Balance`, the entities) is not stated as a property: Dafny datatypes are immutable values, so a frozen record cannot change by construction.
- A split chunk that has a `volume` key holding `None` makes the source compare `None` with 0 and raise `TypeError`. A chunk is modelled as `Chunk(volume: Option<real>)`, whose `None` is the absent key (the `ChunkMissingVolume` refusal), so a present-but-`None` volume cannot be expressed and that `TypeError` is not modelled.
- `clear_run` iterates over the stored values and deletes by the entity's own id field; the model deletes the matching storage keys, which coincide whenever every entity is stored under its own id (as `save` guarantees).
- SpotOrders.TotalFees: its own contract states bounds and the cases with absent fees, not the full sum; the full accounting is stated by SpotOrders.CopyFees and SpotOrders.AccountingExample.
- SpotOrders.RemainingVolume: its own contract states the untouched case, the upper bound and when nothing remains, not the exact difference; the accounting is stated by SpotOrders.FillRemaining and SpotOrders.CancelRemaining.
- OrderRepositories.SaveOrder, Orders.Fill, Orders.Close, Orders.Cancel, Orders.AddOvernightFees: the source's repository stores a reference to the mutable order, so a transition applied to a saved order shows in storage at once, without another `save`. Here the transitions return a new value and the stored order changes only when the caller saves that value again (OrderRepositories.FillThenSave states both sides). Aliasing between the repository and the caller is not modelled.

## Findings

| source | as written | input that shows it | evidently intended | confidence | as-written member | corrected member |
|---|---|---|---|---|---|---|
| backtest/repositories/entity_repositories.py:26-45 (also 61-80 and 134-153) | `save` points the new ticker at the id but never removes the id's old ticker entry, and `get_by_ticker` returns whatever is stored under the id the index names | save asset 1 with ticker "BTC", then save asset 1 again with ticker "ETH": `get_by_ticker("BTC")` returns the ETH asset | a ticker (broker code, pair code) lookup returns only an entity that carries that code | not executed | Indexed.LookupAsWritten, EntityRepositories.GetByTicker, EntityRepositories.GetByCode, EntityRepositories.GetByPairCode, EntityRepositories.StaleTickerExample | Indexed.Lookup (with Indexed.SaveThenLookup and Indexed.ConsistentIndex) |
