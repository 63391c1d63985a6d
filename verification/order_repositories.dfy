/** `OrderRepository` and `OrderHistoryRepository`: trading orders keyed by
    id, queried with plain comprehensions (storage order, no sorting), and
    the per-order history of P&L snapshots. */
module OrderRepositories {
  import opened Base
  import opened Seqs
  import opened Repository
  import opened OrderEnums
  import opened Orders

  type OrderRepo = Repo<Id, TradingOrder>

  /** `save` (inherited): keyed by the order id. */
  function SaveOrder(r: OrderRepo, o: TradingOrder): (r': OrderRepo)
    requires Valid(r)
    ensures Valid(r')
    ensures Get(r', o.id) == Some(o)
    ensures forall k :: k != o.id ==> Get(r', k) == Get(r, k)
  {
    Save(r, o.id, o)
  }

  /** `get_by_run_id`: the run's orders in storage order. */
  function GetByRunId(r: OrderRepo, run: Id): (os: seq<TradingOrder>)
    ensures forall o :: o in os <==> o in GetAll(r) && o.runId == run
    ensures multiset(os) <= multiset(GetAll(r))
  {
    Filter(GetAll(r), (o: TradingOrder) => o.runId == run)
  }

  function ActiveOf(agent: Id): TradingOrder -> bool {
    (o: TradingOrder) => o.agentId == agent && IsActive(o)
  }

  /** `get_active_orders`: the agent's pending or filled orders. */
  function GetActiveOrders(r: OrderRepo, agent: Id): (os: seq<TradingOrder>)
    ensures forall o :: o in os <==> o in GetAll(r) && o.agentId == agent && o.status in {Pending, Filled}
    ensures multiset(os) <= multiset(GetAll(r))
  {
    Filter(GetAll(r), ActiveOf(agent))
  }

  /** `get_by_agent`. */
  function GetByAgent(r: OrderRepo, agent: Id): (os: seq<TradingOrder>)
    ensures forall o :: o in os <==> o in GetAll(r) && o.agentId == agent
    ensures multiset(os) <= multiset(GetAll(r))
  {
    Filter(GetAll(r), (o: TradingOrder) => o.agentId == agent)
  }

  /** `get_by_account`. */
  function GetByAccount(r: OrderRepo, account: Id): (os: seq<TradingOrder>)
    ensures forall o :: o in os <==> o in GetAll(r) && o.accountId == account
    ensures multiset(os) <= multiset(GetAll(r))
  {
    Filter(GetAll(r), (o: TradingOrder) => o.accountId == account)
  }

  function OfStatus(status: Status): TradingOrder -> bool {
    (o: TradingOrder) => o.status == status
  }

  function OfAgentIfGiven(agent: Option<Id>): TradingOrder -> bool {
    (o: TradingOrder) => agent.Some? && o.agentId == agent.value
  }

  function StatusOf(status: Status, agent: Option<Id>): TradingOrder -> bool {
    (o: TradingOrder) => o.status == status && (agent.None? || o.agentId == agent.value)
  }

  /** `get_by_status`: the orders in one status, narrowed to one agent when
      an agent is given. The source tests `if agent_id:`, and an identifier
      is always truthy, so "given" is exactly "not `None`". */
  function GetByStatus(r: OrderRepo, status: Status, agent: Option<Id>): (os: seq<TradingOrder>)
    ensures os == Filter(GetAll(r), StatusOf(status, agent))
    ensures forall o :: o in os <==> o in GetAll(r) && o.status == status && (agent.None? || o.agentId == agent.value)
  {
    TwoStageFilter(GetAll(r), OfStatus(status), agent.Some?, OfAgentIfGiven(agent), StatusOf(status, agent));
    Narrow(Filter(GetAll(r), OfStatus(status)), agent.Some?, OfAgentIfGiven(agent))
  }

  /** `get_pending_orders`. */
  function GetPendingOrders(r: OrderRepo, agent: Option<Id>): (os: seq<TradingOrder>)
    ensures os == Filter(GetAll(r), StatusOf(Pending, agent))
    ensures forall o :: o in os <==> o in GetAll(r) && o.status == Pending && (agent.None? || o.agentId == agent.value)
  {
    GetByStatus(r, Pending, agent)
  }

  /** `get_filled_orders`. */
  function GetFilledOrders(r: OrderRepo, agent: Option<Id>): (os: seq<TradingOrder>)
    ensures os == Filter(GetAll(r), StatusOf(Filled, agent))
    ensures forall o :: o in os <==> o in GetAll(r) && o.status == Filled && (agent.None? || o.agentId == agent.value)
  {
    GetByStatus(r, Filled, agent)
  }

  /** `get_closed_orders`. */
  function GetClosedOrders(r: OrderRepo, agent: Option<Id>): (os: seq<TradingOrder>)
    ensures os == Filter(GetAll(r), StatusOf(Closed, agent))
    ensures forall o :: o in os <==> o in GetAll(r) && o.status == Closed && (agent.None? || o.agentId == agent.value)
  {
    GetByStatus(r, Closed, agent)
  }

  /** Every stored order sits under its own id, as `save` keeps it. */
  ghost predicate KeyedById(r: OrderRepo) {
    forall k :: Get(r, k).Some? ==> Get(r, k).value.id == k
  }

  /** Saving an order the repository already keys by id keeps that so. */
  lemma SaveKeepsKeyedById(r: OrderRepo, o: TradingOrder)
    requires Valid(r) && KeyedById(r)
    ensures KeyedById(SaveOrder(r, o))
  {
  }

  /** Saving the result of a transition over the stored order takes the
      order off every pending list and lists it under its new status. */
  lemma SavedTransitionLeavesPending(r: OrderRepo, n: TradingOrder, agent: Option<Id>)
    requires Valid(r) && KeyedById(r)
    requires n.status != Pending
    ensures forall x :: x in GetPendingOrders(SaveOrder(r, n), agent) ==> x.id != n.id
    ensures n in GetByStatus(SaveOrder(r, n), n.status, None)
  {
    var r' := SaveOrder(r, n);
    forall x | x in GetAll(r') && x.status == Pending
      ensures x.id != n.id
    {
      var i :| 0 <= i < |r'.entries| && GetAll(r')[i] == x;
      assert Get(r', r'.entries[i].key) == Some(x);
    }
  }

  /** Transitions return a new value, so a filled order reaches the
      repository only when it is saved again: until then the stored order is
      still listed as pending, and after the save it is listed as filled and
      no longer as pending. */
  lemma FillThenSave(r: OrderRepo, o: TradingOrder, ts: Timestamp, price: real, fees: real, margin: real)
    requires Valid(r) && KeyedById(r) && Get(r, o.id) == Some(o)
    requires Fill(o, ts, price, fees, margin).Ok?
    ensures o in GetPendingOrders(r, None)
    ensures var f := Fill(o, ts, price, fees, margin).value;
      && f.id == o.id
      && f in GetFilledOrders(SaveOrder(r, f), None)
      && f in GetActiveOrders(SaveOrder(r, f), o.agentId)
      && forall x :: x in GetPendingOrders(SaveOrder(r, f), None) ==> x.id != o.id
  {
    var f := Fill(o, ts, price, fees, margin).value;
    SavedTransitionLeavesPending(r, f, None);
  }

  /** The active orders of an agent are exactly its pending orders together
      with its filled orders, counting duplicates. */
  lemma ActiveIsPendingPlusFilled(r: OrderRepo, agent: Id)
    ensures multiset(GetActiveOrders(r, agent)) == multiset(GetPendingOrders(r, Some(agent))) + multiset(GetFilledOrders(r, Some(agent)))
  {
    FilterSplit(GetAll(r), StatusOf(Pending, Some(agent)), StatusOf(Filled, Some(agent)), ActiveOf(agent));
  }

  /** The agent's orders split into the four statuses without overlap. */
  lemma StatusesPartitionAgentOrders(r: OrderRepo, agent: Id)
    ensures multiset(GetByAgent(r, agent))
      == multiset(GetActiveOrders(r, agent)) + multiset(GetByStatus(r, Cancelled, Some(agent))) + multiset(GetClosedOrders(r, Some(agent)))
  {
    var all := GetAll(r);
    var inactive := (o: TradingOrder) => o.agentId == agent && !IsActive(o);
    forall o: TradingOrder
      ensures inactive(o) == (StatusOf(Cancelled, Some(agent))(o) || StatusOf(Closed, Some(agent))(o))
    {
      match o.status
      case Pending =>
      case Filled =>
      case Cancelled =>
      case Closed =>
    }
    FilterSplit(all, ActiveOf(agent), inactive, (o: TradingOrder) => o.agentId == agent);
    FilterSplit(all, StatusOf(Cancelled, Some(agent)), StatusOf(Closed, Some(agent)), inactive);
  }

  // ---------------------------------------------------------------------
  // Order history
  // ---------------------------------------------------------------------

  /** `TradingOrderHistory`: a frozen snapshot of an order's P&L. */
  datatype Snapshot = Snapshot(
    id: Id,
    orderId: Id,
    timestamp: Timestamp,
    status: Status,
    unrealizedPnl: real,
    realizedPnl: real,
    currentPrice: Option<real>,
    totalFees: real)

  type HistoryRepo = Repo<Id, Snapshot>

  /** `save_snapshot`: keyed by the snapshot's own id. */
  function SaveSnapshot(r: HistoryRepo, s: Snapshot): (r': HistoryRepo)
    requires Valid(r)
    ensures Valid(r')
    ensures Get(r', s.id) == Some(s)
    ensures forall k :: k != s.id ==> Get(r', k) == Get(r, k)
    ensures Count(r') == if Exists(r, s.id) then Count(r) else Count(r) + 1
  {
    Save(r, s.id, s)
  }

  function SnapshotTime(s: Snapshot): int {
    s.timestamp
  }

  function OfOrder(order: Id): Snapshot -> bool {
    (s: Snapshot) => s.orderId == order
  }

  /** `get_history_for_order`: the order's snapshots by time; snapshots
      with the same time keep their storage order. */
  function GetHistoryForOrder(r: HistoryRepo, order: Id): (h: seq<Snapshot>)
    ensures SortedBy(h, SnapshotTime)
    ensures multiset(h) == multiset(Filter(GetAll(r), OfOrder(order)))
    ensures forall s :: s in h <==> s in GetAll(r) && s.orderId == order
  {
    Query(GetAll(r), OfOrder(order), SnapshotTime)
  }

  /** `get_latest_snapshot`: the last of the sorted history, so, as the
      sort is stable, among the snapshots with the latest time the one
      stored last. */
  function GetLatestSnapshot(r: HistoryRepo, order: Id): (s: Option<Snapshot>)
    ensures s.None? <==> forall x :: x in GetAll(r) ==> x.orderId != order
    ensures s.Some? ==> s.value in GetAll(r) && s.value.orderId == order
    ensures s.Some? ==> forall x :: x in GetAll(r) && x.orderId == order ==> x.timestamp <= s.value.timestamp
    ensures s.Some? ==> var f := Filter(GetAll(r), OfOrder(order));
      |f| > 0 && s.value == f[LastMaxIndex(f, SnapshotTime)]
  {
    var h := GetHistoryForOrder(r, order);
    if |h| == 0 then None
    else
      LastIsMax(h, SnapshotTime);
      SortByLast(Filter(GetAll(r), OfOrder(order)), SnapshotTime);
      assert h[|h| - 1] in h;
      Some(h[|h| - 1])
  }

  /** A snapshot saved with a time no earlier than every stored snapshot of
      its order becomes that order's latest. */
  lemma NewestSnapshotIsLatest(r: HistoryRepo, s: Snapshot)
    requires Valid(r)
    requires forall x :: x in GetAll(r) && x.orderId == s.orderId ==> x.timestamp <= s.timestamp
    ensures GetLatestSnapshot(SaveSnapshot(r, s), s.orderId).Some?
    ensures GetLatestSnapshot(SaveSnapshot(r, s), s.orderId).value.timestamp == s.timestamp
  {
    var r' := SaveSnapshot(r, s);
    assert s in GetAll(r');
    forall x | x in GetAll(r') && x.orderId == s.orderId
      ensures x.timestamp <= s.timestamp
    {
      var i :| 0 <= i < |r'.entries| && GetAll(r')[i] == x;
      var k := r'.entries[i].key;
      assert Get(r', k) == Some(x);
      if k != s.id {
        assert Get(r, k) == Some(x);
      }
    }
  }

  /** Snapshots of other orders never change an order's history. */
  lemma HistoryIgnoresOtherOrders(r: HistoryRepo, s: Snapshot, order: Id)
    requires Valid(r)
    requires s.orderId != order
    requires !Exists(r, s.id)
    ensures GetHistoryForOrder(SaveSnapshot(r, s), order) == GetHistoryForOrder(r, order)
  {
    var r' := SaveSnapshot(r, s);
    assert GetAll(r') == GetAll(r) + [s] by {
      assert Find(r.entries, s.id).None?;
      assert r'.entries == r.entries + [Entry(s.id, s)];
    }
    FilterAppend(GetAll(r), [s], OfOrder(order));
    assert Filter([s], OfOrder(order)) == [];
    assert Filter(GetAll(r'), OfOrder(order)) == Filter(GetAll(r), OfOrder(order));
  }
}
