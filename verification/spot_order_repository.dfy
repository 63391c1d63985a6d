/** `SpotOrderRepository`: spot orders keyed by their id, and the queries the
    simulation runs over them; every query returns its orders sorted by
    creation time. */
module SpotOrderRepository {
  import opened Base
  import opened Seqs
  import opened Repository
  import opened OrderEnums
  import opened SpotOrders

  type SpotOrderRepo = Repo<Id, SpotOrder>

  /** `save` (inherited): keyed by the order id, so a filled or cancelled
      copy, which keeps the id, replaces the order it was made from. */
  function SaveOrder(r: SpotOrderRepo, o: SpotOrder): (r': SpotOrderRepo)
    requires Valid(r)
    ensures Valid(r')
    ensures Get(r', o.id) == Some(o)
    ensures forall k :: k != o.id ==> Get(r', k) == Get(r, k)
  {
    Save(r, o.id, o)
  }

  /** Every order is stored under its own id, which `SaveOrder` keeps true. */
  ghost predicate KeyedById(r: SpotOrderRepo) {
    forall k :: Get(r, k).Some? ==> Get(r, k).value.id == k
  }

  function CreatedAt(o: SpotOrder): int {
    o.createTimestamp
  }

  function OfRun(run: Option<Id>): SpotOrder -> bool {
    (o: SpotOrder) => run.Some? && o.runId == run.value
  }

  function OfStatus(status: Status): SpotOrder -> bool {
    (o: SpotOrder) => o.status == status
  }

  function ForStatus(status: Status, run: Option<Id>): SpotOrder -> bool {
    (o: SpotOrder) => o.status == status && (run.None? || o.runId == run.value)
  }

  /** `get_by_status`: the orders in one status, narrowed to one run when a
      run is given. */
  function GetByStatus(r: SpotOrderRepo, status: Status, run: Option<Id>): (os: seq<SpotOrder>)
    ensures SortedBy(os, CreatedAt)
    ensures multiset(os) == multiset(Filter(GetAll(r), ForStatus(status, run)))
    ensures forall o :: o in os <==> o in GetAll(r) && o.status == status && (run.None? || o.runId == run.value)
  {
    StagedQuery(GetAll(r), OfStatus(status), run.Some?, OfRun(run), ForStatus(status, run), CreatedAt)
  }

  function OfAgent(agent: Id): SpotOrder -> bool {
    (o: SpotOrder) => o.agentId == agent
  }

  function ForAgent(agent: Id, run: Option<Id>): SpotOrder -> bool {
    (o: SpotOrder) => o.agentId == agent && (run.None? || o.runId == run.value)
  }

  /** `get_by_agent`: the agent's orders, narrowed to one run when a run is
      given. */
  function GetByAgent(r: SpotOrderRepo, agent: Id, run: Option<Id>): (os: seq<SpotOrder>)
    ensures SortedBy(os, CreatedAt)
    ensures multiset(os) == multiset(Filter(GetAll(r), ForAgent(agent, run)))
    ensures forall o :: o in os <==> o in GetAll(r) && o.agentId == agent && (run.None? || o.runId == run.value)
  {
    StagedQuery(GetAll(r), OfAgent(agent), run.Some?, OfRun(run), ForAgent(agent, run), CreatedAt)
  }

  function OfAccount(account: Id): SpotOrder -> bool {
    (o: SpotOrder) => o.accountId == account
  }

  function ForAccount(account: Id, run: Option<Id>): SpotOrder -> bool {
    (o: SpotOrder) => o.accountId == account && (run.None? || o.runId == run.value)
  }

  /** `get_by_account`: the account's orders, narrowed to one run when a run
      is given. */
  function GetByAccount(r: SpotOrderRepo, account: Id, run: Option<Id>): (os: seq<SpotOrder>)
    ensures SortedBy(os, CreatedAt)
    ensures multiset(os) == multiset(Filter(GetAll(r), ForAccount(account, run)))
    ensures forall o :: o in os <==> o in GetAll(r) && o.accountId == account && (run.None? || o.runId == run.value)
  {
    StagedQuery(GetAll(r), OfAccount(account), run.Some?, OfRun(run), ForAccount(account, run), CreatedAt)
  }

  function OfPair(code: string): SpotOrder -> bool {
    (o: SpotOrder) => o.pairCode == code
  }

  function ForPair(code: string, run: Option<Id>): SpotOrder -> bool {
    (o: SpotOrder) => o.pairCode == code && (run.None? || o.runId == run.value)
  }

  /** `get_by_trading_pair`: the orders on one pair code (compared exactly),
      narrowed to one run when a run is given. */
  function GetByTradingPair(r: SpotOrderRepo, code: string, run: Option<Id>): (os: seq<SpotOrder>)
    ensures SortedBy(os, CreatedAt)
    ensures multiset(os) == multiset(Filter(GetAll(r), ForPair(code, run)))
    ensures forall o :: o in os <==> o in GetAll(r) && o.pairCode == code && (run.None? || o.runId == run.value)
  {
    StagedQuery(GetAll(r), OfPair(code), run.Some?, OfRun(run), ForPair(code, run), CreatedAt)
  }

  function OfAgentIfGiven(agent: Option<Id>): SpotOrder -> bool {
    (o: SpotOrder) => agent.Some? && o.agentId == agent.value
  }

  function PendingOf(agent: Option<Id>): SpotOrder -> bool {
    (o: SpotOrder) => o.status == Pending && (agent.None? || o.agentId == agent.value)
  }

  function PendingFor(agent: Option<Id>, run: Option<Id>): SpotOrder -> bool {
    (o: SpotOrder) => o.status == Pending && (agent.None? || o.agentId == agent.value) && (run.None? || o.runId == run.value)
  }

  /** `get_pending_orders`: the pending orders, then narrowed to one agent
      when an agent is given, then to one run when a run is given. */
  function GetPendingOrders(r: SpotOrderRepo, agent: Option<Id>, run: Option<Id>): (os: seq<SpotOrder>)
    ensures os == Query(GetAll(r), PendingFor(agent, run), CreatedAt)
    ensures SortedBy(os, CreatedAt)
    ensures forall o :: o in os <==>
      o in GetAll(r) && o.status == Pending && (agent.None? || o.agentId == agent.value) && (run.None? || o.runId == run.value)
  {
    var all := GetAll(r);
    TwoStageFilter(all, OfStatus(Pending), agent.Some?, OfAgentIfGiven(agent), PendingOf(agent));
    TwoStageFilter(all, PendingOf(agent), run.Some?, OfRun(run), PendingFor(agent, run));
    SortBy(Narrow(Narrow(Filter(all, OfStatus(Pending)), agent.Some?, OfAgentIfGiven(agent)), run.Some?, OfRun(run)), CreatedAt)
  }

  function OfRoot(root: Id): SpotOrder -> bool {
    (o: SpotOrder) => o.rootId == Some(root)
  }

  /** `get_by_root_id`: the order chain sharing one root. */
  function GetByRootId(r: SpotOrderRepo, root: Id): (os: seq<SpotOrder>)
    ensures SortedBy(os, CreatedAt)
    ensures multiset(os) == multiset(Filter(GetAll(r), OfRoot(root)))
    ensures forall o :: o in os <==> o in GetAll(r) && o.rootId == Some(root)
  {
    Query(GetAll(r), OfRoot(root), CreatedAt)
  }

  /** `clear_run`: deletes the run's orders and reports how many. */
  function ClearRun(r: SpotOrderRepo, run: Id): (res: (SpotOrderRepo, nat))
    requires Valid(r)
    ensures Valid(res.0)
    ensures res.1 == |Filter(GetAll(r), OfRun(Some(run)))|
    ensures Count(res.0) + res.1 == Count(r)
    ensures forall o :: o in GetAll(res.0) ==> o.runId != run
    ensures forall k :: Get(r, k).Some? && Get(r, k).value.runId != run ==> Get(res.0, k) == Get(r, k)
    ensures forall k :: Get(r, k).None? ==> Get(res.0, k).None?
  {
    var res := DeleteWhere(r, OfRun(Some(run)));
    assert forall o :: o in GetAll(res.0) ==> o.runId != run by {
      forall o | o in GetAll(res.0) ensures o.runId != run {
        var i :| 0 <= i < |res.0.entries| && GetAll(res.0)[i] == o;
        assert Get(res.0, res.0.entries[i].key) == Some(o);
      }
    }
    res
  }

  // ---------------------------------------------------------------------
  // Properties
  // ---------------------------------------------------------------------

  /** Without an agent, the pending query is the status query for PENDING:
      the same orders in the same order. */
  lemma PendingIsStatusQuery(r: SpotOrderRepo, run: Option<Id>)
    ensures GetPendingOrders(r, None, run) == GetByStatus(r, Pending, run)
  {
    FilterSame(GetAll(r), PendingFor(None, run), ForStatus(Pending, run));
  }

  /** The pending orders of one agent are that agent's orders that are
      pending. */
  lemma PendingOfAgent(r: SpotOrderRepo, agent: Id, run: Option<Id>)
    ensures forall o :: o in GetPendingOrders(r, Some(agent), run) <==> o in GetByAgent(r, agent, run) && o.status == Pending
  {
  }

  /** Saving preserves the "stored under its own id" invariant. */
  lemma SaveKeepsKeyedById(r: SpotOrderRepo, o: SpotOrder)
    requires Valid(r) && KeyedById(r)
    ensures KeyedById(SaveOrder(r, o))
  {
  }

  /** Saving the filled or cancelled copy of an order takes the order off
      every pending list and puts the copy on the list of its status. */
  lemma SavedCopyLeavesPending(r: SpotOrderRepo, c: SpotOrder, agent: Option<Id>, run: Option<Id>)
    requires Valid(r) && KeyedById(r)
    requires c.status != Pending
    ensures forall o :: o in GetPendingOrders(SaveOrder(r, c), agent, run) ==> o.id != c.id
    ensures c in GetByStatus(SaveOrder(r, c), c.status, Some(c.runId))
  {
    var r' := SaveOrder(r, c);
    forall o | o in GetAll(r') && o.status == Pending
      ensures o.id != c.id
    {
      var i :| 0 <= i < |r'.entries| && GetAll(r')[i] == o;
      assert Get(r', r'.entries[i].key) == Some(o);
    }
  }

  /** A pending order filled through `create_filled_copy` and saved is found
      among the filled orders and no longer among the pending ones. */
  lemma FillLifecycle(r: SpotOrderRepo, o: SpotOrder, ts: Timestamp, price: real, v: Option<real>, fee: Option<real>)
    requires Valid(r) && KeyedById(r)
    requires FilledCopy(o, ts, price, v, fee).Ok?
    ensures var f := FilledCopy(o, ts, price, v, fee).value;
      && f in GetByStatus(SaveOrder(r, f), Filled, None)
      && forall x :: x in GetPendingOrders(SaveOrder(r, f), None, None) ==> x.id != f.id
  {
    SavedCopyLeavesPending(r, FilledCopy(o, ts, price, v, fee).value, None, None);
  }

  function Order(id: Id, agent: Id, run: Id, ts: Timestamp, status: Status): SpotOrder {
    SpotOrder(id, 1, "BTCUSD", agent, 3, run, 1, Long, status, ts, 1.0, None, None, Some(id),
      None, None, None, None, None, None, None, None)
  }

  /** Three orders of run 5, saved out of creation order. */
  function ExampleOrders(): seq<SpotOrder> {
    [Order(1, 8, 5, 30, Pending), Order(2, 8, 5, 10, Filled), Order(3, 9, 5, 20, Pending)]
  }

  lemma TwoPendingSorted()
    ensures SortBy([Order(1, 8, 5, 30, Pending), Order(3, 9, 5, 20, Pending)], CreatedAt)
            == [Order(3, 9, 5, 20, Pending), Order(1, 8, 5, 30, Pending)]
  {
    var f := [Order(1, 8, 5, 30, Pending), Order(3, 9, 5, 20, Pending)];
    assert f[..1] == [f[0]];
    assert SortBy(f[..1], CreatedAt) == [f[0]];
  }

  lemma PendingOfRunFilter()
    ensures Filter(ExampleOrders(), PendingFor(None, Some(5))) == [Order(1, 8, 5, 30, Pending), Order(3, 9, 5, 20, Pending)]
  {
    var all := ExampleOrders();
    var p := PendingFor(None, Some(5));
    assert p(all[0]) && !p(all[1]) && p(all[2]);
    assert all[2..][1..] == [];
    assert Filter(all[2..], p) == [all[2]];
  }

  lemma PendingOfAgentFilter()
    ensures Filter(ExampleOrders(), PendingFor(Some(8), None)) == [Order(1, 8, 5, 30, Pending)]
  {
    var all := ExampleOrders();
    var q := PendingFor(Some(8), None);
    assert q(all[0]) && !q(all[1]) && !q(all[2]);
    assert all[2..][1..] == [];
    assert Filter(all[2..], q) == [];
  }

  /** Saved out of time order, the pending orders of a run come back by
      creation time and the filled one is left out; an agent filter keeps
      only that agent's pending orders. */
  lemma PendingExample(r: SpotOrderRepo)
    requires GetAll(r) == ExampleOrders()
    ensures GetPendingOrders(r, None, Some(5)) == [Order(3, 9, 5, 20, Pending), Order(1, 8, 5, 30, Pending)]
    ensures GetPendingOrders(r, Some(8), None) == [Order(1, 8, 5, 30, Pending)]
  {
    PendingOfRunFilter();
    PendingOfAgentFilter();
    TwoPendingSorted();
  }
}
