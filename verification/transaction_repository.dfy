/** `TransactionRepository`: transactions keyed by their transaction id and
    the queries reconciliation uses, each sorted by timestamp. */
module TransactionRepository {
  import opened Base
  import opened Seqs
  import opened Repository
  import opened Transactions

  type TransactionRepo = Repo<Id, Transaction>

  /** `save`: keyed by `transaction_id`. */
  function SaveTransaction(r: TransactionRepo, t: Transaction): (r': TransactionRepo)
    requires Valid(r)
    ensures Valid(r')
    ensures Get(r', t.transactionId) == Some(t)
    ensures forall k :: k != t.transactionId ==> Get(r', k) == Get(r, k)
  {
    Save(r, t.transactionId, t)
  }

  function TxTime(t: Transaction): int {
    t.timestamp
  }

  function OfRun(run: Option<Id>): Transaction -> bool {
    (t: Transaction) => run.Some? && t.runId == run.value
  }

  function OfAccount(account: Id): Transaction -> bool {
    (t: Transaction) => t.accountId == account
  }

  /** The account (and, when given, run) selection. */
  function ForAccount(account: Id, run: Option<Id>): Transaction -> bool {
    (t: Transaction) => t.accountId == account && (run.None? || t.runId == run.value)
  }

  /** `get_by_account`: the account's transactions, narrowed to one run when
      a run is given, sorted by timestamp. */
  function GetByAccount(r: TransactionRepo, account: Id, run: Option<Id>): (ts: seq<Transaction>)
    ensures SortedBy(ts, TxTime)
    ensures multiset(ts) == multiset(Filter(GetAll(r), ForAccount(account, run)))
    ensures forall t :: t in ts <==> t in GetAll(r) && t.accountId == account && (run.None? || t.runId == run.value)
  {
    StagedQuery(GetAll(r), OfAccount(account), run.Some?, OfRun(run), ForAccount(account, run), TxTime)
  }

  function OfOrder(order: Id): Transaction -> bool {
    (t: Transaction) => t.orderId == Some(order)
  }

  /** `get_by_order`: the transactions that reference the order. */
  function GetByOrder(r: TransactionRepo, order: Id): (ts: seq<Transaction>)
    ensures SortedBy(ts, TxTime)
    ensures multiset(ts) == multiset(Filter(GetAll(r), OfOrder(order)))
    ensures forall t :: t in ts <==> t in GetAll(r) && t.orderId == Some(order)
  {
    Query(GetAll(r), OfOrder(order), TxTime)
  }

  function OfType(txType: TransactionType): Transaction -> bool {
    (t: Transaction) => t.txType == txType
  }

  function ForType(txType: TransactionType, run: Option<Id>): Transaction -> bool {
    (t: Transaction) => t.txType == txType && (run.None? || t.runId == run.value)
  }

  /** `get_by_type`: the transactions of one type, narrowed to one run when a
      run is given, sorted by timestamp. */
  function GetByType(r: TransactionRepo, txType: TransactionType, run: Option<Id>): (ts: seq<Transaction>)
    ensures SortedBy(ts, TxTime)
    ensures multiset(ts) == multiset(Filter(GetAll(r), ForType(txType, run)))
    ensures forall t :: t in ts <==> t in GetAll(r) && t.txType == txType && (run.None? || t.runId == run.value)
  {
    StagedQuery(GetAll(r), OfType(txType), run.Some?, OfRun(run), ForType(txType, run), TxTime)
  }

  function FromTime(account: Id, start: Timestamp): Transaction -> bool {
    (t: Transaction) => t.accountId == account && t.timestamp >= start
  }

  function UntilTime(end: Option<Timestamp>): Transaction -> bool {
    (t: Transaction) => end.Some? && t.timestamp <= end.value
  }

  function InRange(account: Id, start: Timestamp, end: Option<Timestamp>): Transaction -> bool {
    (t: Transaction) => t.accountId == account && start <= t.timestamp && (end.None? || t.timestamp <= end.value)
  }

  /** `get_by_time_range`: the account's transactions from `start` to `end`,
      both inclusive; no end means no upper bound. */
  function GetByTimeRange(r: TransactionRepo, account: Id, start: Timestamp, end: Option<Timestamp>): (ts: seq<Transaction>)
    ensures SortedBy(ts, TxTime)
    ensures multiset(ts) == multiset(Filter(GetAll(r), InRange(account, start, end)))
    ensures forall t :: t in ts <==>
      t in GetAll(r) && t.accountId == account && start <= t.timestamp && (end.None? || t.timestamp <= end.value)
  {
    StagedQuery(GetAll(r), FromTime(account, start), end.Some?, UntilTime(end), InRange(account, start, end), TxTime)
  }

  function After(account: Id, since: Timestamp): Transaction -> bool {
    (t: Transaction) => t.accountId == account && t.timestamp > since
  }

  /** `get_since_timestamp`: the account's transactions strictly after `since`. */
  function GetSince(r: TransactionRepo, account: Id, since: Timestamp): (ts: seq<Transaction>)
    ensures SortedBy(ts, TxTime)
    ensures multiset(ts) == multiset(Filter(GetAll(r), After(account, since)))
    ensures forall t :: t in ts <==> t in GetAll(r) && t.accountId == account && t.timestamp > since
  {
    Query(GetAll(r), After(account, since), TxTime)
  }

  /** The two time queries differ only at the boundary: the range starting at
      `t` includes what happened at `t`, the "since" query excludes it. */
  lemma SinceExcludesBoundary(r: TransactionRepo, account: Id, t: Timestamp)
    ensures forall x :: x in GetSince(r, account, t) <==> x in GetByTimeRange(r, account, t, None) && x.timestamp != t
    ensures forall x :: x in GetByTimeRange(r, account, t, Some(t)) ==> x.timestamp == t
  {
  }

  /** A time range is a narrowing of the account query. */
  lemma RangeWithinAccount(r: TransactionRepo, account: Id, start: Timestamp, end: Option<Timestamp>)
    ensures forall x :: x in GetByTimeRange(r, account, start, end) ==> x in GetByAccount(r, account, None)
  {
  }

  /** `clear_run`: deletes the run's transactions and reports how many. */
  function ClearRun(r: TransactionRepo, run: Id): (res: (TransactionRepo, nat))
    requires Valid(r)
    ensures Valid(res.0)
    ensures res.1 == |Filter(GetAll(r), OfRun(Some(run)))|
    ensures Count(res.0) + res.1 == Count(r)
    ensures forall t :: t in GetAll(res.0) ==> t.runId != run
    ensures forall k :: Get(r, k).Some? && Get(r, k).value.runId != run ==> Get(res.0, k) == Get(r, k)
    ensures forall k :: Get(r, k).None? ==> Get(res.0, k).None?
  {
    var res := DeleteWhere(r, OfRun(Some(run)));
    assert forall t :: t in GetAll(res.0) ==> t.runId != run by {
      forall t | t in GetAll(res.0) ensures t.runId != run {
        var i :| 0 <= i < |res.0.entries| && GetAll(res.0)[i] == t;
        assert Get(res.0, res.0.entries[i].key) == Some(t);
      }
    }
    res
  }

  function Tx(id: Id, run: Id, ts: Timestamp): Transaction {
    Transaction(id, 1, run, ts, "tx", 1.0, 0.0, Adjustment, None)
  }

  /** Clearing run 5 from a repository holding two of its transactions and
      one of run 6 deletes those two and keeps the third. */
  lemma ClearRunExample(r: TransactionRepo)
    requires r.entries == [Entry(1, Tx(1, 5, 0)), Entry(2, Tx(2, 5, 1)), Entry(3, Tx(3, 6, 2))]
    ensures var (r', n) := ClearRun(r, 5);
      n == 2 && Get(r', 3) == Some(Tx(3, 6, 2)) && Get(r', 1).None? && Get(r', 2).None?
  {
    var p := OfRun(Some(5));
    var es := r.entries;
    assert es[1..][1..][1..] == [];
    assert KeysWhere(Repo(es[1..][1..][1..]), p) == [];
    assert KeysWhere(Repo(es[1..][1..]), p) == [];
    assert KeysWhere(Repo(es[1..]), p) == [2];
    assert KeysWhere(r, p) == [1, 2];
  }
}
