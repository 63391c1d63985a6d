/** `BalanceRepository`: balance snapshots keyed by their balance id, the
    per-account history queries, and reconciliation of a new snapshot from
    a list of transactions. */
module BalanceRepository {
  import opened Base
  import opened Seqs
  import opened Repository
  import opened Balances
  import opened Transactions

  type BalanceRepo = Repo<Id, Balance>

  /** `save`: keyed by `balance_id`. */
  function SaveBalance(r: BalanceRepo, b: Balance): (r': BalanceRepo)
    requires Valid(r)
    ensures Valid(r')
    ensures Get(r', b.balanceId) == Some(b)
    ensures forall k :: k != b.balanceId ==> Get(r', k) == Get(r, k)
  {
    Save(r, b.balanceId, b)
  }

  function BalanceTime(b: Balance): int {
    b.timestamp
  }

  /** The selection `get_by_account` makes. */
  predicate Matches(b: Balance, account: Id, run: Option<Id>) {
    b.accountId == account && (run.None? || b.runId == run.value)
  }

  function OfAccount(account: Id): Balance -> bool {
    (b: Balance) => b.accountId == account
  }

  function OfRun(run: Id): Balance -> bool {
    (b: Balance) => b.runId == run
  }

  function Matching(account: Id, run: Option<Id>): Balance -> bool {
    (b: Balance) => Matches(b, account, run)
  }

  /** `get_by_account`: the account's balances, narrowed to one run when a
      run is given, sorted by timestamp (ties stay in storage order). */
  function GetByAccount(r: BalanceRepo, account: Id, run: Option<Id>): (bs: seq<Balance>)
    ensures SortedBy(bs, BalanceTime)
    ensures multiset(bs) == multiset(Filter(GetAll(r), Matching(account, run)))
    ensures forall b :: b in bs <==> b in GetAll(r) && Matches(b, account, run)
    ensures bs == SortBy(Filter(GetAll(r), Matching(account, run)), BalanceTime)
  {
    StagedQuery(GetAll(r), OfAccount(account), run.Some?, OfRun(if run.Some? then run.value else 0),
                Matching(account, run), BalanceTime)
  }

  /** `get_latest_balance`: the last of the sorted snapshots of the account in
      the run. It carries the greatest timestamp and, as the sort is stable,
      is the one stored last among the snapshots with that timestamp. */
  function GetLatestBalance(r: BalanceRepo, account: Id, run: Id): (o: Option<Balance>)
    ensures o.None? <==> forall b :: b in GetAll(r) ==> !Matches(b, account, Some(run))
    ensures o.Some? ==> o.value in GetAll(r) && Matches(o.value, account, Some(run))
    ensures o.Some? ==> forall b :: b in GetAll(r) && Matches(b, account, Some(run)) ==> b.timestamp <= o.value.timestamp
    ensures o.Some? ==> var f := Filter(GetAll(r), Matching(account, Some(run)));
      |f| > 0 && o.value == f[LastMaxIndex(f, BalanceTime)]
  {
    var bs := GetByAccount(r, account, Some(run));
    var o := if |bs| == 0 then None else Some(bs[|bs| - 1]);
    LatestFacts(r, account, run, o);
    o
  }

  /** The last of the account's sorted snapshots in the run is the latest
      one, stored last among its equals; there is none only when the
      account has no snapshot in the run. */
  lemma LatestFacts(r: BalanceRepo, account: Id, run: Id, o: Option<Balance>)
    requires var bs := GetByAccount(r, account, Some(run));
      o == if |bs| == 0 then None else Some(bs[|bs| - 1])
    ensures o.None? <==> forall b :: b in GetAll(r) ==> !Matches(b, account, Some(run))
    ensures o.Some? ==> o.value in GetAll(r) && Matches(o.value, account, Some(run))
    ensures o.Some? ==> forall b :: b in GetAll(r) && Matches(b, account, Some(run)) ==> b.timestamp <= o.value.timestamp
    ensures o.Some? ==> var f := Filter(GetAll(r), Matching(account, Some(run)));
      |f| > 0 && o.value == f[LastMaxIndex(f, BalanceTime)]
  {
    var bs := GetByAccount(r, account, Some(run));
    var f := Filter(GetAll(r), Matching(account, Some(run)));
    if |bs| > 0 {
      assert bs[|bs| - 1] in bs;
      LastIsMax(bs, BalanceTime);
      assert |f| == |bs| by {
        assert |multiset(f)| == |multiset(bs)|;
      }
      SortByLast(f, BalanceTime);
    }
  }

  function AtOrBefore(t: Timestamp): Balance -> bool {
    (b: Balance) => b.timestamp <= t
  }

  /** The account's snapshots in the run up to `t`, still sorted. */
  lemma AtOrBeforeFacts(r: BalanceRepo, account: Id, t: Timestamp, run: Id)
    ensures var bs := Filter(GetByAccount(r, account, Some(run)), AtOrBefore(t));
      && SortedBy(bs, BalanceTime)
      && (forall b :: b in bs <==> b in GetAll(r) && Matches(b, account, Some(run)) && b.timestamp <= t)
      && (|bs| > 0 ==>
            var g := Filter(Filter(GetAll(r), Matching(account, Some(run))), AtOrBefore(t));
            |g| == |bs| && bs[|bs| - 1] == g[LastMaxIndex(g, BalanceTime)])
  {
    var sorted := GetByAccount(r, account, Some(run));
    FilterSorted(sorted, AtOrBefore(t), BalanceTime);
    if |Filter(sorted, AtOrBefore(t))| > 0 {
      LastOfFilteredSort(Filter(GetAll(r), Matching(account, Some(run))), BalanceTime, AtOrBefore(t));
    }
  }

  /** `get_balance_at_time`: the latest snapshot taken at or before `t`, and
      among those with that timestamp the one stored last. */
  function GetBalanceAtTime(r: BalanceRepo, account: Id, t: Timestamp, run: Id): (o: Option<Balance>)
    ensures o.None? <==> forall b :: b in GetAll(r) && Matches(b, account, Some(run)) ==> b.timestamp > t
    ensures o.Some? ==> o.value in GetAll(r) && Matches(o.value, account, Some(run)) && o.value.timestamp <= t
    ensures o.Some? ==> forall b :: b in GetAll(r) && Matches(b, account, Some(run)) && b.timestamp <= t
                                    ==> b.timestamp <= o.value.timestamp
    ensures o.Some? ==> var g := Filter(Filter(GetAll(r), Matching(account, Some(run))), AtOrBefore(t));
      |g| > 0 && o.value == g[LastMaxIndex(g, BalanceTime)]
  {
    var sorted := GetByAccount(r, account, Some(run));
    var bs := Filter(sorted, AtOrBefore(t));
    AtOrBeforeFacts(r, account, t, run);
    if |bs| == 0 then
      None
    else
      LastIsMax(bs, BalanceTime);
      Some(bs[|bs| - 1])
  }

  // ---------------------------------------------------------------------
  // Reconciliation
  // ---------------------------------------------------------------------

  /** The sum of the available deltas. */
  function SumAvailable(txs: seq<Transaction>): (s: real)
    ensures (forall i :: 0 <= i < |txs| ==> txs[i].availableChange >= 0.0) ==> s >= 0.0
    decreases |txs|
  {
    if |txs| == 0 then 0.0 else SumAvailable(txs[..|txs| - 1]) + txs[|txs| - 1].availableChange
  }

  /** The sum of the unavailable deltas. */
  function SumUnavailable(txs: seq<Transaction>): (s: real)
    ensures (forall i :: 0 <= i < |txs| ==> txs[i].unavailableChange >= 0.0) ==> s >= 0.0
    decreases |txs|
  {
    if |txs| == 0 then 0.0 else SumUnavailable(txs[..|txs| - 1]) + txs[|txs| - 1].unavailableChange
  }

  /** The sum of `total_balance_change` over the transactions. */
  function SumTotalChange(txs: seq<Transaction>): (s: real)
    ensures (forall i :: 0 <= i < |txs| ==> TotalChange(txs[i]) >= 0.0) ==> s >= 0.0
    decreases |txs|
  {
    if |txs| == 0 then 0.0 else SumTotalChange(txs[..|txs| - 1]) + TotalChange(txs[|txs| - 1])
  }

  /** Summing the components separately and summing the totals agree. */
  lemma {:induction false} SumsAgree(txs: seq<Transaction>)
    ensures SumAvailable(txs) + SumUnavailable(txs) == SumTotalChange(txs)
    decreases |txs|
  {
    if |txs| > 0 {
      SumsAgree(txs[..|txs| - 1]);
    }
  }

  /** Summing a history in two parts and adding the results gives the sums
      of the whole history, so reconciling in stages agrees with
      reconciling at once. */
  lemma {:induction false} SumsSplit(a: seq<Transaction>, b: seq<Transaction>)
    ensures SumAvailable(a + b) == SumAvailable(a) + SumAvailable(b)
    ensures SumUnavailable(a + b) == SumUnavailable(a) + SumUnavailable(b)
    ensures SumTotalChange(a + b) == SumTotalChange(a) + SumTotalChange(b)
    decreases |b|
  {
    if |b| > 0 {
      var b' := b[..|b| - 1];
      assert (a + b)[..|a + b| - 1] == a + b';
      assert (a + b)[|a + b| - 1] == b[|b| - 1];
      SumsSplit(a, b');
    } else {
      assert a + b == a;
    }
  }

  /** The loop of `reconcile_balance`: each transaction's deltas added in
      turn to running available and unavailable amounts. */
  method ApplyTransactions(available0: real, unavailable0: real, txs: seq<Transaction>)
    returns (available: real, unavailable: real)
    ensures available == available0 + SumAvailable(txs)
    ensures unavailable == unavailable0 + SumUnavailable(txs)
    ensures available + unavailable == available0 + unavailable0 + SumTotalChange(txs)
  {
    available, unavailable := available0, unavailable0;
    var i := 0;
    while i < |txs|
      invariant 0 <= i <= |txs|
      invariant available == available0 + SumAvailable(txs[..i])
      invariant unavailable == unavailable0 + SumUnavailable(txs[..i])
    {
      assert txs[..i + 1][..i] == txs[..i];
      available := available + txs[i].availableChange;
      unavailable := unavailable + txs[i].unavailableChange;
      i := i + 1;
    }
    assert txs[..|txs|] == txs;
    SumsAgree(txs);
  }

  /** The starting components: those of the initial balance, or zero. */
  function StartAvailable(initial: Option<Balance>): real {
    if initial.Some? then initial.value.available else 0.0
  }

  function StartUnavailable(initial: Option<Balance>): real {
    if initial.Some? then initial.value.unavailable else 0.0
  }

  /** `reconcile_balance`: the new snapshot is the starting components plus
      every transaction's deltas; it is refused (the `Balance` check) when
      either sum is negative, and otherwise stored under `newId`, which
      stands for the fresh identifier the system generates. */
  function Reconcile(r: BalanceRepo, newId: Id, account: Id, run: Id, ts: Timestamp,
                     txs: seq<Transaction>, initial: Option<Balance>): (res: Result<(BalanceRepo, Balance), BalanceError>)
    requires Valid(r)
    ensures res.Ok? <==> StartAvailable(initial) + SumAvailable(txs) >= 0.0
                         && StartUnavailable(initial) + SumUnavailable(txs) >= 0.0
    ensures res == Err(NegativeAvailable) <==> StartAvailable(initial) + SumAvailable(txs) < 0.0
    ensures res == Err(NegativeUnavailable) <==> StartAvailable(initial) + SumAvailable(txs) >= 0.0
                                                 && StartUnavailable(initial) + SumUnavailable(txs) < 0.0
    ensures res.Ok? ==> var (r', b) := res.value;
      && Valid(r')
      && b == Balance(newId, account, run, ts, StartAvailable(initial) + SumAvailable(txs),
                      StartUnavailable(initial) + SumUnavailable(txs))
      && Total(b) == StartAvailable(initial) + StartUnavailable(initial) + SumTotalChange(txs)
      && Get(r', newId) == Some(b)
      && (forall k :: k != newId ==> Get(r', k) == Get(r, k))
  {
    SumsAgree(txs);
    var b := Balance(newId, account, run, ts, StartAvailable(initial) + SumAvailable(txs),
                     StartUnavailable(initial) + SumUnavailable(txs));
    var created :- Balances.Create(b);
    Ok((SaveBalance(r, created), created))
  }

  /** Conservation: reconciling from a snapshot changes the total by exactly
      the transactions' total change. */
  lemma Conservation(r: BalanceRepo, newId: Id, account: Id, run: Id, ts: Timestamp,
                     txs: seq<Transaction>, initial: Balance)
    requires Valid(r)
    requires Reconcile(r, newId, account, run, ts, txs, Some(initial)).Ok?
    ensures Total(Reconcile(r, newId, account, run, ts, txs, Some(initial)).value.1) == Total(initial) + SumTotalChange(txs)
  {
  }

  /** `clear_run`: deletes the run's snapshots and reports how many. */
  function ClearRun(r: BalanceRepo, run: Id): (res: (BalanceRepo, nat))
    requires Valid(r)
    ensures Valid(res.0)
    ensures res.1 == |Filter(GetAll(r), OfRun(run))|
    ensures Count(res.0) + res.1 == Count(r)
    ensures forall b :: b in GetAll(res.0) ==> b.runId != run
    ensures forall k :: Get(r, k).Some? && Get(r, k).value.runId != run ==> Get(res.0, k) == Get(r, k)
    ensures forall k :: Get(r, k).None? ==> Get(res.0, k).None?
  {
    var res := DeleteWhere(r, OfRun(run));
    assert forall b :: b in GetAll(res.0) ==> b.runId != run by {
      forall b | b in GetAll(res.0) ensures b.runId != run {
        var i :| 0 <= i < |res.0.entries| && GetAll(res.0)[i] == b;
        assert Get(res.0, res.0.entries[i].key) == Some(b);
      }
    }
    res
  }

  function Tx(available: real, unavailable: real, txType: TransactionType): Transaction {
    Transaction(0, 1, 2, 0, "tx", available, unavailable, txType, None)
  }

  /** From 100000 available: reserving 1000 of margin and paying a fee of 10
      leaves 98990 available, 1000 reserved, 99990 in total. From nothing, a
      deposit of 100000 gives 100000 available. */
  lemma ReconcileExample()
    ensures var r := Reconcile(Empty(), 9, 1, 2, 60, [Tx(-1000.0, 1000.0, ReserveMargin), Tx(-10.0, 0.0, FeeFill)],
                               Some(Balance(8, 1, 2, 0, 100000.0, 0.0)));
      && r.Ok? && r.value.1.available == 98990.0 && r.value.1.unavailable == 1000.0
      && Total(r.value.1) == 99990.0
    ensures var r := Reconcile(Empty(), 9, 1, 2, 0, [Tx(100000.0, 0.0, Adjustment)], None);
      r.Ok? && r.value.1.available == 100000.0 && r.value.1.unavailable == 0.0
    ensures Reconcile(Empty(), 9, 1, 2, 0, [Tx(-1.0, 0.0, FeeFill)], None) == Err(NegativeAvailable)
  {
    var txs := [Tx(-1000.0, 1000.0, ReserveMargin), Tx(-10.0, 0.0, FeeFill)];
    assert txs[..1] == [txs[0]] && [txs[0]][..0] == [];
    assert SumAvailable(txs) == -1010.0;
    assert SumUnavailable(txs) == 1000.0;
    assert [Tx(100000.0, 0.0, Adjustment)][..0] == [];
    assert [Tx(-1.0, 0.0, FeeFill)][..0] == [];
  }
}
