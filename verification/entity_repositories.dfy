/** A repository with a secondary index from a code (ticker, broker code,
    pair code) to the identifier last saved under it, as the asset, broker
    and trading-pair repositories keep one. */
module Indexed {
  import opened Base
  import opened Repository

  datatype IndexedRepo<V> = IndexedRepo(store: Repo<Id, V>, index: Repo<string, Id>)

  ghost predicate ValidIndexed<V>(r: IndexedRepo<V>) {
    Valid(r.store) && Valid(r.index)
  }

  function EmptyIndexed<V>(): (r: IndexedRepo<V>)
    ensures ValidIndexed(r) && Count(r.store) == 0
  {
    IndexedRepo(Empty(), Empty())
  }

  /** `save`: stores the entity under its id and points its code at that id. */
  function SaveIndexed<V>(r: IndexedRepo<V>, id: Id, code: string, v: V): (r': IndexedRepo<V>)
    requires ValidIndexed(r)
    ensures ValidIndexed(r')
    ensures Get(r'.store, id) == Some(v) && Get(r'.index, code) == Some(id)
    ensures forall k :: k != id ==> Get(r'.store, k) == Get(r.store, k)
    ensures forall c :: c != code ==> Get(r'.index, c) == Get(r.index, c)
  {
    IndexedRepo(Save(r.store, id, v), Save(r.index, code, id))
  }

  /** The inherited `delete`: removes the entity, leaving the index as it is. */
  function DeleteIndexed<V>(r: IndexedRepo<V>, id: Id): (res: (IndexedRepo<V>, bool))
    requires ValidIndexed(r)
    ensures ValidIndexed(res.0)
    ensures res.1 <==> Exists(r.store, id)
    ensures Get(res.0.store, id).None? && res.0.index == r.index
    ensures forall k :: k != id ==> Get(res.0.store, k) == Get(r.store, k)
  {
    var (s, found) := Delete(r.store, id);
    (IndexedRepo(s, r.index), found)
  }

  /** The lookup as the system writes it: follow the index to an id and
      return whatever is stored under that id now. */
  function LookupAsWritten<V>(r: IndexedRepo<V>, code: string): (o: Option<V>)
    ensures Get(r.index, code).None? ==> o.None?
    ensures o.Some? ==> o.value in GetAll(r.store)
    ensures Get(r.index, code).Some? ==> o == Get(r.store, Get(r.index, code).value)
  {
    match Get(r.index, code)
    case None => None
    case Some(id) => Get(r.store, id)
  }

  /** The lookup the index is meant to provide: the entity the index points
      at, provided it still carries the code asked for. */
  function Lookup<V>(r: IndexedRepo<V>, code: string, codeOf: V -> string): (o: Option<V>)
    ensures o.Some? ==> o.value in GetAll(r.store) && codeOf(o.value) == code
    ensures o.Some? ==> o == LookupAsWritten(r, code)
    ensures LookupAsWritten(r, code).Some? && codeOf(LookupAsWritten(r, code).value) == code ==> o.Some?
  {
    match LookupAsWritten(r, code)
    case None => None
    case Some(v) => if codeOf(v) == code then Some(v) else None
  }

  /** `clear`: storage and index both emptied, so every lookup fails. */
  function ClearIndexed<V>(r: IndexedRepo<V>): (r': IndexedRepo<V>)
    ensures ValidIndexed(r') && Count(r'.store) == 0 && Count(r'.index) == 0
    ensures forall c :: LookupAsWritten(r', c).None?
  {
    IndexedRepo(Empty(), Empty())
  }

  /** Every index entry that reaches a stored entity names that entity's
      code. */
  ghost predicate IndexConsistent<V>(r: IndexedRepo<V>, codeOf: V -> string) {
    forall c :: LookupAsWritten(r, c).Some? ==> codeOf(LookupAsWritten(r, c).value) == c
  }

  /** A lookup right after a save finds the saved entity. */
  lemma SaveThenLookup<V>(r: IndexedRepo<V>, id: Id, v: V, codeOf: V -> string)
    requires ValidIndexed(r)
    ensures Lookup(SaveIndexed(r, id, codeOf(v), v), codeOf(v), codeOf) == Some(v)
    ensures LookupAsWritten(SaveIndexed(r, id, codeOf(v), v), codeOf(v)) == Some(v)
  {
  }

  /** No index entry other than `code` points at `id`. */
  ghost predicate OnlyCodeFor<V>(r: IndexedRepo<V>, id: Id, code: string) {
    forall c :: c != code ==> Get(r.index, c) != Some(id)
  }

  /** While the index is consistent the two lookups agree. Saving keeps it
      consistent when no other code points at the id, which holds in
      particular when the id is stored with the same code; deleting always
      keeps it consistent. */
  lemma ConsistentIndex<V>(r: IndexedRepo<V>, id: Id, v: V, codeOf: V -> string)
    requires ValidIndexed(r) && IndexConsistent(r, codeOf)
    ensures forall c :: Lookup(r, c, codeOf) == LookupAsWritten(r, c)
    ensures Get(r.store, id).Some? && codeOf(Get(r.store, id).value) == codeOf(v) ==> OnlyCodeFor(r, id, codeOf(v))
    ensures OnlyCodeFor(r, id, codeOf(v)) ==> IndexConsistent(SaveIndexed(r, id, codeOf(v), v), codeOf)
    ensures IndexConsistent(DeleteIndexed(r, id).0, codeOf)
  {
    if Get(r.store, id).Some? && codeOf(Get(r.store, id).value) == codeOf(v) {
      forall c | Get(r.index, c) == Some(id) ensures c == codeOf(v) {
        assert LookupAsWritten(r, c) == Get(r.store, id);
      }
    }
    var r' := SaveIndexed(r, id, codeOf(v), v);
    if OnlyCodeFor(r, id, codeOf(v)) {
      forall c | LookupAsWritten(r', c).Some? ensures codeOf(LookupAsWritten(r', c).value) == c {
        if c != codeOf(v) {
          assert LookupAsWritten(r', c) == LookupAsWritten(r, c);
        }
      }
    }
    var d := DeleteIndexed(r, id).0;
    forall c | LookupAsWritten(d, c).Some? ensures codeOf(LookupAsWritten(d, c).value) == c {
      assert LookupAsWritten(d, c) == LookupAsWritten(r, c);
    }
  }
}

/** The entity repositories: asset, broker and trading-pair lookups by
    code, and the account and trading-rules filters. */
module EntityRepositories {
  import opened Base
  import opened Seqs
  import opened Repository
  import opened Indexed
  import opened Entities
  import TradingRules

  type AssetRepo = IndexedRepo<Asset>
  type BrokerRepo = IndexedRepo<Broker>
  type PairRepo = IndexedRepo<TradingPair>

  function Ticker(a: Asset): string { a.ticker }
  function BrokerCode(b: Broker): string { b.code }
  function PairCode(p: TradingPair): string { p.pairCode }

  /** `AssetRepository.save`: indexes the ticker. */
  function SaveAsset(r: AssetRepo, a: Asset): (r': AssetRepo)
    requires ValidIndexed(r)
    ensures ValidIndexed(r')
    ensures Get(r'.store, a.id) == Some(a) && Get(r'.index, a.ticker) == Some(a.id)
    ensures GetByTicker(r', a.ticker) == Some(a)
    ensures forall k :: k != a.id ==> Get(r'.store, k) == Get(r.store, k)
    ensures forall c :: c != a.ticker ==> Get(r'.index, c) == Get(r.index, c)
  {
    SaveThenLookup(r, a.id, a, Ticker);
    SaveIndexed(r, a.id, a.ticker, a)
  }

  /** `get_by_ticker`, as written: follow the ticker index to an id and
      return whatever is stored under that id now. While the index is
      consistent this is the checked lookup, so the asset found carries the
      ticker; see `Indexed.Lookup` for the corrected lookup. */
  function GetByTicker(r: AssetRepo, ticker: string): (o: Option<Asset>)
    ensures Get(r.index, ticker).None? ==> o.None?
    ensures Get(r.index, ticker).Some? ==> o == Get(r.store, Get(r.index, ticker).value)
    ensures o.Some? ==> o.value in GetAll(r.store)
    ensures IndexConsistent(r, Ticker) ==> o == Lookup(r, ticker, Ticker) && (o.Some? ==> o.value.ticker == ticker)
  {
    LookupAsWritten(r, ticker)
  }

  /** `BrokerRepository.save`: indexes the broker code. */
  function SaveBroker(r: BrokerRepo, b: Broker): (r': BrokerRepo)
    requires ValidIndexed(r)
    ensures ValidIndexed(r')
    ensures Get(r'.store, b.id) == Some(b) && Get(r'.index, b.code) == Some(b.id)
    ensures GetByCode(r', b.code) == Some(b)
    ensures forall k :: k != b.id ==> Get(r'.store, k) == Get(r.store, k)
    ensures forall c :: c != b.code ==> Get(r'.index, c) == Get(r.index, c)
  {
    SaveThenLookup(r, b.id, b, BrokerCode);
    SaveIndexed(r, b.id, b.code, b)
  }

  /** `get_by_code`, as written: follow the code index to an id and return
      whatever is stored under that id now. */
  function GetByCode(r: BrokerRepo, code: string): (o: Option<Broker>)
    ensures Get(r.index, code).None? ==> o.None?
    ensures Get(r.index, code).Some? ==> o == Get(r.store, Get(r.index, code).value)
    ensures o.Some? ==> o.value in GetAll(r.store)
    ensures IndexConsistent(r, BrokerCode) ==> o == Lookup(r, code, BrokerCode) && (o.Some? ==> o.value.code == code)
  {
    LookupAsWritten(r, code)
  }

  /** `TradingPairRepository.save`: indexes the pair code. */
  function SavePair(r: PairRepo, p: TradingPair): (r': PairRepo)
    requires ValidIndexed(r)
    ensures ValidIndexed(r')
    ensures Get(r'.store, p.id) == Some(p) && Get(r'.index, p.pairCode) == Some(p.id)
    ensures GetByPairCode(r', p.pairCode) == Some(p)
    ensures forall k :: k != p.id ==> Get(r'.store, k) == Get(r.store, k)
    ensures forall c :: c != p.pairCode ==> Get(r'.index, c) == Get(r.index, c)
  {
    SaveThenLookup(r, p.id, p, PairCode);
    SaveIndexed(r, p.id, p.pairCode, p)
  }

  /** `get_by_pair_code`, as written: follow the pair-code index to an id
      and return whatever is stored under that id now. */
  function GetByPairCode(r: PairRepo, code: string): (o: Option<TradingPair>)
    ensures Get(r.index, code).None? ==> o.None?
    ensures Get(r.index, code).Some? ==> o == Get(r.store, Get(r.index, code).value)
    ensures o.Some? ==> o.value in GetAll(r.store)
    ensures IndexConsistent(r, PairCode) ==> o == Lookup(r, code, PairCode) && (o.Some? ==> o.value.pairCode == code)
  {
    LookupAsWritten(r, code)
  }

  /** After `clear` no code finds anything. */
  lemma ClearedLookupsFail(a: AssetRepo, b: BrokerRepo, p: PairRepo, code: string)
    ensures GetByTicker(ClearIndexed(a), code).None?
    ensures GetByCode(ClearIndexed(b), code).None?
    ensures GetByPairCode(ClearIndexed(p), code).None?
  {
  }

  /** Re-saving asset 1 under a new ticker leaves the old ticker's index
      entry pointing at it: the lookup as written then answers a "BTC"
      query with the "ETH" asset, while the corrected lookup answers none. */
  lemma StaleTickerExample()
    ensures var btc := Asset(1, "BTC", "Bitcoin", Crypto, 1.0);
      var eth := Asset(1, "ETH", "Ether", Crypto, 1.0);
      var r := SaveIndexed(SaveIndexed(EmptyIndexed(), 1, "BTC", btc), 1, "ETH", eth);
      && LookupAsWritten(r, "BTC") == Some(eth)
      && eth.ticker != "BTC"
      && GetByTicker(r, "BTC") == Some(eth)
      && Lookup(r, "BTC", Ticker) == None
      && GetByTicker(r, "ETH") == Some(eth)
  {
    var btc := Asset(1, "BTC", "Bitcoin", Crypto, 1.0);
    var eth := Asset(1, "ETH", "Ether", Crypto, 1.0);
    var r1 := SaveIndexed(EmptyIndexed(), 1, "BTC", btc);
    var r := SaveIndexed(r1, 1, "ETH", eth);
    assert "ETH" != "BTC" by { assert "ETH"[0] != "BTC"[0]; }
    assert Get(r.index, "BTC") == Some(1);
  }

  /** `AccountRepository.get_by_agent`: the accounts whose agent has that id,
      in storage order. */
  function AccountsByAgent(r: Repo<Id, Account>, agent: Id): (accs: seq<Account>)
    ensures forall a :: a in accs <==> a in GetAll(r) && a.agent.id == agent
    ensures multiset(accs) <= multiset(GetAll(r))
  {
    Filter(GetAll(r), (a: Account) => a.agent.id == agent)
  }

  /** `AccountRepository.get_by_broker`. */
  function AccountsByBroker(r: Repo<Id, Account>, broker: Id): (accs: seq<Account>)
    ensures forall a :: a in accs <==> a in GetAll(r) && a.broker.id == broker
    ensures multiset(accs) <= multiset(GetAll(r))
  {
    Filter(GetAll(r), (a: Account) => a.broker.id == broker)
  }

  function ForBrokerAndPair(broker: Id, pair: string): TradingRules.Rules -> bool {
    (x: TradingRules.Rules) => x.brokerId == broker && x.pairCode == pair
  }

  /** `TradingRulesRepository.get_by_broker_and_pair`: the first stored rules
      for the broker and pair, in storage order. */
  function RulesByBrokerAndPair(r: Repo<Id, TradingRules.Rules>, broker: Id, pair: string): (o: Option<TradingRules.Rules>)
    ensures o.None? <==> forall x :: x in GetAll(r) ==> !(x.brokerId == broker && x.pairCode == pair)
    ensures o.Some? ==> o.value in GetAll(r) && o.value.brokerId == broker && o.value.pairCode == pair
    ensures o.Some? ==> exists i :: (
      && 0 <= i < |GetAll(r)| && GetAll(r)[i] == o.value
      && forall j :: 0 <= j < i ==> !(GetAll(r)[j].brokerId == broker && GetAll(r)[j].pairCode == pair))
  {
    var all := GetAll(r);
    var i := FirstIndex(all, ForBrokerAndPair(broker, pair));
    if i < |all| then Some(all[i]) else None
  }

  /** `TradingRulesRepository.get_by_broker`. */
  function RulesByBroker(r: Repo<Id, TradingRules.Rules>, broker: Id): (rs: seq<TradingRules.Rules>)
    ensures forall x :: x in rs <==> x in GetAll(r) && x.brokerId == broker
    ensures multiset(rs) <= multiset(GetAll(r))
  {
    Filter(GetAll(r), (x: TradingRules.Rules) => x.brokerId == broker)
  }

  /** The pair lookup refines the broker filter: what it finds is among that
      broker's rules, and it finds something whenever one of them has the
      pair. */
  lemma PairLookupWithinBroker(r: Repo<Id, TradingRules.Rules>, broker: Id, pair: string)
    ensures RulesByBrokerAndPair(r, broker, pair).Some? ==> RulesByBrokerAndPair(r, broker, pair).value in RulesByBroker(r, broker)
    ensures (exists x :: x in RulesByBroker(r, broker) && x.pairCode == pair) ==> RulesByBrokerAndPair(r, broker, pair).Some?
  {
  }
}
