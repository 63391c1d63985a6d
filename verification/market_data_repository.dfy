/** `MarketDataRepository`: per-symbol lists of market bars, appended to as
    bars arrive and queried by time window. */
module MarketData {
  import opened Base
  import opened Seqs
  import opened Repository

  /** `MarketBar`: one OHLCV bar of a symbol. */
  datatype Bar = Bar(timestamp: Timestamp, symbol: string, open: real, high: real, low: real, close: real, volume: real)

  /** The symbol -> bars dictionary, in the order symbols first appeared. */
  type MarketDataRepo = Repo<string, seq<Bar>>

  /** `self._data.get(symbol, [])`. */
  function BarsOf(r: MarketDataRepo, symbol: string): seq<Bar> {
    match Get(r, symbol)
    case None => []
    case Some(bs) => bs
  }

  /** The number of bars in a list of dictionary entries. */
  function TotalBars(es: seq<Entry<string, seq<Bar>>>): nat
    decreases |es|
  {
    if |es| == 0 then 0 else TotalBars(es[..|es| - 1]) + |es[|es| - 1].value|
  }

  /** Replacing one entry changes the total by the difference in length. */
  lemma {:induction false} TotalBarsUpdate(es: seq<Entry<string, seq<Bar>>>, i: nat, e: Entry<string, seq<Bar>>)
    requires i < |es|
    ensures TotalBars(es[i := e]) == TotalBars(es) - |es[i].value| + |e.value|
    decreases |es|
  {
    var n := |es| - 1;
    if i < n {
      assert es[i := e][..n] == es[..n][i := e];
      TotalBarsUpdate(es[..n], i, e);
    } else {
      assert es[i := e][..n] == es[..n];
    }
  }

  /** The bars stored under every symbol together. */
  function TotalCount(r: MarketDataRepo): nat {
    TotalBars(r.entries)
  }

  /** `add_bar`: appends the bar to its symbol's list, opening a list for a
      new symbol; a bar equal to one already stored is appended again. */
  function AddBar(r: MarketDataRepo, b: Bar): (r': MarketDataRepo)
    requires Valid(r)
    ensures Valid(r')
    ensures BarsOf(r', b.symbol) == BarsOf(r, b.symbol) + [b]
    ensures forall s :: s != b.symbol ==> Get(r', s) == Get(r, s)
    ensures TotalCount(r') == TotalCount(r) + 1
    ensures Keys(r') == if Exists(r, b.symbol) then Keys(r) else Keys(r) + [b.symbol]
  {
    var bs := BarsOf(r, b.symbol) + [b];
    SaveTotal(r, b.symbol, bs);
    SaveKeys(r, b.symbol, bs);
    Save(r, b.symbol, bs)
  }

  /** Saving a list under a symbol changes the total by the difference
      between the new list and the old one. */
  lemma SaveTotal(r: MarketDataRepo, symbol: string, bs: seq<Bar>)
    requires Valid(r)
    ensures TotalCount(Save(r, symbol, bs)) == TotalCount(r) - |BarsOf(r, symbol)| + |bs|
  {
    SaveShape(r, symbol, bs);
    var es := Save(r, symbol, bs).entries;
    match Find(r.entries, symbol)
    case Some(i) =>
      assert BarsOf(r, symbol) == r.entries[i].value;
      TotalBarsUpdate(r.entries, i, Entry(symbol, bs));
    case None =>
      assert BarsOf(r, symbol) == [];
      assert es[..|r.entries|] == r.entries;
  }

  /** Saving under a new symbol appends it to the symbols; saving under a
      known one keeps their order. */
  lemma SaveKeys(r: MarketDataRepo, symbol: string, bs: seq<Bar>)
    requires Valid(r)
    ensures Keys(Save(r, symbol, bs)) == if Exists(r, symbol) then Keys(r) else Keys(r) + [symbol]
  {
    SaveShape(r, symbol, bs);
  }

  function OfSymbol(symbol: string): Bar -> bool {
    (b: Bar) => b.symbol == symbol
  }

  /** `add_bars`: `add_bar` on each bar in turn. Each symbol's list grows by
      that symbol's bars, in the order given. */
  function AddBars(r: MarketDataRepo, bars: seq<Bar>): (r': MarketDataRepo)
    requires Valid(r)
    ensures Valid(r')
    ensures TotalCount(r') == TotalCount(r) + |bars|
    ensures forall s :: BarsOf(r', s) == BarsOf(r, s) + Filter(bars, OfSymbol(s))
    decreases |bars|
  {
    if |bars| == 0 then r
    else
      var r1 := AddBar(r, bars[0]);
      var r' := AddBars(r1, bars[1..]);
      forall s ensures BarsOf(r', s) == BarsOf(r, s) + Filter(bars, OfSymbol(s)) {
        AddBarsStep(r, r1, bars, s);
      }
      r'
  }

  /** One step of `AddBars`: the first bar joins its own symbol's list only. */
  lemma {:induction false} AddBarsStep(r: MarketDataRepo, r1: MarketDataRepo, bars: seq<Bar>, s: string)
    requires Valid(r) && |bars| > 0 && r1 == AddBar(r, bars[0])
    ensures BarsOf(r1, s) + Filter(bars[1..], OfSymbol(s)) == BarsOf(r, s) + Filter(bars, OfSymbol(s))
  {
    var rest := Filter(bars[1..], OfSymbol(s));
    var a := BarsOf(r, s);
    var f := Filter(bars, OfSymbol(s));
    var b1 := BarsOf(r1, s);
    if s == bars[0].symbol {
      assert f == [bars[0]] + rest;
      assert b1 == a + [bars[0]];
      ConcatAssoc(a, [bars[0]], rest);
    } else {
      assert f == rest;
      assert Get(r1, s) == Get(r, s);
    }
  }

  function BarTime(b: Bar): int {
    b.timestamp
  }

  function After(start: Option<Timestamp>): Bar -> bool {
    (b: Bar) => start.Some? && b.timestamp >= start.value
  }

  function Until(end: Option<Timestamp>): Bar -> bool {
    (b: Bar) => end.Some? && b.timestamp <= end.value
  }

  function FromStart(start: Option<Timestamp>): Bar -> bool {
    (b: Bar) => start.None? || b.timestamp >= start.value
  }

  /** The inclusive window `[start, end]`; a missing bound does not bound. */
  function InWindow(start: Option<Timestamp>, end: Option<Timestamp>): Bar -> bool {
    (b: Bar) => (start.None? || b.timestamp >= start.value) && (end.None? || b.timestamp <= end.value)
  }

  /** `get_bars`: nothing for an unknown symbol; otherwise the symbol's bars
      inside the inclusive window, by time (stable for equal times). */
  function GetBars(r: MarketDataRepo, symbol: string, start: Option<Timestamp>, end: Option<Timestamp>): (bs: seq<Bar>)
    ensures bs == Query(BarsOf(r, symbol), InWindow(start, end), BarTime)
    ensures SortedBy(bs, BarTime)
    ensures forall b :: b in bs <==>
      b in BarsOf(r, symbol) && (start.None? || start.value <= b.timestamp) && (end.None? || b.timestamp <= end.value)
    ensures !Exists(r, symbol) ==> bs == []
  {
    if !Exists(r, symbol) then []
    else
      var bars := Get(r, symbol).value;
      NarrowIsFilter(bars, start.Some?, After(start), FromStart(start));
      TwoStageFilter(bars, FromStart(start), end.Some?, Until(end), InWindow(start, end));
      SortBy(Narrow(Narrow(bars, start.Some?, After(start)), end.Some?, Until(end)), BarTime)
  }

  /** `get_latest_bar`: `None` when the symbol has no bars, otherwise the
      first stored bar among those with the latest time (Python's `max`). */
  function GetLatestBar(r: MarketDataRepo, symbol: string): (o: Option<Bar>)
    ensures o.None? <==> BarsOf(r, symbol) == []
    ensures o.Some? ==> o.value in BarsOf(r, symbol)
    ensures o.Some? ==> forall b :: b in BarsOf(r, symbol) ==> b.timestamp <= o.value.timestamp
    ensures o.Some? ==> exists i :: (
      && 0 <= i < |BarsOf(r, symbol)| && BarsOf(r, symbol)[i] == o.value
      && forall j :: 0 <= j < i ==> BarsOf(r, symbol)[j].timestamp < o.value.timestamp)
  {
    var bars := BarsOf(r, symbol);
    if |bars| == 0 then None
    else
      var i := FirstMaxIndex(bars, BarTime);
      Some(bars[i])
  }

  /** `get_symbols`: every symbol with a list, once each. */
  function GetSymbols(r: MarketDataRepo): (syms: seq<string>)
    requires Valid(r)
    ensures forall s :: s in syms <==> Exists(r, s)
    ensures forall i, j :: 0 <= i < j < |syms| ==> syms[i] != syms[j]
    ensures |syms| == Count(r)
  {
    var ks := Keys(r);
    assert forall s :: s in ks ==> Exists(r, s) by {
      forall s | s in ks ensures Exists(r, s) {
        var i :| 0 <= i < |ks| && ks[i] == s;
        assert r.entries[i].key == s;
      }
    }
    assert forall s :: Exists(r, s) ==> s in ks by {
      forall s | Exists(r, s) ensures s in ks {
        var i :| 0 <= i < |r.entries| && r.entries[i].key == s;
        assert ks[i] == s;
      }
    }
    ks
  }

  /** `clear`. */
  function ClearData(r: MarketDataRepo): (r': MarketDataRepo)
    ensures Valid(r') && TotalCount(r') == 0
    ensures forall s :: BarsOf(r', s) == [] && !Exists(r', s)
  {
    Clear(r)
  }

  /** `count`: the bars of one symbol, or of all symbols when no symbol is
      given. The source tests `if symbol:`, so the empty symbol counts as
      "not given" too. */
  function CountBars(r: MarketDataRepo, symbol: Option<string>): (n: nat)
    ensures symbol.Some? && symbol.value != "" ==> n == |BarsOf(r, symbol.value)|
    ensures symbol.None? || symbol.value == "" ==> n == TotalCount(r)
  {
    if symbol.Some? && symbol.value != "" then |BarsOf(r, symbol.value)| else TotalCount(r)
  }

  // ---------------------------------------------------------------------
  // Properties
  // ---------------------------------------------------------------------

  /** Loading a batch into an empty repository: each symbol's count is the
      number of its bars in the batch, the total is the batch size, and the
      full-range query returns exactly that symbol's bars, sorted. */
  lemma LoadedBarsComeBack(bars: seq<Bar>, symbol: string)
    ensures var r := AddBars(Empty(), bars);
      && CountBars(r, None) == |bars|
      && (symbol != "" ==> CountBars(r, Some(symbol)) == |Filter(bars, OfSymbol(symbol))|)
      && multiset(GetBars(r, symbol, None, None)) == multiset(Filter(bars, OfSymbol(symbol)))
  {
    var r := AddBars(Empty(), bars);
    assert BarsOf(Empty(), symbol) == [];
    assert BarsOf(r, symbol) == Filter(bars, OfSymbol(symbol));
    FilterAll(BarsOf(r, symbol), InWindow(None, None));
  }

  /** `count("")` is the total, even when bars are stored under the empty
      symbol. */
  lemma EmptySymbolCountsAll(r: MarketDataRepo)
    ensures CountBars(r, Some("")) == CountBars(r, None)
  {
  }

  function ExampleBar(ts: Timestamp, symbol: string): Bar {
    Bar(ts, symbol, 1.0, 2.0, 0.5, 1.5, 10.0)
  }

  function ExampleBars(): seq<Bar> {
    [ExampleBar(20, "BTC"), ExampleBar(10, "BTC"), ExampleBar(15, "ETH")]
  }

  lemma ExampleBarsBySymbol()
    ensures Filter(ExampleBars(), OfSymbol("BTC")) == [ExampleBar(20, "BTC"), ExampleBar(10, "BTC")]
  {
    var bars := ExampleBars();
    assert bars[2..][1..] == [];
    assert Filter(bars[2..], OfSymbol("BTC")) == [];
    assert Filter(bars[1..], OfSymbol("BTC")) == [ExampleBar(10, "BTC")];
  }

  /** Of two bars added out of time order to a repository that has none of
      their symbol, the latest is the one with the greater time. */
  lemma LatestBarExample(r: MarketDataRepo)
    requires Valid(r) && !Exists(r, "BTC")
    ensures GetLatestBar(AddBars(r, ExampleBars()), "BTC") == Some(ExampleBar(20, "BTC"))
  {
    ExampleBarsBySymbol();
    var r' := AddBars(r, ExampleBars());
    assert BarsOf(r, "BTC") == [];
    var bs := BarsOf(r', "BTC");
    assert bs == [ExampleBar(20, "BTC"), ExampleBar(10, "BTC")];
    assert FirstMaxIndex(bs, BarTime) == 0;
  }
}
