/** `TradingOrder`: the leveraged order/position and its guarded lifecycle
    PENDING -> FILLED -> CLOSED, or PENDING -> CANCELLED. The source mutates
    the order in place; here every transition returns the new order value,
    and a refused transition returns an error and no order at all, which is
    the "raise before touching any field" behaviour. */
module OrderEnums {
  /** `OrderDirection`. */
  datatype Direction = Long | Short

  /** `OrderStatus`, shared by trading orders and spot orders. */
  datatype Status = Pending | Filled | Cancelled | Closed
}

module Orders {
  import opened Base
  import opened OrderEnums

  datatype OrderError =
    | BlankPairCode
    | NonPositiveVolume
    | NonPositiveCreatePrice
    | NonPositiveLeverage
    | NonPositiveLimitPrice
    | InvalidState(status: Status)
    | NeverFilled
    | NegativeFees

  datatype TradingOrder = TradingOrder(
    id: Id,
    pairCode: string,
    direction: Direction,
    volume: real,
    createTimestamp: Timestamp,
    createPrice: real,
    agentId: Id,
    accountId: Id,
    brokerId: Id,
    runId: Id,
    status: Status,
    fillTimestamp: Option<Timestamp>,
    fillPrice: Option<real>,
    closeTimestamp: Option<Timestamp>,
    closePrice: Option<real>,
    cancelTimestamp: Option<Timestamp>,
    limitPrice: Option<real>,
    stopLoss: Option<real>,
    takeProfit: Option<real>,
    leverage: Option<real>,
    feesOnCreate: real,
    feesOnFill: real,
    feesOnClose: real,
    feesOnCancel: real,
    feesOnOvernight: real,
    marginReserved: real,
    grossPnl: real,
    netPnl: real,
    parentOrderId: Option<Id>,
    rootOrderId: Option<Id>)

  /** The checks `__post_init__` makes, in its order. */
  ghost predicate PassesConstruction(d: TradingOrder) {
    && !IsBlank(d.pairCode)
    && d.volume > 0.0
    && d.createPrice > 0.0
    && (d.leverage.Some? ==> d.leverage.value > 0.0)
    && (d.limitPrice.Some? ==> d.limitPrice.value > 0.0)
  }

  /** Construction (`__post_init__`): validates the draft and makes an order
      without a parent or explicit root its own root. */
  function Create(d: TradingOrder): (r: Result<TradingOrder, OrderError>)
    ensures r.Ok? <==> PassesConstruction(d)
    ensures r == Err(BlankPairCode) <==> IsBlank(d.pairCode)
    ensures r == Err(NonPositiveVolume) <==> !IsBlank(d.pairCode) && d.volume <= 0.0
    ensures r == Err(NonPositiveCreatePrice) <==> !IsBlank(d.pairCode) && d.volume > 0.0 && d.createPrice <= 0.0
    ensures r.Err? ==> r.error in {BlankPairCode, NonPositiveVolume, NonPositiveCreatePrice, NonPositiveLeverage, NonPositiveLimitPrice}
    ensures r == Err(NonPositiveLeverage) <==>
      !IsBlank(d.pairCode) && d.volume > 0.0 && d.createPrice > 0.0
      && d.leverage.Some? && d.leverage.value <= 0.0
    ensures r == Err(NonPositiveLimitPrice) <==>
      !IsBlank(d.pairCode) && d.volume > 0.0 && d.createPrice > 0.0
      && (d.leverage.Some? ==> d.leverage.value > 0.0)
      && d.limitPrice.Some? && d.limitPrice.value <= 0.0
    ensures r.Ok? && d.rootOrderId.None? && d.parentOrderId.None? ==> r.value.rootOrderId == Some(d.id)
    ensures r.Ok? && (d.rootOrderId.Some? || d.parentOrderId.Some?) ==> r.value.rootOrderId == d.rootOrderId
    ensures r.Ok? ==> r.value.(rootOrderId := d.rootOrderId) == d
  {
    if IsBlank(d.pairCode) then Err(BlankPairCode)
    else if d.volume <= 0.0 then Err(NonPositiveVolume)
    else if d.createPrice <= 0.0 then Err(NonPositiveCreatePrice)
    else
      var o := if d.rootOrderId.None? && d.parentOrderId.None? then d.(rootOrderId := Some(d.id)) else d;
      if o.leverage.Some? && o.leverage.value <= 0.0 then Err(NonPositiveLeverage)
      else if o.limitPrice.Some? && o.limitPrice.value <= 0.0 then Err(NonPositiveLimitPrice)
      else Ok(o)
  }

  /** `total_fees`: the five fee accumulators added up. With no negative
      stage the total bounds every stage and is 0 only when each one is. */
  function TotalFees(o: TradingOrder): (t: real)
    ensures NoNegativeFees(o) ==>
      && t >= o.feesOnCreate && t >= o.feesOnFill && t >= o.feesOnClose
      && t >= o.feesOnCancel && t >= o.feesOnOvernight
      && (t == 0.0 <==> o.feesOnCreate == o.feesOnFill == o.feesOnClose == o.feesOnCancel == o.feesOnOvernight == 0.0)
  {
    o.feesOnCreate + o.feesOnFill + o.feesOnClose + o.feesOnCancel + o.feesOnOvernight
  }

  /** No fee stage holds a negative amount. */
  predicate NoNegativeFees(o: TradingOrder) {
    && o.feesOnCreate >= 0.0 && o.feesOnFill >= 0.0 && o.feesOnClose >= 0.0
    && o.feesOnCancel >= 0.0 && o.feesOnOvernight >= 0.0
  }

  /** `is_active`: an order is active until it reaches a terminal state. */
  function IsActive(o: TradingOrder): (b: bool)
    ensures b <==> o.status != Closed && o.status != Cancelled
  {
    o.status == Pending || o.status == Filled
  }

  /** The fields no transition writes: identity, terms and relationships. */
  ghost predicate SameTerms(a: TradingOrder, b: TradingOrder) {
    && a.id == b.id && a.pairCode == b.pairCode && a.direction == b.direction
    && a.volume == b.volume && a.createTimestamp == b.createTimestamp && a.createPrice == b.createPrice
    && a.agentId == b.agentId && a.accountId == b.accountId && a.brokerId == b.brokerId && a.runId == b.runId
    && a.limitPrice == b.limitPrice && a.stopLoss == b.stopLoss && a.takeProfit == b.takeProfit
    && a.leverage == b.leverage && a.parentOrderId == b.parentOrderId && a.rootOrderId == b.rootOrderId
  }

  /** Gross P&L of a round trip, signed by direction. */
  function GrossPnl(direction: Direction, fillPrice: real, closePrice: real, volume: real): real {
    match direction
    case Long => (closePrice - fillPrice) * volume
    case Short => (fillPrice - closePrice) * volume
  }

  /** `fill`: only a pending order can be filled. */
  function Fill(o: TradingOrder, ts: Timestamp, price: real, fees: real, margin: real): (r: Result<TradingOrder, OrderError>)
    ensures r.Ok? <==> o.status == Pending
    ensures r.Err? ==> r.error == InvalidState(o.status)
    ensures r.Ok? ==> var f := r.value;
      && f.status == Filled && SameTerms(o, f)
      && f.fillTimestamp == Some(ts) && f.fillPrice == Some(price)
      && f.feesOnFill == fees && f.marginReserved == margin
      && TotalFees(f) == TotalFees(o) - o.feesOnFill + fees
      && f.closePrice == o.closePrice && f.cancelTimestamp == o.cancelTimestamp
      && f.grossPnl == o.grossPnl && f.netPnl == o.netPnl
      && f.(fillTimestamp := o.fillTimestamp, fillPrice := o.fillPrice, feesOnFill := o.feesOnFill,
            marginReserved := o.marginReserved, status := o.status) == o
  {
    if o.status != Pending then Err(InvalidState(o.status))
    else Ok(o.(fillTimestamp := Some(ts), fillPrice := Some(price), feesOnFill := fees,
               marginReserved := margin, status := Filled))
  }

  /** `close`: only a filled order with a fill price can be closed; the P&L
      is realised against the fill price and all fees so far are deducted. */
  function Close(o: TradingOrder, ts: Timestamp, price: real, fees: real): (r: Result<TradingOrder, OrderError>)
    ensures r.Ok? <==> o.status == Filled && o.fillPrice.Some?
    ensures o.status != Filled ==> r == Err(InvalidState(o.status))
    ensures o.status == Filled && o.fillPrice.None? ==> r == Err(NeverFilled)
    ensures r.Ok? ==> var c := r.value;
      && c.status == Closed && SameTerms(o, c)
      && c.closeTimestamp == Some(ts) && c.closePrice == Some(price) && c.feesOnClose == fees
      && c.fillPrice == o.fillPrice && c.marginReserved == o.marginReserved
      && (o.direction == Long ==> c.grossPnl == (price - o.fillPrice.value) * o.volume)
      && (o.direction == Short ==> c.grossPnl == (o.fillPrice.value - price) * o.volume)
      && TotalFees(c) == TotalFees(o) - o.feesOnClose + fees
      && c.netPnl == c.grossPnl - TotalFees(c)
      && c.(closeTimestamp := o.closeTimestamp, closePrice := o.closePrice, feesOnClose := o.feesOnClose,
            status := o.status, grossPnl := o.grossPnl, netPnl := o.netPnl) == o
  {
    if o.status != Filled then Err(InvalidState(o.status))
    else if o.fillPrice.None? then Err(NeverFilled)
    else
      var c := o.(closeTimestamp := Some(ts), closePrice := Some(price), feesOnClose := fees, status := Closed);
      var g := GrossPnl(o.direction, o.fillPrice.value, price, o.volume);
      assert o.direction == Short ==> g == (o.fillPrice.value - price) * o.volume;
      var c' := c.(grossPnl := g);
      Ok(c'.(netPnl := c'.grossPnl - TotalFees(c')))
  }

  /** `cancel`: only a pending order can be cancelled; its net P&L becomes
      the loss of every fee charged so far. */
  function Cancel(o: TradingOrder, ts: Timestamp, fees: real): (r: Result<TradingOrder, OrderError>)
    ensures r.Ok? <==> o.status == Pending
    ensures r.Err? ==> r.error == InvalidState(o.status)
    ensures r.Ok? ==> var c := r.value;
      && c.status == Cancelled && SameTerms(o, c)
      && c.cancelTimestamp == Some(ts) && c.feesOnCancel == fees
      && TotalFees(c) == TotalFees(o) - o.feesOnCancel + fees
      && c.netPnl == -TotalFees(c)
      && c.grossPnl == o.grossPnl && c.fillPrice == o.fillPrice
      && c.(cancelTimestamp := o.cancelTimestamp, feesOnCancel := o.feesOnCancel,
            status := o.status, netPnl := o.netPnl) == o
  {
    if o.status != Pending then Err(InvalidState(o.status))
    else
      var c := o.(cancelTimestamp := Some(ts), feesOnCancel := fees, status := Cancelled);
      Ok(c.(netPnl := -TotalFees(c)))
  }

  /** `add_overnight_fees`: accrues a non-negative fee in any state; only a
      closed order has its net P&L brought up to date. */
  function AddOvernightFees(o: TradingOrder, fees: real): (r: Result<TradingOrder, OrderError>)
    ensures r.Ok? <==> fees >= 0.0
    ensures r.Err? ==> r.error == NegativeFees
    ensures r.Ok? ==> var a := r.value;
      && a.status == o.status && SameTerms(o, a)
      && a.feesOnOvernight == o.feesOnOvernight + fees
      && TotalFees(a) == TotalFees(o) + fees
      && a.grossPnl == o.grossPnl
      && (o.status == Closed ==> a.netPnl == a.grossPnl - TotalFees(a))
      && (o.status != Closed ==> a.netPnl == o.netPnl)
      && a.(feesOnOvernight := o.feesOnOvernight, netPnl := o.netPnl) == o
  {
    if fees < 0.0 then Err(NegativeFees)
    else
      var a := o.(feesOnOvernight := o.feesOnOvernight + fees);
      if a.status == Closed then Ok(a.(netPnl := a.grossPnl - TotalFees(a))) else Ok(a)
  }

  // ---------------------------------------------------------------------
  // Properties of the lifecycle
  // ---------------------------------------------------------------------

  /** The edges of the state machine. */
  predicate Step(from: Status, to: Status) {
    || (from == Pending && to == Filled)
    || (from == Filled && to == Closed)
    || (from == Pending && to == Cancelled)
  }

  /** Every accepted transition follows an edge of the state machine, and
      accruing overnight fees never changes the state. */
  lemma TransitionsFollowStateMachine(o: TradingOrder, ts: Timestamp, price: real, fees: real, margin: real)
    ensures Fill(o, ts, price, fees, margin).Ok? ==> Step(o.status, Fill(o, ts, price, fees, margin).value.status)
    ensures Close(o, ts, price, fees).Ok? ==> Step(o.status, Close(o, ts, price, fees).value.status)
    ensures Cancel(o, ts, fees).Ok? ==> Step(o.status, Cancel(o, ts, fees).value.status)
    ensures AddOvernightFees(o, fees).Ok? ==> AddOvernightFees(o, fees).value.status == o.status
  {
  }

  /** CLOSED and CANCELLED are terminal: no transition leaves them, and they
      are exactly the inactive states. */
  lemma TerminalStates(o: TradingOrder, ts: Timestamp, price: real, fees: real, margin: real)
    requires o.status in {Closed, Cancelled}
    ensures Fill(o, ts, price, fees, margin).Err?
    ensures Close(o, ts, price, fees).Err?
    ensures Cancel(o, ts, fees).Err?
    ensures !IsActive(o)
  {
  }

  /** The invariant every order keeps: once closed it has a fill price and
      its net P&L is its gross P&L less every fee charged. */
  ghost predicate PnlConsistent(o: TradingOrder) {
    o.status == Closed ==> o.fillPrice.Some? && o.netPnl == o.grossPnl - TotalFees(o)
  }

  /** Every transition preserves `PnlConsistent`, including overnight fees
      accrued after the close. */
  lemma {:induction false} TransitionsPreservePnl(o: TradingOrder, ts: Timestamp, price: real, fees: real, margin: real)
    requires PnlConsistent(o)
    ensures Fill(o, ts, price, fees, margin).Ok? ==> PnlConsistent(Fill(o, ts, price, fees, margin).value)
    ensures Close(o, ts, price, fees).Ok? ==> PnlConsistent(Close(o, ts, price, fees).value)
    ensures Cancel(o, ts, fees).Ok? ==> PnlConsistent(Cancel(o, ts, fees).value)
    ensures AddOvernightFees(o, fees).Ok? ==> PnlConsistent(AddOvernightFees(o, fees).value)
  {
  }

  /** A freshly constructed order satisfies the invariant whatever state the
      caller gave it, unless it claims CLOSED; a pending one is also active. */
  lemma CreatedPendingIsConsistent(d: TradingOrder)
    requires d.status != Closed
    requires Create(d).Ok?
    ensures PnlConsistent(Create(d).value)
    ensures d.status == Pending ==> IsActive(Create(d).value)
  {
  }

  /** The two directions are mirror images: the same prices give opposite
      gross P&L, and a price rise is a gain for LONG and a loss for SHORT. */
  lemma GrossPnlSigns(fillPrice: real, closePrice: real, volume: real)
    requires volume > 0.0
    ensures GrossPnl(Long, fillPrice, closePrice, volume) == -GrossPnl(Short, fillPrice, closePrice, volume)
    ensures closePrice > fillPrice ==> GrossPnl(Long, fillPrice, closePrice, volume) > 0.0
    ensures closePrice > fillPrice ==> GrossPnl(Short, fillPrice, closePrice, volume) < 0.0
    ensures closePrice == fillPrice ==> GrossPnl(Long, fillPrice, closePrice, volume) == 0.0
  {
  }

  /** A pending draft order with no fees yet. */
  function ExampleDraft(direction: Direction, volume: real, price: real): TradingOrder {
    TradingOrder(1, "BTCUSD", direction, volume, 0, price, 2, 3, 4, 5, Pending,
      None, None, None, None, None, None, None, None, None,
      0.0, 0.0, 0.0, 0.0, 0.0, 0.0, 0.0, 0.0, None, None)
  }

  /** Fill at 50000 with fee 5.01, accrue 0.50 overnight three times, close
      at 55000 with fee 5.50: gross 500, fees 12.01, net 487.99. */
  lemma LongRoundTripExample()
    ensures var o0 := Create(ExampleDraft(Long, 0.1, 50000.0));
      && o0.Ok?
      && var o1 := Fill(o0.value, 1, 50000.0, 5.01, 5000.0);
      && o1.Ok?
      && var o2 := AddOvernightFees(o1.value, 0.50);
      && o2.Ok?
      && var o3 := AddOvernightFees(o2.value, 0.50);
      && o3.Ok?
      && var o4 := AddOvernightFees(o3.value, 0.50);
      && o4.Ok?
      && var o5 := Close(o4.value, 2, 55000.0, 5.50);
      && o5.Ok?
      && o5.value.grossPnl == 500.0
      && TotalFees(o5.value) == 12.01
      && o5.value.netPnl == 487.99
  {
    var d := ExampleDraft(Long, 0.1, 50000.0);
    assert !IsWhitespace(d.pairCode[0]);
    var o0 := Create(d);
    assert o0 == Ok(d.(rootOrderId := Some(d.id)));
    var o1 := Fill(o0.value, 1, 50000.0, 5.01, 5000.0);
    assert o1.Ok? && o1.value.status == Filled && o1.value.fillPrice == Some(50000.0);
    assert TotalFees(o1.value) == 5.01;
    var o2 := AddOvernightFees(o1.value, 0.50);
    assert o2.Ok? && o2.value.status == Filled && o2.value.fillPrice == Some(50000.0);
    assert TotalFees(o2.value) == 5.51;
    var o3 := AddOvernightFees(o2.value, 0.50);
    assert o3.Ok? && o3.value.status == Filled && o3.value.fillPrice == Some(50000.0);
    assert TotalFees(o3.value) == 6.01;
    var o4 := AddOvernightFees(o3.value, 0.50);
    assert o4.Ok? && o4.value.status == Filled && o4.value.fillPrice == Some(50000.0);
    assert TotalFees(o4.value) == 6.51 && o4.value.direction == Long && o4.value.volume == 0.1;
    var o5 := Close(o4.value, 2, 55000.0, 5.50);
    assert o5.Ok? && o5.value.grossPnl == 500.0;
    assert TotalFees(o5.value) == 12.01;
  }

  /** Fill at 100, close at 110, volume 1: LONG gains 10. */
  lemma LongGainExample()
    ensures var f := Fill(ExampleDraft(Long, 1.0, 100.0), 1, 100.0, 0.0, 0.0);
      f.Ok? && Close(f.value, 2, 110.0, 0.0).Ok? && Close(f.value, 2, 110.0, 0.0).value.grossPnl == 10.0
  {
  }

  /** The same prices on a SHORT order lose 10. */
  lemma ShortLossExample()
    ensures var f := Fill(ExampleDraft(Short, 1.0, 100.0), 1, 100.0, 0.0, 0.0);
      f.Ok? && Close(f.value, 2, 110.0, 0.0).Ok? && Close(f.value, 2, 110.0, 0.0).value.grossPnl == -10.0
  {
  }
}
