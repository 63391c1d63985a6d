/** `DecisionAction`: a command from a trading agent to the backtest runner,
    and its validator, which reports the first check that fails. */
module DecisionActions {
  import opened Base
  import opened Seqs

  datatype ActionType =
    | CreateSpotLimit
    | CreateSpotMarket
    | CreateTradeLimit
    | CreateTradeMarket
    | ModifySpotLimit
    | ModifyTradeLimit
    | SplitSpotLimit
    | SplitTradeLimit
    | CancelSpotLimit
    | CancelTradeLimit
    | CloseTrade

  /** One entry of `split_chunks`; `volume` is `None` when the chunk has no
      "volume" key. */
  datatype Chunk = Chunk(volume: Option<real>)

  datatype DecisionAction = DecisionAction(
    actionType: ActionType,
    timestamp: Timestamp,
    agentId: Id,
    accountId: Id,
    brokerId: Id,
    runId: Id,
    pairCode: string,
    orderId: Option<Id>,
    volume: Option<real>,
    price: Option<real>,
    direction: Option<string>,
    leverage: Option<real>,
    stopLoss: Option<real>,
    takeProfit: Option<real>,
    splitChunks: Option<seq<Chunk>>)

  datatype ActionError =
    | BlankPairCode
    | CreateNeedsVolume
    | CreateNeedsDirection
    | LimitNeedsPrice
    | NeedsOrderId
    | SplitNeedsOrderId
    | SplitNeedsChunks
    | ChunkMissingVolume(index: nat)
    | ChunkNonPositiveVolume(index: nat)
    | NonPositiveLeverage
    | NonPositiveStopLoss
    | NonPositiveTakeProfit

  predicate IsCreate(t: ActionType) {
    t in {CreateSpotMarket, CreateSpotLimit, CreateTradeMarket, CreateTradeLimit}
  }

  predicate IsLimitCreate(t: ActionType) {
    t in {CreateSpotLimit, CreateTradeLimit}
  }

  predicate IsOrderCommand(t: ActionType) {
    t in {ModifySpotLimit, ModifyTradeLimit, CancelSpotLimit, CancelTradeLimit, CloseTrade}
  }

  predicate IsSplit(t: ActionType) {
    t in {SplitSpotLimit, SplitTradeLimit}
  }

  predicate Positive(x: Option<real>) {
    x.Some? && x.value > 0.0
  }

  predicate PositiveIfSet(x: Option<real>) {
    x.Some? ==> x.value > 0.0
  }

  function IsBadChunk(c: Chunk): bool {
    !Positive(c.volume)
  }

  /** The first chunk without a positive volume, as the loop over
      `enumerate(split_chunks)` reports it. */
  function FirstBadChunk(chunks: seq<Chunk>): (r: Option<ActionError>)
    ensures r.None? <==> forall j :: 0 <= j < |chunks| ==> Positive(chunks[j].volume)
    ensures r.Some? ==> exists j :: (
      && 0 <= j < |chunks| && !Positive(chunks[j].volume)
      && (forall k :: 0 <= k < j ==> Positive(chunks[k].volume))
      && r.value == (if chunks[j].volume.None? then ChunkMissingVolume(j) else ChunkNonPositiveVolume(j)))
  {
    var j := FirstIndex(chunks, IsBadChunk);
    if j == |chunks| then None
    else if chunks[j].volume.None? then Some(ChunkMissingVolume(j))
    else Some(ChunkNonPositiveVolume(j))
  }

  /** The checks specific to the action type. */
  ghost predicate ActionChecksPass(a: DecisionAction) {
    && (IsCreate(a.actionType) ==>
          Positive(a.volume) && a.direction.Some?
          && (IsLimitCreate(a.actionType) ==> Positive(a.price)))
    && (IsOrderCommand(a.actionType) ==> a.orderId.Some?)
    && (IsSplit(a.actionType) ==>
          && a.orderId.Some? && a.splitChunks.Some? && |a.splitChunks.value| >= 2
          && forall j :: 0 <= j < |a.splitChunks.value| ==> Positive(a.splitChunks.value[j].volume))
  }

  /** Every check `validate` makes, as one condition. */
  ghost predicate ValidAction(a: DecisionAction) {
    && !IsBlank(a.pairCode)
    && ActionChecksPass(a)
    && PositiveIfSet(a.leverage) && PositiveIfSet(a.stopLoss) && PositiveIfSet(a.takeProfit)
  }

  /** The action-type checks, in their order. */
  function ActionSpecific(a: DecisionAction): (r: Option<ActionError>)
    ensures r.None? <==> ActionChecksPass(a)
  {
    if IsCreate(a.actionType) then
      if !Positive(a.volume) then Some(CreateNeedsVolume)
      else if a.direction.None? then Some(CreateNeedsDirection)
      else if IsLimitCreate(a.actionType) && !Positive(a.price) then Some(LimitNeedsPrice)
      else None
    else if IsOrderCommand(a.actionType) then
      if a.orderId.None? then Some(NeedsOrderId) else None
    else if IsSplit(a.actionType) then
      if a.orderId.None? then Some(SplitNeedsOrderId)
      else if a.splitChunks.None? || |a.splitChunks.value| < 2 then Some(SplitNeedsChunks)
      else FirstBadChunk(a.splitChunks.value)
    else None
  }

  /** `validate`: `None` for `(True, "")`, otherwise the first failure. The
      common pair-code check comes first and the optional numeric fields
      are examined only once the type-specific checks passed. */
  function Validate(a: DecisionAction): (r: Option<ActionError>)
    ensures r.None? <==> ValidAction(a)
    ensures IsBlank(a.pairCode) <==> r == Some(BlankPairCode)
    ensures r.Some? && r.value in {NonPositiveLeverage, NonPositiveStopLoss, NonPositiveTakeProfit}
            ==> !IsBlank(a.pairCode) && ActionChecksPass(a)
    ensures !IsBlank(a.pairCode) && ActionSpecific(a).Some? ==> r == ActionSpecific(a)
    ensures r == Some(NonPositiveLeverage) <==>
      !IsBlank(a.pairCode) && ActionChecksPass(a) && !PositiveIfSet(a.leverage)
    ensures r == Some(NonPositiveStopLoss) <==>
      !IsBlank(a.pairCode) && ActionChecksPass(a) && PositiveIfSet(a.leverage) && !PositiveIfSet(a.stopLoss)
    ensures r == Some(NonPositiveTakeProfit) <==>
      !IsBlank(a.pairCode) && ActionChecksPass(a)
      && PositiveIfSet(a.leverage) && PositiveIfSet(a.stopLoss) && !PositiveIfSet(a.takeProfit)
  {
    if IsBlank(a.pairCode) then Some(BlankPairCode)
    else
      var specific := ActionSpecific(a);
      if specific.Some? then specific
      else if !PositiveIfSet(a.leverage) then Some(NonPositiveLeverage)
      else if !PositiveIfSet(a.stopLoss) then Some(NonPositiveStopLoss)
      else if !PositiveIfSet(a.takeProfit) then Some(NonPositiveTakeProfit)
      else None
  }

  // ---------------------------------------------------------------------
  // Properties
  // ---------------------------------------------------------------------

  /** Which checks apply depends only on the action type: every create
      action needs a volume and a direction, the two limit creates also a
      price, modify, cancel and close need the order they act on, and a
      split needs its order, at least two chunks, and a positive volume in
      each chunk, the first bad chunk being the one reported. */
  lemma RequiredFields(a: DecisionAction)
    requires !IsBlank(a.pairCode)
    ensures IsCreate(a.actionType) && !Positive(a.volume) ==> Validate(a) == Some(CreateNeedsVolume)
    ensures IsCreate(a.actionType) && Positive(a.volume) && a.direction.None? ==> Validate(a) == Some(CreateNeedsDirection)
    ensures IsLimitCreate(a.actionType) && Positive(a.volume) && a.direction.Some? && !Positive(a.price)
            ==> Validate(a) == Some(LimitNeedsPrice)
    ensures IsOrderCommand(a.actionType) && a.orderId.None? ==> Validate(a) == Some(NeedsOrderId)
    ensures IsSplit(a.actionType) && a.orderId.None? ==> Validate(a) == Some(SplitNeedsOrderId)
    ensures IsSplit(a.actionType) && a.orderId.Some? && (a.splitChunks.None? || |a.splitChunks.value| < 2)
            ==> Validate(a) == Some(SplitNeedsChunks)
    ensures IsSplit(a.actionType) && a.orderId.Some? && a.splitChunks.Some? && |a.splitChunks.value| >= 2
            && FirstBadChunk(a.splitChunks.value).Some?
            ==> Validate(a) == FirstBadChunk(a.splitChunks.value)
  {
  }

  /** A market create carries no price requirement. */
  lemma MarketCreateNeedsNoPrice(a: DecisionAction)
    requires a.actionType in {CreateSpotMarket, CreateTradeMarket}
    ensures Validate(a.(price := None)) == Validate(a)
  {
  }

  function ExampleAction(t: ActionType): DecisionAction {
    DecisionAction(t, 0, 1, 2, 3, 4, "BTCUSD", None, Some(1.5), None, Some("BUY"),
      None, None, None, None)
  }

  /** A market buy of 1.5 passes; a close without an order id fails; a
      split whose second chunk has no volume reports chunk 1. */
  lemma ValidateExample()
    ensures Validate(ExampleAction(CreateSpotMarket)) == None
    ensures Validate(ExampleAction(CreateSpotLimit)) == Some(LimitNeedsPrice)
    ensures Validate(ExampleAction(CloseTrade)) == Some(NeedsOrderId)
    ensures Validate(ExampleAction(SplitTradeLimit).(orderId := Some(9),
              splitChunks := Some([Chunk(Some(1.0)), Chunk(None), Chunk(Some(-1.0))]))) == Some(ChunkMissingVolume(1))
    ensures Validate(ExampleAction(SplitTradeLimit).(orderId := Some(9), splitChunks := Some([Chunk(Some(1.0))])))
            == Some(SplitNeedsChunks)
    ensures Validate(ExampleAction(CreateSpotMarket).(pairCode := " ", volume := None)) == Some(BlankPairCode)
  {
    assert !IsWhitespace(ExampleAction(CreateSpotMarket).pairCode[0]);
  }
}
