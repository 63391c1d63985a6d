/** `SpotOrder`: a frozen record for direct asset exchange. It is never
    changed in place; a fill or a cancellation builds a new order value
    through the same construction checks, PENDING -> FILLED or
    PENDING -> CANCELLED. */
module SpotOrders {
  import opened Base
  import opened OrderEnums

  datatype SpotError =
    | BlankPairCode
    | NonPositiveVolume
    | NegativeOrderNumber
    | NonPositiveLimitPrice
    | InvalidState(status: Status)
    | InvalidFillVolume
    | InvalidCancelVolume

  datatype SpotOrder = SpotOrder(
    id: Id,
    brokerId: Id,
    pairCode: string,
    agentId: Id,
    accountId: Id,
    runId: Id,
    orderNumber: int,
    direction: Direction,
    status: Status,
    createTimestamp: Timestamp,
    volume: real,
    limitPrice: Option<real>,
    parentId: Option<Id>,
    rootId: Option<Id>,
    fillTimestamp: Option<Timestamp>,
    fillPrice: Option<real>,
    fillVolume: Option<real>,
    cancelTimestamp: Option<Timestamp>,
    cancelVolume: Option<real>,
    feeCreate: Option<real>,
    feeFill: Option<real>,
    feeCancel: Option<real>)

  /** A value construction accepts and would return unchanged: it passes
      every check and already has a root or a parent. */
  ghost predicate Constructed(o: SpotOrder) {
    && !IsBlank(o.pairCode)
    && o.volume > 0.0
    && o.orderNumber >= 0
    && (o.limitPrice.Some? ==> o.limitPrice.value > 0.0)
    && (o.rootId.Some? || o.parentId.Some?)
  }

  /** Construction (`__post_init__`): the checks in their order; an order
      with neither parent nor root becomes its own root. */
  function Create(d: SpotOrder): (r: Result<SpotOrder, SpotError>)
    ensures r.Ok? <==> !IsBlank(d.pairCode) && d.volume > 0.0 && d.orderNumber >= 0
                       && (d.limitPrice.Some? ==> d.limitPrice.value > 0.0)
    ensures r == Err(BlankPairCode) <==> IsBlank(d.pairCode)
    ensures r == Err(NonPositiveVolume) <==> !IsBlank(d.pairCode) && d.volume <= 0.0
    ensures r == Err(NegativeOrderNumber) <==> !IsBlank(d.pairCode) && d.volume > 0.0 && d.orderNumber < 0
    ensures r.Err? ==> r.error in {BlankPairCode, NonPositiveVolume, NegativeOrderNumber, NonPositiveLimitPrice}
    ensures r.Ok? ==> Constructed(r.value)
    ensures r.Ok? && d.rootId.None? && d.parentId.None? ==> r.value.rootId == Some(d.id)
    ensures r.Ok? ==> r.value.(rootId := d.rootId) == d
  {
    if IsBlank(d.pairCode) then Err(BlankPairCode)
    else if d.volume <= 0.0 then Err(NonPositiveVolume)
    else if d.orderNumber < 0 then Err(NegativeOrderNumber)
    else
      var o := if d.rootId.None? && d.parentId.None? then d.(rootId := Some(d.id)) else d;
      if o.limitPrice.Some? && o.limitPrice.value <= 0.0 then Err(NonPositiveLimitPrice)
      else Ok(o)
  }

  /** `total_fees`: the fees present, an absent one counting as zero. */
  function TotalFees(o: SpotOrder): (t: real)
    ensures o.feeCreate.None? && o.feeFill.None? && o.feeCancel.None? ==> t == 0.0
    ensures o.feeFill.None? && o.feeCancel.None? ==> t == OrZero(o.feeCreate)
    ensures OrZero(o.feeCreate) >= 0.0 && OrZero(o.feeFill) >= 0.0 && OrZero(o.feeCancel) >= 0.0 ==>
      t >= OrZero(o.feeCreate) && t >= OrZero(o.feeFill) && t >= OrZero(o.feeCancel)
  {
    OrZero(o.feeCreate) + OrZero(o.feeFill) + OrZero(o.feeCancel)
  }

  /** `remaining_volume`: the order volume less what was filled and what was
      cancelled, an absent amount counting as zero. */
  function RemainingVolume(o: SpotOrder): (v: real)
    ensures o.fillVolume.None? && o.cancelVolume.None? ==> v == o.volume
    ensures OrZero(o.fillVolume) >= 0.0 && OrZero(o.cancelVolume) >= 0.0 ==> v <= o.volume
    ensures v == 0.0 <==> OrZero(o.fillVolume) + OrZero(o.cancelVolume) == o.volume
  {
    o.volume - OrZero(o.fillVolume) - OrZero(o.cancelVolume)
  }

  /** `is_active`: only a pending spot order is active; a filled one is
      already terminal. */
  function IsActive(o: SpotOrder): (b: bool)
    ensures b <==> o.status !in {Filled, Cancelled, Closed}
  {
    o.status == Pending
  }

  /** The fields a copy takes over from the order it is made from. */
  ghost predicate SameIdentity(a: SpotOrder, b: SpotOrder) {
    && a.id == b.id && a.parentId == b.parentId && a.rootId == b.rootId
    && a.brokerId == b.brokerId && a.pairCode == b.pairCode && a.agentId == b.agentId
    && a.accountId == b.accountId && a.runId == b.runId && a.orderNumber == b.orderNumber
    && a.direction == b.direction && a.createTimestamp == b.createTimestamp
    && a.volume == b.volume && a.limitPrice == b.limitPrice && a.feeCreate == b.feeCreate
  }

  /** The volume a fill request stands for: `fill_volume or volume`. */
  function FillAmount(o: SpotOrder, fillVolume: Option<real>): real {
    OrDefault(fillVolume, o.volume)
  }

  /** The volume a cancel request stands for: `cancel_volume or remaining_volume`. */
  function CancelAmount(o: SpotOrder, cancelVolume: Option<real>): real {
    OrDefault(cancelVolume, RemainingVolume(o))
  }

  /** `create_filled_copy`: a pending order filled at the given time and
      price. The fill volume is bounded by the order `volume`, not by what is
      still unfilled. */
  function FilledCopy(o: SpotOrder, ts: Timestamp, price: real, fillVolume: Option<real>, feeFill: Option<real>): (r: Result<SpotOrder, SpotError>)
    ensures o.status != Pending ==> r == Err(InvalidState(o.status))
    ensures o.status == Pending && !(0.0 < FillAmount(o, fillVolume) <= o.volume) ==> r == Err(InvalidFillVolume)
    ensures Constructed(o) ==> (r.Ok? <==> o.status == Pending && 0.0 < FillAmount(o, fillVolume) <= o.volume)
    ensures r.Ok? ==> var f := r.value;
      && Constructed(f) && f.status == Filled
      && f.fillTimestamp == Some(ts) && f.fillPrice == Some(price)
      && f.fillVolume == Some(FillAmount(o, fillVolume)) && f.feeFill == feeFill
      && f.cancelTimestamp == o.cancelTimestamp && f.cancelVolume == o.cancelVolume
      && f.feeCancel == o.feeCancel
      && (Constructed(o) ==> SameIdentity(o, f))
  {
    if o.status != Pending then Err(InvalidState(o.status))
    else
      var fv := FillAmount(o, fillVolume);
      if fv <= 0.0 || fv > o.volume then Err(InvalidFillVolume)
      else Create(o.(status := Filled, fillTimestamp := Some(ts), fillPrice := Some(price),
                     fillVolume := Some(fv), feeFill := feeFill))
  }

  /** `create_cancelled_copy`: a pending order cancelled at the given time;
      the cancel volume is bounded by what remains. */
  function CancelledCopy(o: SpotOrder, ts: Timestamp, cancelVolume: Option<real>, feeCancel: Option<real>): (r: Result<SpotOrder, SpotError>)
    ensures o.status != Pending ==> r == Err(InvalidState(o.status))
    ensures o.status == Pending && !(0.0 < CancelAmount(o, cancelVolume) <= RemainingVolume(o)) ==> r == Err(InvalidCancelVolume)
    ensures Constructed(o) ==> (r.Ok? <==> o.status == Pending && 0.0 < CancelAmount(o, cancelVolume) <= RemainingVolume(o))
    ensures r.Ok? ==> var c := r.value;
      && Constructed(c) && c.status == Cancelled
      && c.cancelTimestamp == Some(ts) && c.cancelVolume == Some(CancelAmount(o, cancelVolume))
      && c.feeCancel == feeCancel
      && c.fillTimestamp == o.fillTimestamp && c.fillPrice == o.fillPrice
      && c.fillVolume == o.fillVolume && c.feeFill == o.feeFill
      && (Constructed(o) ==> SameIdentity(o, c))
  {
    if o.status != Pending then Err(InvalidState(o.status))
    else
      var cv := CancelAmount(o, cancelVolume);
      if cv <= 0.0 || cv > RemainingVolume(o) then Err(InvalidCancelVolume)
      else Create(o.(status := Cancelled, cancelTimestamp := Some(ts), cancelVolume := Some(cv),
                     feeCancel := feeCancel))
  }

  // ---------------------------------------------------------------------
  // Properties
  // ---------------------------------------------------------------------

  /** An explicit zero volume is falsy in `x or default`, so it asks for the
      default exactly as an absent volume does. */
  lemma ZeroVolumeMeansDefault(o: SpotOrder, ts: Timestamp, price: real, fee: Option<real>)
    ensures FilledCopy(o, ts, price, Some(0.0), fee) == FilledCopy(o, ts, price, None, fee)
    ensures CancelledCopy(o, ts, Some(0.0), fee) == CancelledCopy(o, ts, None, fee)
  {
  }

  /** Volume accounting of a fill: what remains afterwards is the order
      volume less the fill and any earlier cancellation. */
  lemma FillRemaining(o: SpotOrder, ts: Timestamp, price: real, fillVolume: Option<real>, fee: Option<real>)
    requires FilledCopy(o, ts, price, fillVolume, fee).Ok?
    ensures RemainingVolume(FilledCopy(o, ts, price, fillVolume, fee).value)
            == o.volume - FillAmount(o, fillVolume) - OrZero(o.cancelVolume)
    ensures fillVolume.None? ==> RemainingVolume(FilledCopy(o, ts, price, fillVolume, fee).value) == -OrZero(o.cancelVolume)
  {
  }

  /** Volume accounting of a cancellation: the cancelled amount replaces any
      earlier one, and cancelling the default on an order with nothing
      cancelled yet leaves nothing remaining. */
  lemma CancelRemaining(o: SpotOrder, ts: Timestamp, cancelVolume: Option<real>, fee: Option<real>)
    requires CancelledCopy(o, ts, cancelVolume, fee).Ok?
    ensures RemainingVolume(CancelledCopy(o, ts, cancelVolume, fee).value)
            == RemainingVolume(o) + OrZero(o.cancelVolume) - CancelAmount(o, cancelVolume)
    ensures RemainingVolume(CancelledCopy(o, ts, cancelVolume, fee).value) >= OrZero(o.cancelVolume)
    ensures (cancelVolume.None? || cancelVolume == Some(0.0)) && o.cancelVolume.None?
            ==> RemainingVolume(CancelledCopy(o, ts, cancelVolume, fee).value) == 0.0
  {
  }

  /** Fee accounting of the copies: a fill replaces the fill fee and a
      cancellation the cancel fee; the creation fee is carried over. */
  lemma CopyFees(o: SpotOrder, ts: Timestamp, price: real, v: Option<real>, fee: Option<real>)
    requires Constructed(o)
    ensures FilledCopy(o, ts, price, v, fee).Ok? ==>
      TotalFees(FilledCopy(o, ts, price, v, fee).value) == TotalFees(o) - OrZero(o.feeFill) + OrZero(fee)
    ensures CancelledCopy(o, ts, v, fee).Ok? ==>
      TotalFees(CancelledCopy(o, ts, v, fee).value) == TotalFees(o) - OrZero(o.feeCancel) + OrZero(fee)
  {
  }

  /** A copy is never active and accepts no further transition. */
  lemma CopiesAreTerminal(o: SpotOrder, ts: Timestamp, ts': Timestamp, price: real, v: Option<real>, v': Option<real>, fee: Option<real>)
    ensures FilledCopy(o, ts, price, v, fee).Ok? ==>
      var f := FilledCopy(o, ts, price, v, fee).value;
      !IsActive(f) && FilledCopy(f, ts', price, v', fee).Err? && CancelledCopy(f, ts', v', fee).Err?
    ensures CancelledCopy(o, ts, v, fee).Ok? ==>
      var c := CancelledCopy(o, ts, v, fee).value;
      !IsActive(c) && FilledCopy(c, ts', price, v', fee).Err? && CancelledCopy(c, ts', v', fee).Err?
  {
  }

  /** A pending draft of volume 10 with no fills yet. */
  function ExampleDraft(volume: real): SpotOrder {
    SpotOrder(7, 1, "BTCUSD", 2, 3, 4, 1, Long, Pending, 0, volume, None, None, None,
      None, None, None, None, None, None, None, None)
  }

  /** Construction makes an order with no parent its own root, and the
      filled copy keeps id and root. */
  lemma RootExample()
    ensures var o := Create(ExampleDraft(10.0));
      && o.Ok? && o.value.rootId == Some(7)
      && var f := FilledCopy(o.value, 1, 50000.0, None, Some(10.0));
      && f.Ok? && f.value.id == 7 && f.value.rootId == Some(7)
      && f.value.fillVolume == Some(10.0)
  {
    assert !IsWhitespace(ExampleDraft(10.0).pairCode[0]);
  }

  /** Remaining volume 10 - 6 - 2 = 2, and fees 5 + 10 + 2 = 17. */
  lemma AccountingExample()
    ensures RemainingVolume(ExampleDraft(10.0).(fillVolume := Some(6.0), cancelVolume := Some(2.0))) == 2.0
    ensures TotalFees(ExampleDraft(10.0).(feeCreate := Some(5.0), feeFill := Some(10.0), feeCancel := Some(2.0))) == 17.0
    ensures TotalFees(ExampleDraft(10.0).(feeCreate := Some(5.0))) == 5.0
  {
  }

  /** The fill bound is the order volume: a pending order that already
      records 6 filled and 2 cancelled out of 10 still accepts a fill of
      10, after which the remaining volume is -2. */
  lemma FillBoundIsVolumeExample()
    ensures var o := ExampleDraft(10.0).(rootId := Some(7), fillVolume := Some(6.0), cancelVolume := Some(2.0));
      && var f := FilledCopy(o, 1, 100.0, Some(10.0), None);
      && f.Ok? && RemainingVolume(f.value) == -2.0
  {
    assert !IsWhitespace(ExampleDraft(10.0).pairCode[0]);
  }
}
