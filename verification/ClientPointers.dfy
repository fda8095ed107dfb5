/**
 Pointer safety of the retrieval client over every run: each handler and action that
 dereferences the payment channel, the transfer channel or the awaited message finds it
 set, exactly for deals that carry no price when they carry no funds.
 */
module ClientPointers {
  import opened Wrappers
  import opened Intervals
  import opened Deals
  import opened ClientFsm
  import opened ClientMachine
  import opened ClientLedger

  /** A deal without funds, which skips payment channel setup, also has no price. */
  predicate FreeIfUnfunded(params: Params, totalFunds: int) {
    totalFunds == 0 ==> params.unsealPrice == 0 && params.pricePerByte == 0
  }

  predicate AwaitsMessage(s: DealStatus) {
    s.PaymentChannelCreating? || s.PaymentChannelAddingInitialFunds? || s.PaymentChannelAddingFunds?
  }

  predicate OwnsPaymentChannel(s: DealStatus) {
    s.PaymentChannelAllocatingLane? || s.PaymentChannelAddingInitialFunds? || s.PaymentChannelAddingFunds? ||
    s.CheckFunds? || s.InsufficientFunds?
  }

  predicate Transferring(s: DealStatus) {
    s.Ongoing? || s.FundsNeeded? || s.FundsNeededLastPayment? || s.SendFunds? || s.SendFundsLastPayment? ||
    s.BlocksComplete?
  }

  predicate Proposed(s: DealStatus) {
    Transferring(s) || OwnsPaymentChannel(s) || s.WaitForAcceptance? || s.WaitForAcceptanceLegacy? || s.Accepted? ||
    s.PaymentChannelCreating?
  }

  predicate DealPointers(d: ClientDeal) {
    && (AwaitsMessage(d.status) ==> d.waitMsgCID.Some?)
    && (OwnsPaymentChannel(d.status) ==> d.paymentInfo.Some?)
    && (Transferring(d.status) && d.totalFunds != 0 ==> d.paymentInfo.Some?)
    && (Proposed(d.status) ==> d.channelID.Some?)
  }

  predicate EventPointers(d: ClientDeal, e: ClientEvent) {
    && (e.PaymentChannelSkip? ==> d.totalFunds == 0)
    && (e.VoucherShortfall? ==> d.paymentInfo.Some?)
  }

  /** Every pointer the deal's status needs is set, and stays so whatever is queued. */
  ghost predicate PointersSet(c: Client) {
    && DealPointers(c.deal)
    && (forall i :: 0 <= i < |c.queue| ==> EventPointers(c.deal, c.queue[i]))
  }

  /** Once set, the payment channel stays set; the funds never change. */
  lemma ActionKeepsChannel(d: ClientDeal, e: ClientEvent)
    ensures var d' := Act(d, e);
            && (d.paymentInfo.Some? ==> d'.paymentInfo.Some?) && (d.channelID.Some? ==> d'.channelID.Some?)
            && d'.totalFunds == d.totalFunds
            && (e.PaymentChannelAddingFunds? || e.PaymentChannelReady? ==> d'.paymentInfo.Some?)
            && (e.DealProposed? ==> d'.channelID.Some?)
            && (e.PaymentChannelAddingFunds? || e.PaymentChannelCreateInitiated? ==> d'.waitMsgCID.Some?)
            && (!e.PaymentChannelReady? && d.waitMsgCID.Some? ==> d'.waitMsgCID.Some?)
  {
    if e.PaymentSent? {
      PaymentKeepsChannel(d, e.amount);
    }
  }

  lemma PaymentKeepsChannel(d: ClientDeal, amount: int)
    ensures var d' := RecordPayment(d, amount);
            && d'.paymentInfo == d.paymentInfo && d'.channelID == d.channelID && d'.totalFunds == d.totalFunds
            && d'.waitMsgCID == d.waitMsgCID
  {}

  /** The status after an accepted event. */
  function After(s: DealStatus, e: ClientEvent): DealStatus {
    match Target(s, e)
    case To(s') => s'
    case _ => s
  }

  // What the table alone guarantees about the statuses that need a pointer.

  lemma TableAwaitsMessage(s: DealStatus, e: ClientEvent)
    requires AwaitsMessage(After(s, e))
    ensures e.PaymentChannelAddingFunds? || e.PaymentChannelCreateInitiated? || AwaitsMessage(s)
    ensures e.PaymentChannelReady? ==> !Accepts(s, e)
  {}

  lemma TableOwnsPaymentChannel(s: DealStatus, e: ClientEvent)
    requires OwnsPaymentChannel(After(s, e))
    ensures e.PaymentChannelAddingFunds? || e.PaymentChannelReady? || e.VoucherShortfall? || OwnsPaymentChannel(s)
  {}

  lemma TableTransferring(s: DealStatus, e: ClientEvent)
    requires Transferring(After(s, e))
    ensures e.PaymentChannelReady? || e.PaymentChannelSkip? || OwnsPaymentChannel(s) || Transferring(s)
  {}

  lemma TableProposed(s: DealStatus, e: ClientEvent)
    requires Proposed(After(s, e))
    ensures e.DealProposed? || Proposed(s)
  {}

  lemma ActionKeepsPointers(d: ClientDeal, e: ClientEvent, d': ClientDeal)
    requires DealPointers(d) && EventPointers(d, e) && Accepts(d.status, e)
    requires Effect(d, e, true, d') && d'.status == After(d.status, e)
    ensures DealPointers(d')
    ensures d'.totalFunds == d.totalFunds && (d.paymentInfo.Some? ==> d'.paymentInfo.Some?)
  {
    ActionKeepsChannel(d, e);
    if AwaitsMessage(d'.status) { TableAwaitsMessage(d.status, e); }
    if OwnsPaymentChannel(d'.status) { TableOwnsPaymentChannel(d.status, e); }
    if Transferring(d'.status) { TableTransferring(d.status, e); }
    if Proposed(d'.status) { TableProposed(d.status, e); }
  }

  lemma EventKeepsPointers(d: ClientDeal, e: ClientEvent)
    requires DealPointers(d) && EventPointers(d, e)
    ensures !ActPanics(d, e)
    ensures DealPointers(Apply(d, e).deal)
    ensures d.paymentInfo.Some? ==> Apply(d, e).deal.paymentInfo.Some?
    ensures Apply(d, e).deal.totalFunds == d.totalFunds
  {
    ApplyEffect(d, e);
    if Accepts(d.status, e) {
      ActKeepsTerms(d, e);
      ActionKeepsPointers(d, e, Apply(d, e).deal);
    }
  }

  /** The handler triggered nothing that would lead to a missing pointer. */
  predicate Foreseen(d: ClientDeal, o: Outcome) {
    |o.triggered| <= 1 && (o.triggered == [] || EventPointers(d, o.triggered[0]))
  }

  lemma HandlerForesees(d: ClientDeal, reply: Reply)
    ensures Foreseen(d, Handle(d, reply))
  {
    ChannelHandlersFindPointers(d, reply);
    assert Foreseen(d, SendFundsHandler(d, reply));
  }

  lemma SendFundsFindsPointers(d: ClientDeal, reply: Reply)
    requires DealPointers(d) && d.fundsSpent >= 0 && FreeIfUnfunded(d.params, d.totalFunds)
    requires d.status.SendFunds? || d.status.SendFundsLastPayment?
    ensures !SendFundsHandler(d, reply).panics
  {}

  lemma ChannelHandlersFindPointers(d: ClientDeal, reply: Reply)
    ensures !SetupPaymentChannelStart(d, reply).panics && Foreseen(d, SetupPaymentChannelStart(d, reply))
    ensures d.waitMsgCID.Some? ==> !WaitPaymentChannelReady(d, reply).panics
    ensures d.paymentInfo.Some? ==> !AllocateLane(d, reply).panics && !CheckFundsHandler(d, reply).panics
    ensures Foreseen(d, WaitPaymentChannelReady(d, reply)) && Foreseen(d, AllocateLane(d, reply))
    ensures Foreseen(d, CheckFundsHandler(d, reply))
  {}

  lemma HandlerFindsPointers(d: ClientDeal, reply: Reply)
    requires DealPointers(d) && d.fundsSpent >= 0 && FreeIfUnfunded(d.params, d.totalFunds)
    ensures !Handle(d, reply).panics
  {
    ChannelHandlersFindPointers(d, reply);
    if d.status.SendFunds? || d.status.SendFundsLastPayment? {
      SendFundsFindsPointers(d, reply);
    }
  }

  lemma SpentNonnegative(d: ClientDeal)
    requires DealSound(d)
    ensures d.fundsSpent >= 0
  {
    Scale(0, d.bytesPaidFor, d.params.pricePerByte);
  }

  lemma StepKeepsPointers(c: Client, step: Step)
    requires PointersSet(c)
    ensures PointersSet(Next(c, step))
  {
    match step
    case Deliver(e) =>
    case Process =>
      if c.queue != [] {
        EventKeepsPointers(c.deal, c.queue[0]);
      }
    case Finish(reply) =>
      HandlerForesees(c.deal, reply);
  }

  /** In every run, whatever the terms: the pointers a status needs are set in it. */
  lemma {:induction false} PointersAlwaysSet(params: Params, totalFunds: int, steps: seq<Step>)
    ensures PointersSet(Run(Start(params, totalFunds), steps))
  {
    if steps != [] {
      PointersAlwaysSet(params, totalFunds, steps[..|steps| - 1]);
      StepKeepsPointers(Run(Start(params, totalFunds), steps[..|steps| - 1]), steps[|steps| - 1]);
    }
  }

  /** No run of a deal that is free when unfunded dereferences a nil pointer. */
  lemma {:induction false} NeverPanics(params: Params, totalFunds: int, steps: seq<Step>)
    requires FreeIfUnfunded(params, totalFunds)
    ensures !Run(Start(params, totalFunds), steps).panicked
  {
    if steps != [] {
      var before := steps[..|steps| - 1];
      var c := Run(Start(params, totalFunds), before);
      NeverPanics(params, totalFunds, before);
      PointersAlwaysSet(params, totalFunds, before);
      AlwaysMoneySafe(params, totalFunds, before);
      SameTerms(params, totalFunds, before);
      StepDoesNotPanic(c, steps[|steps| - 1]);
    }
  }

  lemma StepDoesNotPanic(c: Client, step: Step)
    requires PointersSet(c) && MoneySafe(c) && FreeIfUnfunded(c.deal.params, c.deal.totalFunds) && !c.panicked
    ensures !Next(c, step).panicked
  {
    match step
    case Deliver(e) =>
    case Process =>
      if c.queue != [] {
        EventKeepsPointers(c.deal, c.queue[0]);
      }
    case Finish(reply) =>
      SpentNonnegative(c.deal);
      HandlerFindsPointers(c.deal, reply);
  }

  // ---------------------------------------------------------------- the condition is exact

  const YES := Reply(Some(0), true, ChannelExists(0), Some(0), Some(0), VoucherCreated, true,
                     None, true, true)

  // A deal without funds goes to its last payment without a payment channel.

  lemma UnfundedProposed(params: Params) returns (c: Client)
    ensures Between(params, 0, c, NewDeal(params, 0), [DealProposed(0)]) && c.received == 0
  {
    StartReachable(params, 0);
    c := Take(params, 0, Start(params, 0), NewDeal(params, 0), Open, YES);
  }

  lemma UnfundedWaits(params: Params) returns (c: Client)
    ensures Between(params, 0, c, NewDeal(params, 0).(status := WaitForAcceptance, channelID := Some(0)), [])
    ensures c.received == 0
  {
    c := UnfundedProposed(params);
    c := Take(params, 0, c, NewDeal(params, 0), DealProposed(0), YES);
  }

  lemma UnfundedAccepted(params: Params) returns (c: Client)
    ensures Between(params, 0, c, NewDeal(params, 0).(status := Accepted, channelID := Some(0)), [PaymentChannelSkip])
    ensures c.received == 0
  {
    c := UnfundedWaits(params);
    c := Receive(params, 0, c, c.deal, DealAccepted, YES);
  }

  lemma UnfundedTransfers(params: Params) returns (c: Client)
    ensures Between(params, 0, c, NewDeal(params, 0).(status := Ongoing, channelID := Some(0)), [])
    ensures c.received == 0
  {
    c := UnfundedAccepted(params);
    c := Take(params, 0, c, c.deal, PaymentChannelSkip, YES);
  }

  lemma UnfundedReceives(params: Params) returns (c: Client)
    ensures Between(params, 0, c,
                    NewDeal(params, 0).(status := Ongoing, channelID := Some(0), totalReceived := 1), [])
  {
    c := UnfundedTransfers(params);
    c := Receive(params, 0, c, c.deal, BlocksReceived(1), YES);
  }

  lemma UnfundedHasAllBlocks(params: Params) returns (c: Client)
    ensures Between(params, 0, c,
                    NewDeal(params, 0).(status := BlocksComplete, channelID := Some(0), totalReceived := 1,
                                        allBlocksReceived := true), [])
  {
    c := UnfundedReceives(params);
    c := Receive(params, 0, c, c.deal, AllBlocksReceived, YES);
  }

  /** If that deal has a price, its last payment dereferences the missing channel. */
  lemma UnfundedPricedDealPanics(params: Params)
    requires params.unsealPrice > 0 || params.pricePerByte > 0
    ensures exists c :: Reachable(params, 0, c) && c.panicked
  {
    var c := UnfundedHasAllBlocks(params);
    var e := LastPaymentRequested(0);
    var d := c.deal.(lastPaymentRequested := true, status := SendFundsLastPayment);
    assert Apply(c.deal, e) == Applied(d, true);
    LastPaymentPanics(d);
    IdleDeliver(c, e);
    ReachableNext(params, 0, c, Deliver(e));
    TurnEffect(Next(c, Deliver(e)), e, YES);
    TurnReachable(params, 0, Next(c, Deliver(e)), YES);
  }

  lemma LastPaymentPanics(d: ClientDeal)
    requires d.status.SendFundsLastPayment? && d.paymentInfo.None?
    requires d.totalReceived == 1 && d.allBlocksReceived && d.fundsSpent == 0
    requires d.params.unsealPrice > 0 || d.params.pricePerByte > 0
    ensures Handle(d, YES).panics
  {
    assert AsInt64(1) * d.params.pricePerByte == d.params.pricePerByte;
  }

  /** No run of a deal dereferences a nil pointer if and only if an unfunded deal is free. */
  lemma PointerSafetyExact(params: Params, totalFunds: int)
    ensures (forall c :: Reachable(params, totalFunds, c) ==> !c.panicked) <==> FreeIfUnfunded(params, totalFunds)
  {
    if FreeIfUnfunded(params, totalFunds) {
      forall c | Reachable(params, totalFunds, c) ensures !c.panicked {
        var steps := RunTo(params, totalFunds, c);
        NeverPanics(params, totalFunds, steps);
      }
    } else {
      UnfundedPricedDealPanics(params);
    }
  }

  /**
   `TryRestartInsufficientFunds` reads the payment channel of every deal it finds waiting
   for funds: the channel is always there, whatever the terms.
   */
  lemma WaitingForFundsOwnsChannel(params: Params, totalFunds: int, c: Client)
    requires Reachable(params, totalFunds, c)
    ensures c.deal.status.InsufficientFunds? ==> c.deal.paymentInfo.Some?
  {
    var steps := RunTo(params, totalFunds, c);
    PointersAlwaysSet(params, totalFunds, steps);
  }
}
