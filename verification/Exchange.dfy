/**
 Client and provider together: the message wiring between the two machines
 (retrievalmarket/impl/dtutils/dtutils.go) and whole payment rounds.

 A round starts where the protocol could stall, with the provider at its data limit, and
 follows every step of both machines until the transfer goes on.
 */
module Exchange {
  import opened Words
  import opened Wrappers
  import opened Intervals
  import opened Billing
  import opened Deals
  import C = ClientFsm
  import M = ClientMachine
  import ClientLedger
  import ClientPointers
  import P = ProviderFsm

  /** `clientEventForResponse`: the client event a provider response causes. */
  function ClientEventForResponse(r: DealResponse): C.ClientEvent {
    match r.status
    case Rejected => C.DealRejected
    case DealNotFound => C.DealNotFound
    case Accepted => C.DealAccepted
    case FundsNeededUnseal => C.UnsealPaymentRequested(r.paymentOwed)
    case FundsNeededLastPayment => C.LastPaymentRequested(r.paymentOwed)
    case Completed => C.Complete
    case FundsNeeded | Ongoing => C.PaymentRequested(r.paymentOwed)
    case _ => C.UnknownResponseReceived
  }

  /** The client's node creates and sends vouchers and finalizes the store. */
  predicate Willing(r: C.Reply) {
    r.headKnown && r.voucher.VoucherCreated? && r.voucherSent && r.storeFinalized
  }

  /** The two sides agree on the deal, on the money paid and on the bytes moved. */
  predicate InStep(c: C.ClientDeal, p: P.ProviderDeal, best: nat, channel: P.Channel) {
    && p.params == c.params
    && p.fundsReceived == best == c.fundsSpent
    && channel.queued == c.totalReceived
    && P.ProcessLastVoucher(best, channel, true) == Some(0)
  }

  // ---------------------------------------------------------------- the client's decision

  /** Same money and bytes, payment channel in place; status and requests may differ. */
  predicate SameAccount(d: C.ClientDeal, d': C.ClientDeal) {
    ClientLedger.SameCounters(d, d') && d'.paymentInfo == d.paymentInfo && d'.channelID == d.channelID &&
    d'.allBlocksReceived == d.allBlocksReceived
  }

  /** With unsealing paid, the funds spent are exactly the price of the bytes paid for. */
  lemma SpentIsPriceOfPaid(d: C.ClientDeal)
    requires ClientLedger.DealSound(d) && d.params.pricePerByte > 0 && d.fundsSpent >= d.params.unsealPrice
    ensures d.fundsSpent == VoucherAmount(d.params, d.bytesPaidFor)
    ensures BytesCovered(d.params, d.fundsSpent) == d.bytesPaidFor && CoverageFits(d.params, d.fundsSpent)
  {
    VoucherCovers(d.params, d.bytesPaidFor);
  }

  /** At the data limit the client's bytes are beyond what it has paid for and the interval it waits for. */
  lemma BeyondInterval(d: C.ClientDeal)
    requires ClientLedger.DealSound(d) && d.params.pricePerByte > 0 && d.fundsSpent >= d.params.unsealPrice
    requires Tame(d.params) && d.totalReceived >= NextInterval(d.params, d.fundsSpent)
    ensures d.bytesPaidFor < d.totalReceived && d.currentInterval <= d.totalReceived
    ensures VoucherAmount(d.params, d.totalReceived) > d.fundsSpent
  {
    SpentIsPriceOfPaid(d);
    LimitOfCovered(d.params, d.fundsSpent);
    BoundariesEnclose(d.params, d.bytesPaidFor, 0);
    VoucherMonotone(d.params, d.bytesPaidFor, d.totalReceived);
  }

  /**
   At the data limit the client decides to pay: everything received is beyond both the bytes
   it has paid for and the interval it waits for, although it advances that interval by only
   one boundary per payment.
   */
  lemma ClientPaysAtLimit(d: C.ClientDeal, reply: C.Reply)
    requires ClientLedger.DealSound(d) && d.params.pricePerByte > 0 && d.fundsSpent >= d.params.unsealPrice
    requires Tame(d.params) && d.totalReceived >= NextInterval(d.params, d.fundsSpent)
    requires Willing(reply) && d.paymentInfo.Some? && d.channelID.Some?
    ensures C.ProcessPaymentRequested(d) == C.Trigger(C.ClientEvent.SendFunds)
    ensures var voucher := VoucherAmount(d.params, d.totalReceived);
            C.SendFundsHandler(d, reply) == C.Outcome([C.PaymentSent(voucher)], Some(voucher), false)
    ensures VoucherAmount(d.params, d.totalReceived) > d.fundsSpent
  {
    BeyondInterval(d);
  }

  // ---------------------------------------------------------------- the provider's side

  /** At its limit with no new voucher, the provider asks for the balance and records nothing. */
  lemma ProviderAsksAtLimit(p: P.ProviderDeal, best: nat, channel: P.Channel) returns (request: DealResponse)
    requires p.status.FundsNeeded? && p.params.pricePerByte > 0 && Tame(p.params) && p.fundsReceived == best
    requires P.ProcessLastVoucher(best, channel, true) == Some(0) && !channel.inFinalization
    requires channel.queued < INT64_LIMIT && CoverageFits(p.params, best)
    requires channel.queued >= NextInterval(p.params, best)
    ensures P.UpdateFunding(p, best, channel, true).triggered == []
    ensures P.UpdateFunding(p, best, channel, true).result.response == Some(request)
    ensures ClientEventForResponse(request) == C.PaymentRequested(request.paymentOwed)
    ensures request.paymentOwed == OutstandingBalance(p.params, best, channel.queued, false) > 0
  {
    var owed, limit := OutstandingBalance(p.params, best, channel.queued, false), NextInterval(p.params, best);
    assert owed > 0 by { BillMatchesLimit(p.params, best, channel.queued); }
    P.FundingDecided(p, best, channel, true, 0, owed, limit);
    request := Asked(owed, limit, P.UpdateFunding(p, best, channel, true));
  }

  lemma Asked(owed: nat, limit: nat, f: P.Funding) returns (request: DealResponse)
    requires owed > 0 && f == P.FundingFor(FundsNeeded, 0, owed, limit)
    ensures f.triggered == [] && f.result.response == Some(request) && request.paymentOwed == owed
    ensures ClientEventForResponse(request) == C.PaymentRequested(owed)
  {
    request := DealResponse(FundsNeeded, owed);
  }

  /** A voucher for every byte queued settles the bill, in or out of finalization, and lifts the limit. */
  lemma VoucherUnlocks(params: Params, queued: uint64, inFinalization: bool)
    requires params.pricePerByte > 0 && queued < INT64_LIMIT
    ensures OutstandingBalance(params, VoucherAmount(params, queued), queued, inFinalization) == 0
    ensures NextInterval(params, VoucherAmount(params, queued)) == NextLoop(params, queued)
    ensures Stop(params, queued).Some? ==> NextLoop(params, queued) > queued
  {
    var v := VoucherAmount(params, queued);
    Scale(0, queued, params.pricePerByte);
    BalanceIsShortfall(params, v, queued, inFinalization);
    VoucherMonotone(params, BilledBytes(params, queued, inFinalization), queued);
    VoucherCovers(params, queued);
    NoWrap(0, queued);
  }

  /** The provider records that voucher in full. */
  lemma ProviderTakesVoucher(p: P.ProviderDeal, best: nat, channel: P.Channel, voucher: nat)
    requires P.NeedsFunds(p.status) && p.params.pricePerByte > 0 && p.fundsReceived == best < voucher
    requires channel.queued < INT64_LIMIT && voucher == VoucherAmount(p.params, channel.queued)
    requires channel.lastVoucher == P.Payment(voucher)
    ensures var f := P.UpdateFunding(p, best, channel, true);
            && f.triggered == [P.PaymentReceived(voucher - best)]
            && f.result.accepted
            && f.result.requiresFinalization == !p.status.FundsNeededLastPayment?
            && f.result.response == (if p.status.FundsNeededLastPayment? then Some(DealResponse(Completed, 0)) else None)
            && f.result.dataLimit == NextLoop(p.params, channel.queued)
            && (Stop(p.params, channel.queued).Some? ==> f.result.dataLimit > channel.queued)
  {
    VoucherUnlocks(p.params, channel.queued, channel.inFinalization);
    P.FundingDecided(p, best, channel, true, voucher - best, 0, NextInterval(p.params, voucher));
  }

  // ---------------------------------------------------------------- the client's turns

  /** Ongoing, asked for payment: the request is taken up and the client decides to send funds. */
  lemma AskedTurn(c: M.Client, owed: int, reply: C.Reply)
    requires M.Idle(c) && c.deal.status.Ongoing?
    requires C.ProcessPaymentRequested(AskedDeal(c.deal, owed)) == C.Trigger(C.ClientEvent.SendFunds)
    ensures var c' := M.Turn(M.Next(c, M.Deliver(C.PaymentRequested(owed))), reply);
            && c'.deal == AskedDeal(c.deal, owed) && c'.queue == [C.ClientEvent.SendFunds]
            && !c'.running && !c'.panicked && c'.vouchers == c.vouchers && c'.received == c.received
  {
    var e := C.PaymentRequested(owed);
    M.IdleDeliver(c, e);
    M.TurnEffect(M.Next(c, M.Deliver(e)), e, reply);
  }

  function AskedDeal(d: C.ClientDeal, owed: int): C.ClientDeal {
    d.(status := FundsNeeded, paymentRequested := d.paymentRequested + owed)
  }

  /** The client sends its voucher. */
  lemma SendingTurn(c: M.Client, reply: C.Reply, voucher: int)
    requires c.queue == [C.ClientEvent.SendFunds] && !c.running && !c.panicked && c.deal.status.FundsNeeded?
    requires C.SendFundsHandler(c.deal.(status := DealStatus.SendFunds), reply) ==
             C.Outcome([C.PaymentSent(voucher)], Some(voucher), false)
    ensures var c' := M.Turn(c, reply);
            && c'.deal == c.deal.(status := DealStatus.SendFunds) && c'.queue == [C.PaymentSent(voucher)]
            && !c'.running && !c'.panicked && c'.vouchers == c.vouchers + [voucher] && c'.received == c.received
  {
    M.TurnEffect(c, C.ClientEvent.SendFunds, reply);
  }

  /** The client records its payment and goes on. */
  lemma PaidTurn(c: M.Client, reply: C.Reply, voucher: int)
    requires c.queue == [C.PaymentSent(voucher)] && !c.running && !c.panicked && c.deal.status.SendFunds?
    ensures Paid(c, M.Turn(c, reply), voucher, 0) && M.Turn(c, reply).vouchers == c.vouchers
  {
    var e := C.PaymentSent(voucher);
    M.TurnEffect(c, e, reply);
    assert C.Apply(c.deal, e) == C.Applied(C.RecordPayment(c.deal, voucher).(status := Ongoing), true);
    RecordedPayment(c.deal, voucher);
    GoesOn(C.RecordPayment(c.deal, voucher).(status := Ongoing), reply);
  }

  /** What recording a payment does to the account. */
  lemma RecordedPayment(d: C.ClientDeal, voucher: int)
    ensures var d' := C.RecordPayment(d, voucher);
            && d'.fundsSpent == voucher && d'.paymentRequested == d.paymentRequested - (voucher - d.fundsSpent)
            && d'.totalReceived == d.totalReceived && d'.params == d.params
            && d'.allBlocksReceived == d.allBlocksReceived && d'.waitMsgCID == d.waitMsgCID
  {}

  /** With nothing requested, an ongoing deal waits. */
  lemma GoesOn(d: C.ClientDeal, reply: C.Reply)
    requires d.status.Ongoing?
    ensures var o := C.Handle(d, reply);
            !o.panics && o.voucher == None && (d.paymentRequested <= 0 ==> o.triggered == [])
  {}

  /** The account of a deal decides its payments, whatever its status and open requests. */
  lemma SameAccountSound(d: C.ClientDeal, d': C.ClientDeal)
    requires ClientLedger.DealSound(d) && SameAccount(d, d')
    ensures ClientLedger.DealSound(d')
  {
    ClientLedger.SoundnessIsInCounters(d, d');
  }

  /** The three turns of a client that is asked to pay. */
  function PayingClient(c: M.Client, request: C.ClientEvent, reply: C.Reply): M.Client {
    M.Turn(M.Turn(M.Turn(M.Next(c, M.Deliver(request)), reply), reply), reply)
  }

  lemma ClientRound(c: M.Client, owed: int, reply: C.Reply)
    requires M.Idle(c) && c.deal.status.Ongoing? && ClientLedger.DealSound(c.deal)
    requires c.deal.params.pricePerByte > 0 && Tame(c.deal.params) && c.deal.fundsSpent >= c.deal.params.unsealPrice
    requires c.deal.totalReceived >= NextInterval(c.deal.params, c.deal.fundsSpent)
    requires Willing(reply) && c.deal.paymentInfo.Some? && c.deal.channelID.Some?
    ensures var voucher := VoucherAmount(c.deal.params, c.deal.totalReceived);
            var paid := PayingClient(c, C.PaymentRequested(owed), reply);
            && voucher > c.deal.fundsSpent
            && Paid(c, paid, voucher, owed) && paid.vouchers == c.vouchers + [voucher]
  {
    var voucher := VoucherAmount(c.deal.params, c.deal.totalReceived);
    var asked := AskedDeal(c.deal, owed);
    SameAccountSound(c.deal, asked);
    ClientPaysAtLimit(asked, reply);
    AskedTurn(c, owed, reply);
    var c1 := M.Turn(M.Next(c, M.Deliver(C.PaymentRequested(owed))), reply);
    var sending := asked.(status := DealStatus.SendFunds);
    SameAccountSound(c.deal, sending);
    ClientPaysAtLimit(sending, reply);
    SendingTurn(c1, reply, voucher);
    PaidTurn(M.Turn(c1, reply), reply, voucher);
    SameAccountRecorded(c.deal, sending, voucher);
  }

  lemma SameAccountRecorded(d: C.ClientDeal, d': C.ClientDeal, voucher: int)
    requires SameAccount(d, d')
    ensures C.RecordPayment(d', voucher).bytesPaidFor == C.RecordPayment(d, voucher).bytesPaidFor
    ensures C.RecordPayment(d', voucher).currentInterval == C.RecordPayment(d, voucher).currentInterval
  {}

  /** Recording the voucher puts the provider back to work, in step with the client. */
  lemma ProviderResumes(p: P.ProviderDeal, best: nat, channel: P.Channel, voucher: nat)
    requires p.status.FundsNeeded? && p.params.pricePerByte > 0 && Tame(p.params) && p.fundsReceived == best < voucher
    requires channel.queued < INT64_LIMIT && voucher == VoucherAmount(p.params, channel.queued)
    ensures Resumed(p, best, channel, voucher)
  {
    assert Stop(p.params, channel.queued).Some? by { TameLoops(p.params, channel.queued); }
    ProviderTakesVoucher(p, best, channel.(lastVoucher := P.Payment(voucher)), voucher);
  }

  /** On a channel that now carries `voucher`, the provider records it and resumes beyond the bytes queued. */
  predicate Resumed(p: P.ProviderDeal, best: nat, channel: P.Channel, voucher: nat)
    requires voucher >= best
  {
    var f := P.UpdateFunding(p, best, channel.(lastVoucher := P.Payment(voucher)), true);
    var p' := P.Apply(p, P.PaymentReceived(voucher - best));
    && f.triggered == [P.PaymentReceived(voucher - best)]
    && f.result.accepted && f.result.dataLimit > channel.queued && f.result.response == None
    && p' == p.(status := Ongoing, fundsReceived := voucher)
  }

  /** The client, asked for `owed` more, has paid `voucher` in all and goes on with the transfer. */
  predicate Paid(c: M.Client, paid: M.Client, voucher: int, owed: int) {
    && paid.deal.status.Ongoing? && !paid.panicked && !paid.running && paid.received == c.received
    && paid.deal.fundsSpent == voucher
    && paid.deal.paymentRequested == c.deal.paymentRequested + owed - (voucher - c.deal.fundsSpent)
    && (paid.deal.paymentRequested <= 0 ==> paid.queue == [])
    && paid.deal.totalReceived == c.deal.totalReceived && paid.deal.params == c.deal.params
    && paid.deal.allBlocksReceived == c.deal.allBlocksReceived && paid.deal.waitMsgCID == c.deal.waitMsgCID
    && paid.deal.bytesPaidFor == C.RecordPayment(c.deal, voucher).bytesPaidFor
    && paid.deal.currentInterval == C.RecordPayment(c.deal, voucher).currentInterval
  }

  /**
   No payment stall.  Take any run of the client that is idle in the transfer and in step with
   a provider that has reached its data limit with everything queued received.  Then the
   provider asks, the client pays for every byte received, the voucher settles the bill, the
   provider resumes with a limit beyond the bytes queued, and the two ledgers agree again.
   */
  lemma NoPaymentStall(params: Params, totalFunds: int, c: M.Client, p: P.ProviderDeal, best: nat,
                       channel: P.Channel, reply: C.Reply)
    returns (request: DealResponse, voucher: nat)
    requires M.Reachable(params, totalFunds, c) && ClientPointers.FreeIfUnfunded(params, totalFunds)
    requires params.pricePerByte > 0 && Tame(params) && Willing(reply)
    requires M.Idle(c) && c.deal.status.Ongoing? && p.status.FundsNeeded? && InStep(c.deal, p, best, channel)
    requires best >= params.unsealPrice && !channel.inFinalization
    requires channel.queued >= NextInterval(params, best)
    ensures P.UpdateFunding(p, best, channel, true).triggered == []
    ensures P.UpdateFunding(p, best, channel, true).result.response == Some(request)
    ensures request.paymentOwed == OutstandingBalance(params, best, channel.queued, false) > 0
    ensures ClientEventForResponse(request) == C.PaymentRequested(request.paymentOwed)
    ensures voucher == VoucherAmount(params, channel.queued) > best
    ensures var paid := PayingClient(c, ClientEventForResponse(request), reply);
            && M.Reachable(params, totalFunds, paid)
            && Paid(c, paid, voucher, request.paymentOwed) && paid.vouchers == c.vouchers + [voucher]
            && (c.deal.paymentRequested <= 0 ==> M.Idle(paid) && paid.deal.paymentRequested <= 0)
    ensures Resumed(p, best, channel, voucher)
    ensures InStep(PayingClient(c, ClientEventForResponse(request), reply).deal,
                   P.Apply(p, P.PaymentReceived(voucher - best)), voucher,
                   channel.(lastVoucher := P.Payment(voucher)))
  {
    ReachableFacts(params, totalFunds, c);
    SpentIsPriceOfPaid(c.deal);
    request := ProviderAsksAtLimit(p, best, channel);
    voucher := VoucherAmount(params, channel.queued);
    ClientRound(c, request.paymentOwed, reply);
    ProviderResumes(p, best, channel, voucher);
    AskedAtMostVoucher(params, best, channel.queued);
    PayingReachable(params, totalFunds, c, ClientEventForResponse(request), reply);
  }

  /** Outside finalization no more is asked for than the voucher for every byte brings. */
  lemma AskedAtMostVoucher(params: Params, funds: nat, sent: uint64)
    requires params.pricePerByte > 0 && sent < INT64_LIMIT && params.unsealPrice <= funds <= VoucherAmount(params, sent)
    ensures OutstandingBalance(params, funds, sent, false) <= VoucherAmount(params, sent) - funds
  {
    BalanceIsShortfall(params, funds, sent, false);
    VoucherMonotone(params, BilledBytes(params, sent, false), sent);
  }

  lemma PayingReachable(params: Params, totalFunds: int, c: M.Client, request: C.ClientEvent, reply: C.Reply)
    requires M.Reachable(params, totalFunds, c)
    ensures M.Reachable(params, totalFunds, PayingClient(c, request, reply))
  {
    var c0 := M.Next(c, M.Deliver(request));
    M.ReachableNext(params, totalFunds, c, M.Deliver(request));
    M.TurnReachable(params, totalFunds, c0, reply);
    M.TurnReachable(params, totalFunds, M.Turn(c0, reply), reply);
    M.TurnReachable(params, totalFunds, M.Turn(M.Turn(c0, reply), reply), reply);
  }

  // ---------------------------------------------------------------- the last round

  /** With all blocks received the client pays whatever is missing for them. */
  lemma ClientPaysLast(d: C.ClientDeal, reply: C.Reply)
    requires d.totalReceived < INT64_LIMIT && d.allBlocksReceived
    requires VoucherAmount(d.params, d.totalReceived) > d.fundsSpent
    requires Willing(reply) && d.paymentInfo.Some? && d.channelID.Some?
    ensures var voucher := VoucherAmount(d.params, d.totalReceived);
            C.SendFundsHandler(d, reply) == C.Outcome([C.PaymentSent(voucher)], Some(voucher), false)
  {}

  /** In finalization the provider asks for exactly what is missing to the price of every byte. */
  lemma ProviderAsksLast(p: P.ProviderDeal, best: nat, channel: P.Channel) returns (request: DealResponse)
    requires p.status.FundsNeededLastPayment? && p.params.pricePerByte > 0
    requires p.params.unsealPrice <= p.fundsReceived == best < VoucherAmount(p.params, channel.queued)
    requires P.ProcessLastVoucher(best, channel, true) == Some(0) && channel.inFinalization
    requires channel.queued < INT64_LIMIT
    ensures AsksLast(p, best, channel, request)
    ensures request.paymentOwed == VoucherAmount(p.params, channel.queued) - best
    ensures ClientEventForResponse(request) == C.LastPaymentRequested(request.paymentOwed)
  {
    BalanceIsShortfall(p.params, best, channel.queued, true);
    request := DealResponse(FundsNeededLastPayment, VoucherAmount(p.params, channel.queued) - best);
  }

  /** The client's last payment: asked, paid, waiting for completion. */
  lemma LastPaymentTurns(c: M.Client, owed: int, reply: C.Reply)
    requires M.Idle(c) && c.deal.status.BlocksComplete? && c.deal.allBlocksReceived
    requires c.deal.totalReceived < INT64_LIMIT
    requires VoucherAmount(c.deal.params, c.deal.totalReceived) > c.deal.fundsSpent
    requires Willing(reply) && c.deal.paymentInfo.Some? && c.deal.channelID.Some?
    ensures var voucher := VoucherAmount(c.deal.params, c.deal.totalReceived);
            var settled := SettlingClient(c, C.LastPaymentRequested(owed), reply);
            Settled(c, settled, voucher)
  {
    var e := C.LastPaymentRequested(owed);
    var voucher := VoucherAmount(c.deal.params, c.deal.totalReceived);
    M.IdleDeliver(c, e);
    var c0 := M.Next(c, M.Deliver(e));
    var d := c.deal.(status := SendFundsLastPayment, paymentRequested := c.deal.paymentRequested + owed,
                     lastPaymentRequested := true);
    assert C.Apply(c.deal, e) == C.Applied(d, true);
    ClientPaysLast(d, reply);
    M.TurnEffect(c0, e, reply);
    var c1 := M.Turn(c0, reply);
    FinalizingTurn(c1, reply, voucher);
  }

  lemma FinalizingTurn(c: M.Client, reply: C.Reply, voucher: int)
    requires c.queue == [C.PaymentSent(voucher)] && !c.running && !c.panicked
    requires c.deal.status.SendFundsLastPayment?
    ensures var c' := M.Turn(c, reply);
            && M.Idle(c') && c'.deal.status.Finalizing? && c'.deal.fundsSpent == voucher
            && c'.vouchers == c.vouchers && c'.received == c.received
  {
    M.TurnEffect(c, C.PaymentSent(voucher), reply);
    ClientLedger.ActionCounters(c.deal, C.PaymentSent(voucher));
  }

  /**
   The last round settles the deal.  When the transfer is finalizing, all blocks have arrived
   and money is still owed, the provider asks for exactly the missing amount, the client pays
   the price of every byte and waits for completion, and the provider records it, stops
   requiring finalization and reports completion.
   */
  lemma LastRoundSettles(params: Params, totalFunds: int, c: M.Client, p: P.ProviderDeal, best: nat,
                         channel: P.Channel, reply: C.Reply)
    returns (request: DealResponse, voucher: nat)
    requires M.Reachable(params, totalFunds, c) && ClientPointers.FreeIfUnfunded(params, totalFunds)
    requires params.pricePerByte > 0 && Willing(reply)
    requires M.Idle(c) && c.deal.status.BlocksComplete? && c.deal.allBlocksReceived
    requires p.status.FundsNeededLastPayment? && InStep(c.deal, p, best, channel) && channel.inFinalization
    requires params.unsealPrice <= best < VoucherAmount(params, channel.queued)
    ensures voucher == VoucherAmount(params, channel.queued) && request.paymentOwed == voucher - best
    ensures AsksLast(p, best, channel, request) && Closed(p, best, channel, voucher)
    ensures Settled(c, SettlingClient(c, ClientEventForResponse(request), reply), voucher)
  {
    ReachableFacts(params, totalFunds, c);
    voucher := VoucherAmount(params, channel.queued);
    request := ProviderAsksLast(p, best, channel);
    LastPaymentTurns(c, request.paymentOwed, reply);
    ProviderCloses(p, best, channel, voucher);
  }

  /** The client has paid `voucher` in all and waits for the provider to report completion. */
  predicate Settled(c: M.Client, settled: M.Client, voucher: int) {
    M.Idle(settled) && settled.deal.status.Finalizing? && settled.deal.fundsSpent == voucher &&
    settled.vouchers == c.vouchers + [voucher] && settled.received == c.received
  }

  /** The provider sends `request` and keeps requiring finalization. */
  predicate AsksLast(p: P.ProviderDeal, best: nat, channel: P.Channel, request: DealResponse) {
    var f := P.UpdateFunding(p, best, channel, true);
    f.triggered == [] && f.result.requiresFinalization && f.result.response == Some(request)
  }

  /** On a channel that carries `voucher`, the provider lifts finalization, reports completion and records it. */
  predicate Closed(p: P.ProviderDeal, best: nat, channel: P.Channel, voucher: nat)
    requires voucher >= best
  {
    var f := P.UpdateFunding(p, best, channel.(lastVoucher := P.Payment(voucher)), true);
    && f.triggered == [P.PaymentReceived(voucher - best)]
    && !f.result.requiresFinalization && f.result.response == Some(COMPLETED)
    && P.Apply(p, P.PaymentReceived(voucher - best)) == p.(status := Finalizing, fundsReceived := voucher)
  }

  const COMPLETED := DealResponse(Completed, 0)

  lemma ProviderCloses(p: P.ProviderDeal, best: nat, channel: P.Channel, voucher: nat)
    requires p.status.FundsNeededLastPayment? && p.params.pricePerByte > 0 && p.fundsReceived == best < voucher
    requires channel.queued < INT64_LIMIT && voucher == VoucherAmount(p.params, channel.queued)
    ensures Closed(p, best, channel, voucher)
  {
    ProviderTakesVoucher(p, best, channel.(lastVoucher := P.Payment(voucher)), voucher);
  }

  /** The client's two turns on the last request. */
  function SettlingClient(c: M.Client, request: C.ClientEvent, reply: C.Reply): M.Client {
    M.Turn(M.Turn(M.Next(c, M.Deliver(request)), reply), reply)
  }

  /** What every run of a client guarantees about an ongoing deal. */
  lemma ReachableFacts(params: Params, totalFunds: int, c: M.Client)
    requires M.Reachable(params, totalFunds, c) && ClientPointers.FreeIfUnfunded(params, totalFunds)
    ensures c.deal.params == params && ClientLedger.DealSound(c.deal)
    ensures ClientPointers.Transferring(c.deal.status) && params.pricePerByte > 0 ==>
              c.deal.paymentInfo.Some? && c.deal.channelID.Some?
  {
    var steps := M.RunTo(params, totalFunds, c);
    ClientLedger.AlwaysMoneySafe(params, totalFunds, steps);
    ClientLedger.SameTerms(params, totalFunds, steps);
    ClientPointers.PointersAlwaysSet(params, totalFunds, steps);
  }
}
