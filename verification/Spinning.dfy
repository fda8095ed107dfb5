/**
 Clients that are asked for payment over and over.  A priced deal comes to rest after a few
 turns; a deal whose bytes are free but that was asked for more than it paid keeps asking
 itself for payment and never does.
 */
module Spinning {
  import opened Intervals
  import opened Billing
  import opened Deals
  import opened Exchange
  import opened Stranding

  // ---------------------------------------------------------------- free bytes

  /** Free bytes, unsealing paid, more asked for than paid, and data beyond the awaited interval. */
  predicate FreeAndAsked(d: C.ClientDeal) {
    && d.status.Ongoing? && d.params.pricePerByte == 0 && !d.lastPaymentRequested && d.paymentRequested > 0
    && d.unsealFundsPaid >= d.params.unsealPrice && d.fundsSpent >= d.params.unsealPrice
    && d.bytesPaidFor < d.totalReceived && d.currentInterval <= d.totalReceived
  }

  lemma AskTurn(c: M.Client, d: C.ClientDeal, reply: C.Reply)
    requires At(c, d, [C.PaymentRequested(0)]) && FreeAndAsked(d)
    ensures At(M.Turn(c, reply), d.(status := FundsNeeded), [C.ClientEvent.SendFunds])
    ensures M.Turn(c, reply).vouchers == c.vouchers
  {
    assert C.Apply(d, C.PaymentRequested(0)) == C.Applied(d.(status := FundsNeeded), true);
    M.TurnEffect(c, C.PaymentRequested(0), reply);
  }

  lemma NothingToSendTurn(c: M.Client, d: C.ClientDeal, reply: C.Reply)
    requires At(c, d.(status := FundsNeeded), [C.ClientEvent.SendFunds]) && FreeAndAsked(d) && reply.headKnown
    ensures At(M.Turn(c, reply), d.(status := DealStatus.SendFunds), [C.PaymentNotSent])
    ensures M.Turn(c, reply).vouchers == c.vouchers
  {
    var sending := d.(status := DealStatus.SendFunds);
    assert C.Apply(d.(status := FundsNeeded), C.ClientEvent.SendFunds) == C.Applied(sending, true);
    NothingToSend(sending, reply);
    M.TurnEffect(c, C.ClientEvent.SendFunds, reply);
  }

  lemma NothingToSend(d: C.ClientDeal, reply: C.Reply)
    requires d.params.pricePerByte == 0 && d.fundsSpent >= d.params.unsealPrice && reply.headKnown
    requires d.currentInterval <= d.totalReceived
    ensures C.SendFundsHandler(d, reply) == C.Trigger(C.PaymentNotSent)
  {
    assert AsInt64(d.totalReceived) * 0 == 0;
  }

  lemma NotSentTurn(c: M.Client, d: C.ClientDeal, reply: C.Reply)
    requires At(c, d.(status := DealStatus.SendFunds), [C.PaymentNotSent]) && FreeAndAsked(d)
    ensures At(M.Turn(c, reply), d, [C.PaymentRequested(0)])
    ensures M.Turn(c, reply).vouchers == c.vouchers
  {
    assert C.Apply(d.(status := DealStatus.SendFunds), C.PaymentNotSent) == C.Applied(d, true);
    M.TurnEffect(c, C.PaymentNotSent, reply);
  }

  /** Three undisturbed turns. */
  function Round(c: M.Client, reply: C.Reply): M.Client {
    M.Turn(M.Turn(M.Turn(c, reply), reply), reply)
  }

  lemma RoundSpins(c: M.Client, d: C.ClientDeal, reply: C.Reply)
    requires At(c, d, [C.PaymentRequested(0)]) && FreeAndAsked(d) && reply.headKnown
    ensures At(Round(c, reply), d, [C.PaymentRequested(0)]) && Round(c, reply).vouchers == c.vouchers
  {
    var c1 := M.Turn(c, reply);
    AskTurn(c, d, reply);
    NothingToSendTurn(c1, d, reply);
    NotSentTurn(M.Turn(c1, reply), d, reply);
  }

  /** The i-th client goes through a round to become the next. */
  predicate Linked(clients: seq<M.Client>, reply: C.Reply, i: nat)
    requires i + 1 < |clients|
  {
    clients[i + 1] == Round(clients[i], reply)
  }

  /** Such a deal is back where it was after every round, for ever, without a voucher. */
  lemma {:induction false} FreeDealSpins(clients: seq<M.Client>, d: C.ClientDeal, n: nat, reply: C.Reply)
    requires n < |clients| && (forall i :: 0 <= i < |clients| - 1 ==> Linked(clients, reply, i))
    requires At(clients[0], d, [C.PaymentRequested(0)]) && FreeAndAsked(d) && reply.headKnown
    ensures At(clients[n], d, [C.PaymentRequested(0)]) && clients[n].vouchers == clients[0].vouchers
  {
    if n > 0 {
      FreeDealSpins(clients, d, n - 1, reply);
      RoundSpins(clients[n - 1], d, reply);
      assert Linked(clients, reply, n - 1);
    }
  }

  // ---------------------------------------------------------------- priced bytes

  /** A priced deal that asks itself for payment. */
  lemma PricedAskTurn(c: M.Client, d: C.ClientDeal, reply: C.Reply)
    requires At(c, d, [C.PaymentRequested(0)]) && d.status.Ongoing? && Payer(d)
    ensures At(M.Turn(c, reply), d.(status := FundsNeeded),
               if Ready(d, d.totalReceived) then [C.ClientEvent.SendFunds] else [])
  {
    var asked := d.(status := FundsNeeded);
    PayerMoves(d, asked);
    DecidesOnReady(asked);
    assert C.Apply(d, C.PaymentRequested(0)) == C.Applied(asked, true);
    M.TurnEffect(c, C.PaymentRequested(0), reply);
  }

  lemma PricedSendTurn(c: M.Client, d: C.ClientDeal, reply: C.Reply)
    requires At(c, d.(status := FundsNeeded), [C.ClientEvent.SendFunds]) && Payer(d) && Ready(d, d.totalReceived) && Willing(reply)
    ensures At(M.Turn(c, reply), d.(status := DealStatus.SendFunds),
               [C.PaymentSent(VoucherAmount(d.params, d.totalReceived))])
  {
    var sending := d.(status := DealStatus.SendFunds);
    PayerMoves(d, sending);
    SendsVoucher(sending, reply);
    assert C.Apply(d.(status := FundsNeeded), C.ClientEvent.SendFunds) == C.Applied(sending, true);
    M.TurnEffect(c, C.ClientEvent.SendFunds, reply);
  }

  /** Once paid for, the received bytes are not ready any more. */
  lemma PaidIsNotReady(d: C.ClientDeal)
    requires Payer(d) && Ready(d, d.totalReceived)
    ensures var d' := C.RecordPayment(d, VoucherAmount(d.params, d.totalReceived));
            Payer(d') && !Ready(d', d'.totalReceived) && d'.lastPaymentRequested == d.lastPaymentRequested
  {
    var voucher := VoucherAmount(d.params, d.totalReceived);
    MoreToPay(d, d.totalReceived);
    assert ClientLedger.PaysForReceived(d, voucher);
    ClientLedger.PaymentKeepsSound(d, voucher);
    ClientLedger.RecordedCounters(d, d.totalReceived);
    ClientPointers.PaymentKeepsChannel(d, voucher);
  }

  lemma PricedPaidTurn(c: M.Client, d: C.ClientDeal, reply: C.Reply)
    requires At(c, d.(status := DealStatus.SendFunds), [C.PaymentSent(VoucherAmount(d.params, d.totalReceived))])
    requires Payer(d) && Ready(d, d.totalReceived) && !d.lastPaymentRequested
    ensures var d' := M.Turn(c, reply).deal;
            && d'.status.Ongoing? && Payer(d') && !Ready(d', d'.totalReceived)
            && At(M.Turn(c, reply), d', if d'.paymentRequested > 0 then [C.PaymentRequested(0)] else [])
  {
    var sending := d.(status := DealStatus.SendFunds);
    var voucher := VoucherAmount(d.params, d.totalReceived);
    PayerMoves(d, sending);
    PaidIsNotReady(sending);
    var paid := C.RecordPayment(sending, voucher).(status := Ongoing);
    PayerMoves(C.RecordPayment(sending, voucher), paid);
    assert C.Apply(sending, C.PaymentSent(voucher)) == C.Applied(paid, true);
    M.TurnEffect(c, C.PaymentSent(voucher), reply);
  }

  /** A priced deal with a willing node is idle after at most four turns. */
  lemma PricedDealRests(c: M.Client, d: C.ClientDeal, reply: C.Reply)
    requires At(c, d, [C.PaymentRequested(0)]) && d.status.Ongoing? && Payer(d) && !d.lastPaymentRequested && Willing(reply)
    ensures M.Idle(M.Turn(M.Turn(M.Turn(M.Turn(c, reply), reply), reply), reply))
  {
    var c1 := M.Turn(c, reply);
    PricedAskTurn(c, d, reply);
    if Ready(d, d.totalReceived) {
      var c2 := M.Turn(c1, reply);
      PricedSendTurn(c1, d, reply);
      PricedPaidTurn(c2, d, reply);
      PaidRests(M.Turn(c2, reply), reply);
    } else {
      StillTurn(c1, reply);
    }
  }

  lemma PaidRests(c: M.Client, reply: C.Reply)
    requires c.deal.status.Ongoing? && Payer(c.deal) && !Ready(c.deal, c.deal.totalReceived)
    requires At(c, c.deal, if c.deal.paymentRequested > 0 then [C.PaymentRequested(0)] else [])
    ensures M.Idle(M.Turn(c, reply))
  {
    if c.deal.paymentRequested > 0 {
      PricedAskTurn(c, c.deal, reply);
    } else {
      StillTurn(c, reply);
    }
  }
}
