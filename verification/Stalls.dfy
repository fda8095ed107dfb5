/**
 Runs in which a deal comes to a halt although both sides are healthy.  They show that the
 conditions of the progress theorems cannot be dropped: a client that has paid more than it
 was asked for can stop for good at the data limit, and an error reported to one of the two
 deaf statuses is lost.  The two machines' modules go by the names `Exchange` gives them.
 */
module Stalls {
  import opened Words
  import opened Wrappers
  import opened Intervals
  import opened Billing
  import opened Deals
  import ClientProgress
  import opened Exchange
  import J = JointRuns
  import L = Lifecycle

  // ---------------------------------------------------------------- stalled at the data limit

  /**
   Both sides wait for the other, the provider for money and the client for data, and nothing
   is on its way: the provider has asked for the balance, the client has taken that request
   and everything before it, and both are idle and in step.
   */
  ghost predicate Stalled(params: Params, totalFunds: int, j: J.Joint, channel: P.Channel) {
    var owed := OutstandingBalance(params, j.provider.best, channel.queued, false);
    && J.Reachable(params, totalFunds, j)
    && M.Idle(j.client) && j.client.deal.status.Ongoing?
    && L.Resting(j.provider) && !j.provider.due && j.provider.deal.status.FundsNeeded?
    && InStep(j.client.deal, j.provider.deal, j.provider.best, channel) && J.Shows(channel, j.client)
    && L.AllDelivered(j) && owed > 0
    && j.provider.responses != []
    && j.provider.responses[|j.provider.responses| - 1] == DealResponse(FundsNeeded, owed)
  }

  /** The stall came from `j` by one request, which the client has added to what it was asked for and not paid. */
  ghost predicate StalledFrom(params: Params, totalFunds: int, j: J.Joint, channel: P.Channel, j': J.Joint) {
    var owed := OutstandingBalance(params, j.provider.best, channel.queued, false);
    && Stalled(params, totalFunds, j', channel) && J.Leads(j, j')
    && j'.client.deal == j.client.deal.(paymentRequested := j.client.deal.paymentRequested + owed)
    && j'.provider.best == j.provider.best
    && j'.provider.responses == j.provider.responses + [DealResponse(FundsNeeded, owed)]
  }

  /** The node reports that the channel cannot cover the voucher, and then that it holds nothing. */
  const SHORT := C.Reply(Some(0), true, C.ChannelExists(0), Some(0), Some(0), C.Shortfall(1), true,
                         Some(C.AvailableFunds(0, 0, 0, 0, None)), true, true)

  /** Asked for payment at the limit, the client tries to send a voucher. */
  lemma AsksAndDecides(params: Params, totalFunds: int, j: J.Joint, d: C.ClientDeal, owed: int) returns (j': J.Joint)
    requires L.Between(params, totalFunds, j, d, []) && d.status.Ongoing? && Asked(j, owed)
    requires C.ProcessPaymentRequested(AskedDeal(d, owed)) == C.Trigger(C.ClientEvent.SendFunds)
    ensures L.Between(params, totalFunds, j', AskedDeal(d, owed), [C.ClientEvent.SendFunds])
    ensures j'.provider == j.provider && j'.delivered == j.delivered + 1
    ensures j'.client.received == j.client.received && j'.client.vouchers == j.client.vouchers && J.Leads(j, j')
  {
    j' := L.ReceiveAnswer(params, totalFunds, j, d, C.PaymentRequested(owed), SHORT);
  }

  /** The next response asks for this amount. */
  predicate Asked(j: J.Joint, owed: int) {
    j.delivered < |j.provider.responses| && J.NextAnswer(j) == C.PaymentRequested(owed)
  }

  /** Only the client has moved, without making a voucher. */
  predicate Idly(j: J.Joint, j': J.Joint) {
    L.Beside(j, j') && j'.client.received == j.client.received && j'.client.vouchers == j.client.vouchers
  }

  /** And by a wired run. */
  ghost predicate IdlyOn(j: J.Joint, j': J.Joint) {
    Idly(j, j') && J.Leads(j, j')
  }

  lemma FallsShort(params: Params, totalFunds: int, j: J.Joint, d: C.ClientDeal) returns (j': J.Joint)
    requires L.Between(params, totalFunds, j, d, [C.ClientEvent.SendFunds]) && d.status.FundsNeeded?
    requires C.SendFundsHandler(d.(status := DealStatus.SendFunds), SHORT) == C.Trigger(C.VoucherShortfall(1))
    ensures L.Between(params, totalFunds, j', d.(status := DealStatus.SendFunds), [C.VoucherShortfall(1)])
    ensures IdlyOn(j, j')
  {
    j' := L.Take(params, totalFunds, j, d, C.ClientEvent.SendFunds, SHORT);
  }

  /** With nothing outstanding, an empty channel counts as funded. */
  lemma EmptyChannelIsReady(params: Params, totalFunds: int, j: J.Joint, d: C.ClientDeal) returns (j': J.Joint)
    requires L.Between(params, totalFunds, j, d, [C.VoucherShortfall(1)]) && d.status.SendFunds?
    requires d.paymentInfo.Some? && d.waitMsgCID.None? && d.paymentRequested <= 0
    ensures L.Between(params, totalFunds, j', d.(status := CheckFunds), [C.PaymentChannelReady(d.paymentInfo.value.payCh)])
    ensures IdlyOn(j, j')
  {
    j' := L.Take(params, totalFunds, j, d, C.VoucherShortfall(1), SHORT);
  }

  lemma BackToWaiting(params: Params, totalFunds: int, j: J.Joint, d: C.ClientDeal) returns (j': J.Joint)
    requires d.status.CheckFunds? && d.paymentInfo.Some? && d.waitMsgCID.None? && d.paymentRequested <= 0
    requires L.Between(params, totalFunds, j, d, [C.PaymentChannelReady(d.paymentInfo.value.payCh)])
    ensures L.Between(params, totalFunds, j', d.(status := Ongoing), []) && IdlyOn(j, j')
  {
    j' := L.Take(params, totalFunds, j, d, C.PaymentChannelReady(d.paymentInfo.value.payCh), SHORT);
  }

  /** The client's decisions at the limit, with a channel that cannot cover the voucher. */
  lemma TriesToPay(d: C.ClientDeal)
    requires d.unsealFundsPaid >= d.params.unsealPrice && d.totalReceived < INT64_LIMIT
    requires d.bytesPaidFor < d.totalReceived && d.currentInterval <= d.totalReceived && d.paymentInfo.Some?
    requires VoucherAmount(d.params, d.totalReceived) > d.fundsSpent
    ensures C.ProcessPaymentRequested(d) == C.Trigger(C.ClientEvent.SendFunds)
    ensures C.SendFundsHandler(d, SHORT) == C.Trigger(C.VoucherShortfall(1))
  {}

  /** The client's four turns from the request to waiting again, with nothing paid. */
  lemma PaysNothing(params: Params, totalFunds: int, j: J.Joint, d: C.ClientDeal, owed: int) returns (j': J.Joint)
    requires L.Between(params, totalFunds, j, d, []) && d.status.Ongoing? && Asked(j, owed)
    requires d.paymentInfo.Some? && d.waitMsgCID.None? && d.paymentRequested + owed <= 0
    requires d.unsealFundsPaid >= d.params.unsealPrice && d.totalReceived < INT64_LIMIT
    requires d.bytesPaidFor < d.totalReceived && d.currentInterval <= d.totalReceived
    requires VoucherAmount(d.params, d.totalReceived) > d.fundsSpent
    ensures L.Between(params, totalFunds, j', d.(paymentRequested := d.paymentRequested + owed), [])
    ensures j'.provider == j.provider && j'.delivered == j.delivered + 1
    ensures j'.client.received == j.client.received && j'.client.vouchers == j.client.vouchers && J.Leads(j, j')
  {
    var asked := AskedDeal(d, owed);
    TriesToPay(asked);
    TriesToPay(asked.(status := DealStatus.SendFunds));
    var j1 := AsksAndDecides(params, totalFunds, j, d, owed);
    var j2 := FallsShort(params, totalFunds, j1, asked);
    var j3 := EmptyChannelIsReady(params, totalFunds, j2, asked.(status := DealStatus.SendFunds));
    j' := BackToWaiting(params, totalFunds, j3, asked.(status := CheckFunds));
    J.LeadsOn(j, j1, j2);
    J.LeadsOn(j, j2, j3);
    J.LeadsOn(j, j3, j');
  }

  /** A running transfer at its data limit. */
  ghost predicate AtLimit(params: Params, totalFunds: int, j: J.Joint, channel: P.Channel) {
    && L.Serving(params, totalFunds, j, channel) && params.pricePerByte > 0 && Tame(params)
    && ClientPointers.FreeIfUnfunded(params, totalFunds)
    && channel.queued >= NextInterval(params, j.provider.best)
  }

  /**
   From any running transfer at its data limit, if the client has been asked for no more in
   all than it has paid, the request counted, a voucher shortfall stalls the deal.
   */
  lemma ShortfallStalls(params: Params, totalFunds: int, j: J.Joint, channel: P.Channel) returns (j': J.Joint)
    requires AtLimit(params, totalFunds, j, channel)
    requires j.client.deal.paymentRequested + OutstandingBalance(params, j.provider.best, channel.queued, false) <= 0
    ensures StalledFrom(params, totalFunds, j, channel, j')
  {
    var d, best := j.provider.deal.(status := FundsNeeded), j.provider.best;
    J.ClientReachable(params, totalFunds, j);
    ReachableFacts(params, totalFunds, j.client);
    SpentIsPriceOfPaid(j.client.deal);
    BeyondInterval(j.client.deal);
    var request := ProviderAsksAtLimit(d, best, channel);
    var j1 := L.Asking(params, totalFunds, j, channel, request);
    L.AtRest(params, totalFunds, j1);
    j' := PaysNothing(params, totalFunds, j1, j.client.deal, request.paymentOwed);
    J.LeadsOn(j, j1, j');
  }

  /** A stalled client has been asked for no more than it has paid. */
  lemma StalledInCredit(params: Params, totalFunds: int, j: J.Joint, channel: P.Channel)
    requires Stalled(params, totalFunds, j, channel)
    ensures j.client.deal.paymentRequested <= 0
  {
    J.ClientReachable(params, totalFunds, j);
    ClientProgress.RestsOnlyWithNothingToDo(params, totalFunds, j.client);
  }

  /**
   Exactly when a running transfer at its data limit can stall on the next request: when that
   request does not ask for more, in all, than the client has paid.
   */
  lemma StallsExactly(params: Params, totalFunds: int, j: J.Joint, channel: P.Channel)
    requires AtLimit(params, totalFunds, j, channel)
    ensures (exists j' :: StalledFrom(params, totalFunds, j, channel, j')) <==>
            j.client.deal.paymentRequested + OutstandingBalance(params, j.provider.best, channel.queued, false) <= 0
  {
    if j' :| StalledFrom(params, totalFunds, j, channel, j') {
      StalledInCredit(params, totalFunds, j', channel);
    }
    if j.client.deal.paymentRequested + OutstandingBalance(params, j.provider.best, channel.queued, false) <= 0 {
      var j' := ShortfallStalls(params, totalFunds, j, channel);
    }
  }

  /** Both byte counts are past the limit, and asking for them brings less than the first is worth. */
  predicate Overshoots(params: Params, first: uint64, second: uint64) {
    var paid := VoucherAmount(params, first);
    && NextInterval(params, params.unsealPrice) <= first && NextInterval(params, paid) <= second
    && params.unsealPrice + OutstandingBalance(params, params.unsealPrice, first, false)
       + OutstandingBalance(params, paid, second, false) <= paid
  }

  /**
   Such stalls happen: if the provider first stops at `first` bytes, so far beyond its limit
   that the client then pays more than it is asked for now and at `second` bytes together,
   a voucher shortfall at the second stop stalls the deal.
   */
  lemma OvershootStalls(params: Params, totalFunds: int, first: uint64, second: uint64, yes: C.Reply)
    returns (j: J.Joint, channel: P.Channel)
    requires params.pricePerByte > 0 && Tame(params) && totalFunds != 0 && L.Cooperative(yes)
    requires first <= second < INT64_LIMIT && Overshoots(params, first, second)
    ensures Stalled(params, totalFunds, j, channel)
  {
    j, channel := L.DealOpens(params, totalFunds, yes);
    j := L.CountingRound(params, totalFunds, j, channel, first, yes);
    j, channel := L.PayingRound(params, totalFunds, j, channel.(queued := first), yes);
    j := L.CountingRound(params, totalFunds, j, channel, second, yes);
    channel := channel.(queued := second);
    j := ShortfallStalls(params, totalFunds, j, channel);
  }

  /** Intervals of ten bytes at a price of one, with nothing to pay for unsealing. */
  predicate Ten(p: Params) {
    p.pricePerByte == 1 && p.paymentInterval == 10 && p.paymentIntervalIncrease == 0 && p.unsealPrice == 0
  }

  lemma {:induction false} TenBoundary(p: Params, k: nat)
    requires Ten(p)
    ensures p.Boundary(k) == 10 * k
  {
    if k > 0 {
      TenBoundary(p, k - 1);
      assert p.IntervalSize(k - 1) == 10;
    }
  }

  /** The boundaries around `x` bytes. */
  lemma TenLoops(p: Params, x: uint64, k: nat)
    requires Ten(p) && 10 * k <= x < 10 * k + 10 && x < INT64_LIMIT
    ensures Tame(p) && LowerLoop(p, x) == 10 * k && NextLoop(p, x) == 10 * k + 10
  {
    SmallIntervalsAreTame(p);
    TameLoops(p, x);
    TenBoundary(p, k);
    TenBoundary(p, k + 1);
    BoundariesEnclose(p, x, k);
    BoundariesEnclose(p, x, k + 1);
    TenBoundary(p, IntervalOf(p, x));
    TenBoundary(p, IntervalOf(p, x) + 1);
  }

  lemma TenVoucher(p: Params, x: nat)
    requires Ten(p)
    ensures VoucherAmount(p, x) == x && BytesCovered(p, x) == x
  {
    assert VoucherAmount(p, x) == x;
    VoucherCovers(p, x);
  }

  /** The limit bought by paying for `x` bytes. */
  lemma TenLimit(p: Params, x: uint64, k: nat)
    requires Ten(p) && 10 * k <= x < 10 * k + 10 && x < INT64_LIMIT
    ensures NextInterval(p, x) == 10 * k + 10
  {
    TenLoops(p, x, k);
    TenVoucher(p, x);
    NoWrap(0, x);
  }

  /** What is billed for `x` bytes. */
  lemma TenBill(p: Params, funds: nat, x: uint64, k: nat)
    requires Ten(p) && 10 * k <= x < 10 * k + 10 && x < INT64_LIMIT && funds <= 10 * k
    ensures OutstandingBalance(p, funds, x, false) == 10 * k - funds
  {
    TenLoops(p, x, k);
    TenVoucher(p, 10 * k);
    BalanceIsShortfall(p, funds, x, false);
  }

  lemma TenOvershoots(p: Params, first: uint64, second: uint64)
    requires Ten(p) && first == 19 && second == 29
    ensures Overshoots(p, first, second)
  {
    TenVoucher(p, first);
    TenLimit(p, 0, 0);
    TenLimit(p, first, 1);
    TenBill(p, 0, first, 1);
    TenBill(p, first, second, 2);
  }

  /** With those terms, stops at nineteen and at twenty-nine bytes are enough. */
  lemma DealCanStall(p: Params, yes: C.Reply) returns (j: J.Joint, channel: P.Channel)
    requires Ten(p) && L.Cooperative(yes)
    ensures Stalled(p, 1, j, channel)
  {
    TenLoops(p, 0, 0);
    TenOvershoots(p, 19, 29);
    j, channel := OvershootStalls(p, 1, 19, 29, yes);
  }

  // ---------------------------------------------------------------- errors that are lost

  const DEAF := C.Reply(Some(0), true, C.ChannelFunding(1, 0), None, Some(0), C.Shortfall(1), true, None, true, true)

  /** An event without an entry in the table is dropped, and nothing is left to do. */
  lemma Dropped(params: Params, totalFunds: int, c: M.Client, d: C.ClientDeal, e: C.ClientEvent) returns (c': M.Client)
    requires M.Between(params, totalFunds, c, d, [e]) && !C.Accepts(d.status, e)
    ensures M.Between(params, totalFunds, c', d, [])
  {
    c' := M.Next(c, M.Process);
    M.ReachableNext(params, totalFunds, c, M.Process);
  }

  /** A client adding its initial funds that cannot wait for them stays there, whatever its terms. */
  lemma InitialFundsErrorIsLost(params: Params, totalFunds: int) returns (c: M.Client)
    requires totalFunds != 0
    ensures M.Reachable(params, totalFunds, c) && M.Idle(c) && c.deal.status.PaymentChannelAddingInitialFunds?
    ensures ClientProgress.Restless(c.deal)
  {
    var d := C.NewDeal(params, totalFunds);
    M.StartReachable(params, totalFunds);
    c := M.Take(params, totalFunds, M.Start(params, totalFunds), d, C.Open, DEAF);
    c := M.Take(params, totalFunds, c, d, C.DealProposed(0), DEAF);
    c := FundingStarts(params, totalFunds, c, d.(status := WaitForAcceptance, channelID := Some(0)));
  }

  lemma FundingStarts(params: Params, totalFunds: int, c: M.Client, d: C.ClientDeal) returns (c': M.Client)
    requires d.status.WaitForAcceptance? && d.paymentInfo.None? && d.totalFunds != 0
    requires M.Between(params, totalFunds, c, d, [])
    ensures M.Reachable(params, totalFunds, c') && M.Idle(c') && c'.deal.status.PaymentChannelAddingInitialFunds?
  {
    c' := M.Receive(params, totalFunds, c, d, C.DealAccepted, DEAF);
    c' := FundingFails(params, totalFunds, c', d.(status := Accepted));
  }

  lemma FundingFails(params: Params, totalFunds: int, c: M.Client, d: C.ClientDeal) returns (c': M.Client)
    requires d.status.Accepted? && d.paymentInfo.None?
    requires M.Between(params, totalFunds, c, d, [C.ClientEvent.PaymentChannelAddingFunds(1, 0)])
    ensures M.Reachable(params, totalFunds, c') && M.Idle(c') && c'.deal.status.PaymentChannelAddingInitialFunds?
  {
    var funding := d.(status := PaymentChannelAddingInitialFunds, waitMsgCID := Some(1),
                      paymentInfo := Some(C.PaymentInfo(0, 0)));
    c' := M.Take(params, totalFunds, c, d, C.ClientEvent.PaymentChannelAddingFunds(1, 0), DEAF);
    c' := Dropped(params, totalFunds, c', funding, C.PaymentChannelErrored);
  }

  /** A client whose funds cannot be checked after a shortfall stays in that check. */
  lemma FundsCheckErrorIsLost(params: Params, totalFunds: int, yes: C.Reply) returns (c: M.Client)
    requires totalFunds != 0 && (params.unsealPrice > 0 || params.pricePerByte > 0) && L.Cooperative(yes)
    ensures M.Reachable(params, totalFunds, c) && M.Idle(c) && c.deal.status.CheckFunds?
    ensures ClientProgress.Restless(c.deal)
  {
    var j := L.Proposing(params, totalFunds, yes);
    j := L.Answered(params, totalFunds, j, yes);
    j := L.Channelling(params, totalFunds, j, yes);
    var d := L.Channelled(params, totalFunds, yes);
    if params.unsealPrice > 0 {
      j := L.DecidingTurn(params, totalFunds, j, d, yes);
      UnsealFallsShort(d.(status := DealStatus.SendFunds));
      j := FallsShort(params, totalFunds, j, d.(status := FundsNeeded));
      c := CheckFails(params, totalFunds, j.client, d.(status := DealStatus.SendFunds));
    } else {
      c := LastFallsShort(params, totalFunds, j.client, d);
    }
  }

  /** A deal with only a price per byte falls short at its last payment, if not before. */
  lemma LastFallsShort(params: Params, totalFunds: int, c: M.Client, d: C.ClientDeal) returns (c': M.Client)
    requires M.Between(params, totalFunds, c, d, []) && d.status.Ongoing? && c.received == 0
    requires d.fundsSpent == 0 && d.paymentRequested == 0 && d.paymentInfo.Some? && d.waitMsgCID.None?
    requires d.params.pricePerByte > 0
    ensures M.Reachable(params, totalFunds, c') && M.Idle(c') && c'.deal.status.CheckFunds?
  {
    var one := d.(totalReceived := 1);
    GoesOn(one, SHORT);
    c' := M.Receive(params, totalFunds, c, d, C.BlocksReceived(1), SHORT);
    c' := LastBlockFallsShort(params, totalFunds, c', one);
  }

  lemma LastBlockFallsShort(params: Params, totalFunds: int, c: M.Client, d: C.ClientDeal) returns (c': M.Client)
    requires M.Between(params, totalFunds, c, d, []) && d.status.Ongoing? && d.totalReceived == 1
    requires d.fundsSpent == 0 && d.paymentInfo.Some? && d.waitMsgCID.None? && d.params.pricePerByte > 0
    ensures M.Reachable(params, totalFunds, c') && M.Idle(c') && c'.deal.status.CheckFunds?
  {
    c' := M.Receive(params, totalFunds, c, d, C.AllBlocksReceived, SHORT);
    c' := LastShortfall(params, totalFunds, c', d.(status := BlocksComplete, allBlocksReceived := true));
  }

  lemma LastShortfall(params: Params, totalFunds: int, c: M.Client, d: C.ClientDeal) returns (c': M.Client)
    requires M.Between(params, totalFunds, c, d, []) && d.status.BlocksComplete?
    requires d.totalReceived == 1 && d.allBlocksReceived && d.fundsSpent == 0
    requires d.paymentInfo.Some? && d.waitMsgCID.None? && d.params.pricePerByte > 0
    ensures M.Reachable(params, totalFunds, c') && M.Idle(c') && c'.deal.status.CheckFunds?
  {
    var last := d.(status := SendFundsLastPayment, lastPaymentRequested := true);
    OneByteFallsShort(last);
    assert C.Apply(d, C.LastPaymentRequested(0)) == C.Applied(last, true);
    c' := M.Receive(params, totalFunds, c, d, C.LastPaymentRequested(0), SHORT);
    c' := CheckFails(params, totalFunds, c', last);
  }

  lemma OneByteFallsShort(d: C.ClientDeal)
    requires d.totalReceived == 1 && d.allBlocksReceived && d.fundsSpent == 0 && d.paymentInfo.Some?
    requires d.params.pricePerByte > 0
    ensures C.SendFundsHandler(d, SHORT) == C.Trigger(C.VoucherShortfall(1))
  {
    assert AsInt64(1) * d.params.pricePerByte == d.params.pricePerByte;
  }

  lemma UnsealFallsShort(d: C.ClientDeal)
    requires d.totalReceived == 0 && d.unsealFundsPaid == 0 == d.fundsSpent < d.params.unsealPrice && d.paymentInfo.Some?
    ensures C.SendFundsHandler(d, SHORT) == C.Trigger(C.VoucherShortfall(1))
  {}

  lemma CheckFails(params: Params, totalFunds: int, c: M.Client, d: C.ClientDeal) returns (c': M.Client)
    requires M.Between(params, totalFunds, c, d, [C.VoucherShortfall(1)])
    requires (d.status.SendFunds? || d.status.SendFundsLastPayment?) && d.paymentInfo.Some? && d.waitMsgCID.None?
    ensures M.Reachable(params, totalFunds, c') && M.Idle(c') && c'.deal.status.CheckFunds?
  {
    c' := M.Take(params, totalFunds, c, d, C.VoucherShortfall(1), DEAF);
    c' := Dropped(params, totalFunds, c', d.(status := CheckFunds), C.PaymentChannelErrored);
  }
}
