/**
 Money safety of the retrieval client over every run: the ledger is conserved, the client
 never pays for bytes it has not received, vouchers never shrink, and the payment interval
 it waits for never runs ahead of the boundary after the bytes it has paid for.
 */
module ClientLedger {
  import opened Words
  import opened Intervals
  import opened Billing
  import opened ClientFsm
  import opened ClientMachine

  // ---------------------------------------------------------------- conservation

  /** Total of the amounts asked for in a sequence of events. */
  function AmountsOwed(events: seq<ClientEvent>): int {
    if events == [] then 0 else AmountsOwed(events[..|events| - 1]) + AmountOwed(events[|events| - 1])
  }

  function AmountOwed(e: ClientEvent): int {
    if e.LastPaymentRequested? || e.PaymentRequested? || e.UnsealPaymentRequested? then e.owed else 0
  }

  /** What is still requested plus what was spent is what was ever asked for. */
  predicate Conserved(c: Client) {
    c.deal.paymentRequested + c.deal.fundsSpent == AmountsOwed(c.accepted)
  }

  lemma ActionConserves(d: ClientDeal, e: ClientEvent)
    ensures var d' := Act(d, e);
            d'.paymentRequested + d'.fundsSpent == d.paymentRequested + d.fundsSpent + AmountOwed(e)
  {
    if e.PaymentSent? {
      PaymentConserves(d, e.amount);
    }
  }

  lemma PaymentConserves(d: ClientDeal, amount: int)
    ensures var d' := RecordPayment(d, amount);
            d'.paymentRequested + d'.fundsSpent == d.paymentRequested + d.fundsSpent
  {}

  lemma ProcessConserves(c: Client)
    requires Conserved(c) && c.queue != []
    ensures Conserved(Processed(c))
  {
    var e := c.queue[0];
    ApplyEffect(c.deal, e);
    ActionConserves(c.deal, e);
    var accepted := c.accepted + [e];
    assert accepted[..|accepted| - 1] == c.accepted;
  }

  lemma {:induction false} LedgerConserved(params: Params, totalFunds: int, steps: seq<Step>)
    ensures Conserved(Run(Start(params, totalFunds), steps))
  {
    if steps != [] {
      var c := Run(Start(params, totalFunds), steps[..|steps| - 1]);
      LedgerConserved(params, totalFunds, steps[..|steps| - 1]);
      if c.queue != [] {
        ProcessConserves(c);
      }
    }
  }

  // ---------------------------------------------------------------- never overpaying

  /** The deal's own counters are consistent. */
  predicate DealSound(d: ClientDeal) {
    var p := d.params;
    && (d.fundsSpent == VoucherAmount(p, d.bytesPaidFor) || (d.fundsSpent == 0 && d.bytesPaidFor == 0))
    && d.unsealFundsPaid == (if p.unsealPrice >= d.fundsSpent then d.fundsSpent else p.unsealPrice)
    && d.bytesPaidFor <= d.totalReceived < INT64_LIMIT
    && (p.pricePerByte > 0 && Tame(p) ==> d.currentInterval <= NextBoundary(p, d.bytesPaidFor))
  }

  /** `amount` is the price of some number of bytes already received. */
  predicate PaysForReceived(d: ClientDeal, amount: int) {
    exists n: nat :: n <= d.totalReceived && amount == VoucherAmount(d.params, n)
  }

  /** A queued event does not contradict the counters it will update. */
  predicate EventSound(d: ClientDeal, received: nat, e: ClientEvent) {
    && (e.BlocksReceived? ==> d.totalReceived <= e.total <= received)
    && (e.PaymentSent? ==> d.fundsSpent <= e.amount && PaysForReceived(d, e.amount))
  }

  /** Counters and payments arrive in nondecreasing order. */
  predicate Ordered(a: ClientEvent, b: ClientEvent) {
    && (a.BlocksReceived? && b.BlocksReceived? ==> a.total <= b.total)
    && (a.PaymentSent? && b.PaymentSent? ==> a.amount <= b.amount)
  }

  ghost predicate MoneySafe(c: Client) {
    && DealSound(c.deal)
    && c.deal.totalReceived <= c.received < INT64_LIMIT
    && (forall i :: 0 <= i < |c.queue| ==> EventSound(c.deal, c.received, c.queue[i]))
    && (forall i, j :: 0 <= i < j < |c.queue| ==> Ordered(c.queue[i], c.queue[j]))
    && (forall i :: 0 <= i < |c.vouchers| ==> PaysForReceived(c.deal, c.vouchers[i]))
    && (forall i, j :: 0 <= i < j < |c.vouchers| ==> c.vouchers[i] <= c.vouchers[j])
  }

  lemma StartIsSafe(params: Params, totalFunds: int)
    ensures MoneySafe(Start(params, totalFunds))
  {
    if params.pricePerByte > 0 && Tame(params) {
      BoundariesEnclose(params, 0, 1);
      assert params.Boundary(1) == params.Boundary(0) + params.IntervalSize(0);
    }
  }

  /** What recording a voucher for `n` bytes does to the counters. */
  lemma RecordedCounters(d: ClientDeal, n: uint64)
    ensures var p, d' := d.params, RecordPayment(d, VoucherAmount(d.params, n));
            && d'.params == p && d'.totalReceived == d.totalReceived && d'.fundsSpent == VoucherAmount(p, n)
            && d'.unsealFundsPaid == (if p.unsealPrice >= d'.fundsSpent then d'.fundsSpent else p.unsealPrice)
            && (p.unsealPrice >= d'.fundsSpent || p.pricePerByte == 0 ==>
                  d'.bytesPaidFor == d.bytesPaidFor && d'.currentInterval == d.currentInterval)
            && (p.unsealPrice < d'.fundsSpent && p.pricePerByte > 0 ==>
                  && d'.bytesPaidFor == n
                  && d'.currentInterval == if n >= d.currentInterval then NextLoop(p, d.currentInterval) else d.currentInterval)
  {
    if d.params.pricePerByte > 0 {
      VoucherCovers(d.params, n);
      NoWrap(0, n);
    }
  }

  /** A larger voucher is for more bytes, and one that only pays for unsealing is for none. */
  lemma VoucherOrder(p: Params, a: nat, b: nat)
    requires p.pricePerByte > 0
    ensures VoucherAmount(p, a) <= VoucherAmount(p, b) ==> a <= b
    ensures VoucherAmount(p, b) <= p.unsealPrice ==> b == 0
  {
    if b < a {
      VoucherMonotone(p, b, a);
    }
    if b > 0 {
      VoucherMonotone(p, 0, b);
    }
  }

  /** Recording a voucher for received bytes keeps the counters consistent. */
  lemma PaymentKeepsSound(d: ClientDeal, amount: int)
    requires DealSound(d) && d.fundsSpent <= amount && PaysForReceived(d, amount)
    ensures DealSound(RecordPayment(d, amount))
  {
    var p := d.params;
    var n: nat :| n <= d.totalReceived && amount == VoucherAmount(p, n);
    RecordedCounters(d, n);
    SoundAfter(d, RecordPayment(d, amount), n);
  }

  lemma SoundAfter(d: ClientDeal, d': ClientDeal, n: uint64)
    requires DealSound(d) && n <= d.totalReceived && d.fundsSpent <= VoucherAmount(d.params, n) == d'.fundsSpent
    requires d'.params == d.params && d'.totalReceived == d.totalReceived
    requires d'.unsealFundsPaid == (if d.params.unsealPrice >= d'.fundsSpent then d'.fundsSpent else d.params.unsealPrice)
    requires d.params.unsealPrice >= d'.fundsSpent || d.params.pricePerByte == 0 ==>
               d'.bytesPaidFor == d.bytesPaidFor && d'.currentInterval == d.currentInterval
    requires d.params.unsealPrice < d'.fundsSpent && d.params.pricePerByte > 0 ==>
               && d'.bytesPaidFor == n
               && d'.currentInterval == if n >= d.currentInterval then NextLoop(d.params, d.currentInterval) else d.currentInterval
    ensures DealSound(d')
  {
    var p := d.params;
    if p.pricePerByte > 0 {
      VoucherOrder(p, d.bytesPaidFor, n);
      if Tame(p) && d'.bytesPaidFor == n {
        IntervalKeepsUp(p, d.bytesPaidFor, n, d.currentInterval);
      }
    }
  }

  /** One boundary per payment is enough: the awaited interval stays at or before the next unpaid boundary. */
  lemma IntervalKeepsUp(p: Params, paid: uint64, n: uint64, interval: uint64)
    requires Tame(p) && paid <= n < INT64_LIMIT && interval <= NextBoundary(p, paid)
    ensures interval <= NextBoundary(p, n)
    ensures n >= interval ==> NextLoop(p, interval) <= NextBoundary(p, n)
  {
    NextBoundaryMonotone(p, paid, n);
    if n >= interval {
      NextBoundaryMonotone(p, interval, n);
      TameLoops(p, interval);
    }
  }

  predicate SameCounters(d: ClientDeal, d': ClientDeal) {
    d'.params == d.params && d'.totalReceived == d.totalReceived && d'.bytesPaidFor == d.bytesPaidFor &&
    d'.currentInterval == d.currentInterval && d'.fundsSpent == d.fundsSpent &&
    d'.unsealFundsPaid == d.unsealFundsPaid
  }

  lemma QuietEventKeepsCounters(d: ClientDeal, e: ClientEvent)
    requires !e.BlocksReceived? && !e.PaymentSent?
    ensures SameCounters(d, Act(d, e))
  {}

  lemma SoundnessIsInCounters(d: ClientDeal, d': ClientDeal)
    requires DealSound(d) && SameCounters(d, d')
    ensures DealSound(d')
  {}

  lemma CounterKeepsSound(d: ClientDeal, total: uint64)
    requires DealSound(d) && d.totalReceived <= total < INT64_LIMIT
    ensures DealSound(d.(totalReceived := total))
  {}

  lemma ActionKeepsSound(d: ClientDeal, received: nat, e: ClientEvent)
    requires DealSound(d) && received < INT64_LIMIT && EventSound(d, received, e)
    ensures DealSound(Act(d, e))
  {
    if e.PaymentSent? {
      PaymentKeepsSound(d, e.amount);
    } else if e.BlocksReceived? {
      CounterKeepsSound(d, e.total);
    } else {
      QuietEventKeepsCounters(d, e);
      SoundnessIsInCounters(d, Act(d, e));
    }
  }

  /** The two counters queued events refer to change only by their own events. */
  lemma ActionCounters(d: ClientDeal, e: ClientEvent)
    ensures var d' := Act(d, e);
            && d'.params == d.params
            && d'.totalReceived == (if e.BlocksReceived? then e.total else d.totalReceived)
            && d'.fundsSpent == (if e.PaymentSent? then e.amount else d.fundsSpent)
  {
    if !e.PaymentSent? && !e.BlocksReceived? {
      QuietEventKeepsCounters(d, e);
    }
  }

  lemma EventKeepsSound(d: ClientDeal, received: nat, e: ClientEvent, taken: bool, d': ClientDeal)
    requires DealSound(d) && received < INT64_LIMIT && EventSound(d, received, e) && Effect(d, e, taken, d')
    ensures DealSound(d') && d'.params == d.params
    ensures d'.totalReceived == (if taken && e.BlocksReceived? then e.total else d.totalReceived)
    ensures d'.fundsSpent == (if taken && e.PaymentSent? then e.amount else d.fundsSpent)
  {
    var acted := if taken then Act(d, e) else d;
    ActionKeepsSound(d, received, e);
    ActionCounters(d, e);
    SoundnessIsInCounters(acted, d');
  }

  lemma StillPaysForReceived(d: ClientDeal, d': ClientDeal, amount: int)
    requires PaysForReceived(d, amount) && d'.params == d.params && d'.totalReceived >= d.totalReceived
    ensures PaysForReceived(d', amount)
  {
    var n: nat :| n <= d.totalReceived && amount == VoucherAmount(d.params, n);
    assert n <= d'.totalReceived && amount == VoucherAmount(d'.params, n);
  }

  lemma ProcessKeepsSafe(c: Client)
    requires MoneySafe(c) && c.queue != []
    ensures MoneySafe(Processed(c))
  {
    var e := c.queue[0];
    var c' := Processed(c);
    if !ActPanics(c.deal, e) {
      ApplyEffect(c.deal, e);
      EventKeepsSound(c.deal, c.received, e, Accepts(c.deal.status, e), c'.deal);
      forall i | 0 <= i < |c'.queue|
        ensures EventSound(c'.deal, c'.received, c'.queue[i])
      {
        assert c'.queue[i] == c.queue[i + 1];
        assert Ordered(c.queue[0], c.queue[i + 1]);
        if c'.queue[i].PaymentSent? {
          StillPaysForReceived(c.deal, c'.deal, c'.queue[i].amount);
        }
      }
      forall i | 0 <= i < |c'.vouchers| ensures PaysForReceived(c'.deal, c'.vouchers[i]) {
        StillPaysForReceived(c.deal, c'.deal, c.vouchers[i]);
      }
    }
  }

  /** A handler's outcome pays exactly for everything received, and more than was spent, or not at all. */
  predicate PaysAll(d: ClientDeal, o: Outcome) {
    && |o.triggered| <= 1
    && (o.triggered != [] ==> !o.triggered[0].BlocksReceived?)
    && (o.triggered != [] && o.triggered[0].PaymentSent? ==>
          o.triggered[0].amount == VoucherAmount(d.params, d.totalReceived) > d.fundsSpent)
    && (o.voucher.Some? ==> o.voucher.value == VoucherAmount(d.params, d.totalReceived) > d.fundsSpent)
  }

  lemma SendFundsPaysAll(d: ClientDeal, reply: Reply)
    requires d.totalReceived < INT64_LIMIT
    ensures PaysAll(d, SendFundsHandler(d, reply))
  {}

  lemma HandlerPaysAll(d: ClientDeal, reply: Reply)
    requires d.totalReceived < INT64_LIMIT
    ensures PaysAll(d, Handle(d, reply))
  {
    SendFundsPaysAll(d, reply);
  }

  lemma AtMostAllReceived(d: ClientDeal, amount: int)
    requires PaysForReceived(d, amount)
    ensures amount <= VoucherAmount(d.params, d.totalReceived)
  {
    var n: nat :| n <= d.totalReceived && amount == VoucherAmount(d.params, n);
    VoucherMonotone(d.params, n, d.totalReceived);
  }

  lemma QueueStaysOrdered(c: Client, o: Outcome)
    requires MoneySafe(c) && PaysAll(c.deal, o)
    ensures var queue := c.queue + o.triggered;
            && (forall i :: 0 <= i < |queue| ==> EventSound(c.deal, c.received, queue[i]))
            && (forall i, j :: 0 <= i < j < |queue| ==> Ordered(queue[i], queue[j]))
  {
    assert PaysForReceived(c.deal, VoucherAmount(c.deal.params, c.deal.totalReceived));
    forall i | 0 <= i < |c.queue| && c.queue[i].PaymentSent?
      ensures c.queue[i].amount <= VoucherAmount(c.deal.params, c.deal.totalReceived)
    {
      AtMostAllReceived(c.deal, c.queue[i].amount);
    }
  }

  lemma VouchersStayOrdered(c: Client, amount: int)
    requires MoneySafe(c) && amount == VoucherAmount(c.deal.params, c.deal.totalReceived)
    ensures var vouchers := c.vouchers + [amount];
            && (forall i :: 0 <= i < |vouchers| ==> PaysForReceived(c.deal, vouchers[i]))
            && (forall i, j :: 0 <= i < j < |vouchers| ==> vouchers[i] <= vouchers[j])
  {
    assert PaysForReceived(c.deal, amount);
    forall i | 0 <= i < |c.vouchers| ensures c.vouchers[i] <= amount {
      AtMostAllReceived(c.deal, c.vouchers[i]);
    }
  }

  lemma FinishKeepsSafe(c: Client, reply: Reply)
    requires MoneySafe(c)
    ensures MoneySafe(Finished(c, reply))
  {
    var o := Handle(c.deal, reply);
    HandlerPaysAll(c.deal, reply);
    OutcomeKeepsSafe(c, o, Finished(c, reply));
  }

  lemma OutcomeKeepsSafe(c: Client, o: Outcome, c': Client)
    requires MoneySafe(c) && PaysAll(c.deal, o)
    requires c'.deal == c.deal && c'.received == c.received && c'.queue == c.queue + o.triggered
    requires c'.vouchers == if o.voucher.Some? then c.vouchers + [o.voucher.value] else c.vouchers
    ensures MoneySafe(c')
  {
    QueueStaysOrdered(c, o);
    if o.voucher.Some? {
      VouchersStayOrdered(c, o.voucher.value);
    }
  }

  lemma StepKeepsSafe(c: Client, step: Step)
    requires MoneySafe(c)
    ensures MoneySafe(Next(c, step))
  {
    match step
    case Deliver(e) =>
    case Process => if !c.running && c.queue != [] { ProcessKeepsSafe(c); }
    case Finish(reply) => FinishKeepsSafe(c, reply);
  }

  lemma {:induction false} AlwaysMoneySafe(params: Params, totalFunds: int, steps: seq<Step>)
    ensures MoneySafe(Run(Start(params, totalFunds), steps))
  {
    if steps == [] {
      StartIsSafe(params, totalFunds);
    } else {
      AlwaysMoneySafe(params, totalFunds, steps[..|steps| - 1]);
      StepKeepsSafe(Run(Start(params, totalFunds), steps[..|steps| - 1]), steps[|steps| - 1]);
    }
  }

  /**
   The client never overpays: at every point of every run, everything spent and every
   voucher ever created is at most the price of the bytes received so far plus unsealing,
   vouchers never shrink, and no more bytes are marked paid than were received.
   */
  lemma NeverOverpays(params: Params, totalFunds: int, steps: seq<Step>)
    ensures var c := Run(Start(params, totalFunds), steps);
            && 0 <= c.deal.fundsSpent <= VoucherAmount(params, c.deal.totalReceived)
            && c.deal.bytesPaidFor <= c.deal.totalReceived <= c.received
            && (forall i :: 0 <= i < |c.vouchers| ==> c.vouchers[i] <= VoucherAmount(params, c.deal.totalReceived))
            && (forall i, j :: 0 <= i < j < |c.vouchers| ==> c.vouchers[i] <= c.vouchers[j])
  {
    var c := Run(Start(params, totalFunds), steps);
    AlwaysMoneySafe(params, totalFunds, steps);
    SameTerms(params, totalFunds, steps);
    VoucherMonotone(params, c.deal.bytesPaidFor, c.deal.totalReceived);
    VoucherMonotone(params, 0, c.deal.bytesPaidFor);
    VoucherMonotone(params, 0, c.deal.totalReceived);
    forall i | 0 <= i < |c.vouchers| ensures c.vouchers[i] <= VoucherAmount(params, c.deal.totalReceived) {
      AtMostAllReceived(c.deal, c.vouchers[i]);
    }
  }

  lemma {:induction false} SameTerms(params: Params, totalFunds: int, steps: seq<Step>)
    ensures var c := Run(Start(params, totalFunds), steps);
            c.deal.params == params && c.deal.totalFunds == totalFunds
  {
    if steps != [] {
      SameTerms(params, totalFunds, steps[..|steps| - 1]);
      var c := Run(Start(params, totalFunds), steps[..|steps| - 1]);
      if c.queue != [] {
        ApplyEffect(c.deal, c.queue[0]);
        ActKeepsTerms(c.deal, c.queue[0]);
      }
    }
  }
}
