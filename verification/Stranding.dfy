/**
 A request for the last payment that reaches the client before its last bytes.

 The client answers it with a voucher for the bytes counted so far, as soon as they are beyond
 what it has paid for and the interval it waits for, and then only waits to be told that the
 deal is complete: further counts, the last block and further requests are dropped.  If bytes
 were still missing, the provider waits for the rest of the money for ever.

 Events come undisturbed here, each taken with all it triggers before the next; the module
 says for every list of progress counts exactly what the client pays.
 */
module Stranding {
  import opened Words
  import opened Wrappers
  import opened Intervals
  import opened Billing
  import opened Deals
  import opened Exchange
  import R = ProviderRuns
  import J = JointRuns
  import L = Lifecycle
  import S = Stalls

  // ---------------------------------------------------------------- the client's decisions

  /** A deal in the transfer that has paid for unsealing and still misses blocks. */
  predicate Payer(d: C.ClientDeal) {
    && ClientLedger.DealSound(d) && d.params.pricePerByte > 0 && d.fundsSpent >= d.params.unsealPrice
    && !d.allBlocksReceived && d.paymentInfo.Some? && d.channelID.Some?
  }

  /** With `n` bytes counted the client pays for them: they are beyond what is paid and the awaited interval. */
  predicate Ready(d: C.ClientDeal, n: nat) {
    n > d.bytesPaidFor && n >= d.currentInterval
  }

  function LastAsked(d: C.ClientDeal, owed: int): C.ClientDeal {
    d.(status := FundsNeededLastPayment, paymentRequested := d.paymentRequested + owed, lastPaymentRequested := true)
  }

  lemma DecidesOnReady(d: C.ClientDeal)
    requires Payer(d)
    ensures C.ProcessPaymentRequested(d) ==
            if Ready(d, d.totalReceived) then C.Trigger(C.ClientEvent.SendFunds) else C.Nothing
  {}

  /** The same account in another status pays alike. */
  lemma PayerMoves(d: C.ClientDeal, d': C.ClientDeal)
    requires Payer(d) && SameAccount(d, d')
    ensures Payer(d')
  {
    SameAccountSound(d, d');
  }

  lemma PayerCounts(d: C.ClientDeal, n: uint64)
    requires Payer(d) && d.totalReceived <= n < INT64_LIMIT
    ensures Payer(d.(totalReceived := n))
  {
    ClientLedger.CounterKeepsSound(d, n);
  }

  /** The price of bytes beyond those paid for is more than was spent. */
  lemma MoreToPay(d: C.ClientDeal, n: nat)
    requires Payer(d) && n > d.bytesPaidFor
    ensures VoucherAmount(d.params, n) > d.fundsSpent
  {
    SpentIsPriceOfPaid(d);
    VoucherMonotone(d.params, d.bytesPaidFor, n);
  }

  lemma SendsVoucher(d: C.ClientDeal, reply: C.Reply)
    requires Payer(d) || Payer(d.(allBlocksReceived := false))
    requires d.totalReceived > d.bytesPaidFor && (d.allBlocksReceived || d.totalReceived >= d.currentInterval) && Willing(reply)
    ensures var voucher := VoucherAmount(d.params, d.totalReceived);
            C.SendFundsHandler(d, reply) == C.Outcome([C.PaymentSent(voucher)], Some(voucher), false)
  {
    MoreToPay(d.(allBlocksReceived := false), d.totalReceived);
  }

  // ---------------------------------------------------------------- undisturbed events

  /** An event with everything it leads to: three turns are enough, and further turns change nothing. */
  function Settled(c: M.Client, e: C.ClientEvent, reply: C.Reply): M.Client {
    M.Turn(M.Turn(M.Turn(M.Next(c, M.Deliver(e)), reply), reply), reply)
  }

  lemma StillTurn(c: M.Client, reply: C.Reply)
    requires M.Idle(c)
    ensures M.Turn(c, reply) == c
  {}

  /** The client has paid for `n` bytes in all and waits for completion. */
  predicate Ended(c: M.Client, c': M.Client, n: nat) {
    var voucher := VoucherAmount(c.deal.params, n);
    M.Idle(c') && c'.deal.status.Finalizing? && c'.deal.fundsSpent == voucher && c'.vouchers == c.vouchers + [voucher]
  }

  /** Between turns, with at most one event to take. */
  predicate At(c: M.Client, d: C.ClientDeal, queue: seq<C.ClientEvent>) {
    !c.running && !c.panicked && c.deal == d && c.queue == queue
  }

  /** The request arrives. */
  lemma RequestTurn(c: M.Client, owed: int, reply: C.Reply)
    requires M.Idle(c) && c.deal.status.Ongoing? && Payer(c.deal)
    ensures var c' := M.Turn(M.Next(c, M.Deliver(C.LastPaymentRequested(owed))), reply);
            && At(c', LastAsked(c.deal, owed),
                  if Ready(c.deal, c.deal.totalReceived) then [C.ClientEvent.SendFunds] else [])
            && c'.received == c.received && c'.vouchers == c.vouchers
  {
    var e := C.LastPaymentRequested(owed);
    PayerMoves(c.deal, LastAsked(c.deal, owed));
    DecidesOnReady(LastAsked(c.deal, owed));
    M.IdleDeliver(c, e);
    assert C.Apply(c.deal, e) == C.Applied(LastAsked(c.deal, owed), true);
    M.TurnEffect(M.Next(c, M.Deliver(e)), e, reply);
  }

  /** More bytes are counted while the request is open. */
  lemma CountTurn(c: M.Client, n: uint64, reply: C.Reply)
    requires M.Idle(c) && c.deal.status.FundsNeededLastPayment? && Payer(c.deal)
    requires c.deal.totalReceived <= n && c.received <= n < INT64_LIMIT
    ensures var c' := M.Turn(M.Next(c, M.Deliver(C.BlocksReceived(n))), reply);
            && At(c', c.deal.(totalReceived := n), if Ready(c.deal, n) then [C.ClientEvent.SendFunds] else [])
            && c'.received == n && c'.vouchers == c.vouchers
  {
    var e := C.BlocksReceived(n);
    PayerCounts(c.deal, n);
    DecidesOnReady(c.deal.(totalReceived := n));
    M.IdleDeliver(c, e);
    assert C.Apply(c.deal, e) == C.Applied(c.deal.(totalReceived := n), true);
    M.TurnEffect(M.Next(c, M.Deliver(e)), e, reply);
  }

  /** The client pays for what it has counted. */
  lemma PayTurns(c: M.Client, reply: C.Reply)
    requires At(c, c.deal, [C.ClientEvent.SendFunds]) && c.deal.status.FundsNeededLastPayment? && Payer(c.deal)
    requires Ready(c.deal, c.deal.totalReceived) && Willing(reply)
    ensures var c' := M.Turn(M.Turn(c, reply), reply);
            Ended(c, c', c.deal.totalReceived) && c'.received == c.received
  {
    var d := c.deal.(status := SendFundsLastPayment);
    PayerMoves(c.deal, d);
    SendsVoucher(d, reply);
    assert C.Apply(c.deal, C.ClientEvent.SendFunds) == C.Applied(d, true);
    M.TurnEffect(c, C.ClientEvent.SendFunds, reply);
    FinalizingTurn(M.Turn(c, reply), reply, VoucherAmount(c.deal.params, c.deal.totalReceived));
  }

  /** The last block arrives while the request is open. */
  lemma LastBlockTurn(c: M.Client, reply: C.Reply)
    requires M.Idle(c) && c.deal.status.FundsNeededLastPayment? && Payer(c.deal)
    requires c.deal.totalReceived > c.deal.bytesPaidFor && Willing(reply)
    ensures var c' := Settled(c, C.AllBlocksReceived, reply);
            Ended(c, c', c.deal.totalReceived) && c'.received == c.received
  {
    var c1 := M.Turn(M.Next(c, M.Deliver(C.AllBlocksReceived)), reply);
    LastBlockSends(c, reply);
    FinalizingTurn(c1, reply, VoucherAmount(c.deal.params, c.deal.totalReceived));
    StillTurn(M.Turn(c1, reply), reply);
  }

  lemma LastBlockSends(c: M.Client, reply: C.Reply)
    requires M.Idle(c) && c.deal.status.FundsNeededLastPayment? && Payer(c.deal)
    requires c.deal.totalReceived > c.deal.bytesPaidFor && Willing(reply)
    ensures var voucher := VoucherAmount(c.deal.params, c.deal.totalReceived);
            var c' := M.Turn(M.Next(c, M.Deliver(C.AllBlocksReceived)), reply);
            && At(c', c.deal.(status := SendFundsLastPayment, allBlocksReceived := true), [C.PaymentSent(voucher)])
            && c'.received == c.received && c'.vouchers == c.vouchers + [voucher]
  {
    var e := C.AllBlocksReceived;
    var d := c.deal.(status := SendFundsLastPayment, allBlocksReceived := true);
    LastBlockPays(c.deal, d, reply);
    LastBlockMoves(c.deal);
    M.IdleDeliver(c, e);
    M.TurnEffect(M.Next(c, M.Deliver(e)), e, reply);
  }

  lemma LastBlockPays(d: C.ClientDeal, last: C.ClientDeal, reply: C.Reply)
    requires Payer(d) && d.totalReceived > d.bytesPaidFor && Willing(reply)
    requires last == d.(status := SendFundsLastPayment, allBlocksReceived := true)
    ensures var voucher := VoucherAmount(d.params, d.totalReceived);
            C.Handle(last, reply) == C.Outcome([C.PaymentSent(voucher)], Some(voucher), false)
  {
    PayerMoves(d, d.(status := SendFundsLastPayment));
    SendsVoucher(last, reply);
  }

  lemma LastBlockMoves(d: C.ClientDeal)
    requires d.status.FundsNeededLastPayment?
    ensures C.Apply(d, C.AllBlocksReceived) ==
            C.Applied(d.(status := SendFundsLastPayment, allBlocksReceived := true), true)
    ensures !C.ActPanics(d, C.AllBlocksReceived)
  {}

  /** While it waits for completion the client drops counts, the last block and requests. */
  lemma DroppedTurn(c: M.Client, e: C.ClientEvent, reply: C.Reply)
    requires M.Idle(c) && c.deal.status.Finalizing? && M.CanDeliver(c, e)
    requires e.BlocksReceived? || e.AllBlocksReceived? || e.LastPaymentRequested?
    ensures M.Turn(M.Next(c, M.Deliver(e)), reply) == c.(received := if e.BlocksReceived? then e.total else c.received)
  {}

  lemma DroppedSettles(c: M.Client, e: C.ClientEvent, reply: C.Reply)
    requires M.Idle(c) && c.deal.status.Finalizing? && M.CanDeliver(c, e)
    requires e.BlocksReceived? || e.AllBlocksReceived? || e.LastPaymentRequested?
    ensures Settled(c, e, reply) == c.(received := if e.BlocksReceived? then e.total else c.received)
  {
    DroppedTurn(c, e, reply);
    StillTurn(M.Turn(M.Next(c, M.Deliver(e)), reply), reply);
  }

  // ---------------------------------------------------------------- the whole course

  /** The client after a list of progress counts. */
  function Counted(c: M.Client, counts: seq<uint64>, reply: C.Reply): M.Client {
    if counts == [] then c
    else Settled(Counted(c, counts[..|counts| - 1], reply), C.BlocksReceived(counts[|counts| - 1]), reply)
  }

  /** The request, the counts after it, and the last block. */
  function Course(c: M.Client, owed: int, counts: seq<uint64>, reply: C.Reply): M.Client {
    Settled(Counted(Settled(c, C.LastPaymentRequested(owed), reply), counts, reply), C.AllBlocksReceived, reply)
  }

  /** The count at which the client pays, the one it had before the request included. */
  function FirstReady(d: C.ClientDeal, counts: seq<uint64>): Option<uint64> {
    if counts == [] then (if Ready(d, d.totalReceived) then Some(d.totalReceived) else None)
    else
      var before, n := FirstReady(d, counts[..|counts| - 1]), counts[|counts| - 1];
      if before.Some? then before else if Ready(d, n) then Some(n) else None
  }

  function LastCount(d: C.ClientDeal, counts: seq<uint64>): uint64 {
    if counts == [] then d.totalReceived else counts[|counts| - 1]
  }

  /** How many bytes the client ends up paying for: the first count it is ready for, or all. */
  function PaysFor(d: C.ClientDeal, counts: seq<uint64>): uint64 {
    if FirstReady(d, counts).Some? then FirstReady(d, counts).value else LastCount(d, counts)
  }

  /** Counts never decrease, from what is counted already. */
  predicate Rising(from: uint64, counts: seq<uint64>) {
    counts == [] ||
    (Rising(from, counts[..|counts| - 1]) &&
     (if |counts| == 1 then from else counts[|counts| - 2]) <= counts[|counts| - 1] < INT64_LIMIT)
  }

  /** Where the client stands after the request and the counts. */
  predicate Stands(c: M.Client, owed: int, counts: seq<uint64>, c': M.Client) {
    && c'.received == LastCount(c.deal, counts)
    && (FirstReady(c.deal, counts).Some? ==> Ended(c, c', FirstReady(c.deal, counts).value))
    && (FirstReady(c.deal, counts).None? ==>
          At(c', LastAsked(c.deal, owed).(totalReceived := LastCount(c.deal, counts)), []) && c'.vouchers == c.vouchers)
  }

  /** A client in the transfer, with everything counted that was reported. */
  predicate Counting(c: M.Client) {
    M.Idle(c) && c.deal.status.Ongoing? && Payer(c.deal) && c.received == c.deal.totalReceived
  }

  lemma RequestStands(c: M.Client, owed: int, reply: C.Reply)
    requires Counting(c) && Willing(reply)
    ensures Stands(c, owed, [], Settled(c, C.LastPaymentRequested(owed), reply))
  {
    var c1 := M.Turn(M.Next(c, M.Deliver(C.LastPaymentRequested(owed))), reply);
    RequestTurn(c, owed, reply);
    if Ready(c.deal, c.deal.totalReceived) {
      PayerMoves(c.deal, LastAsked(c.deal, owed));
      PayTurns(c1, reply);
    } else {
      StillTurn(c1, reply);
    }
  }

  lemma CountStands(c: M.Client, owed: int, counts: seq<uint64>, before: M.Client, n: uint64, reply: C.Reply)
    requires Counting(c) && Willing(reply) && Stands(c, owed, counts, before)
    requires c.deal.totalReceived <= LastCount(c.deal, counts) <= n < INT64_LIMIT
    ensures Stands(c, owed, counts + [n], Settled(before, C.BlocksReceived(n), reply))
  {
    assert (counts + [n])[..|counts + [n]| - 1] == counts;
    if FirstReady(c.deal, counts).Some? {
      DroppedSettles(before, C.BlocksReceived(n), reply);
    } else {
      var d := before.deal;
      PayerMoves(c.deal, LastAsked(c.deal, owed));
      PayerCounts(LastAsked(c.deal, owed), LastCount(c.deal, counts));
      CountTurn(before, n, reply);
      var c1 := M.Turn(M.Next(before, M.Deliver(C.BlocksReceived(n))), reply);
      if Ready(d, n) {
        PayerCounts(d, n);
        PayTurns(c1, reply);
      } else {
        StillTurn(c1, reply);
      }
    }
  }

  lemma {:induction false} RisingAbove(from: uint64, counts: seq<uint64>)
    requires Rising(from, counts)
    ensures forall i :: 0 <= i < |counts| ==> from <= counts[i] <= counts[|counts| - 1] < INT64_LIMIT
  {
    if counts != [] {
      RisingAbove(from, counts[..|counts| - 1]);
    }
  }

  lemma {:induction false} CountsStand(c: M.Client, owed: int, counts: seq<uint64>, reply: C.Reply)
    requires Counting(c) && Willing(reply) && Rising(c.deal.totalReceived, counts)
    ensures Stands(c, owed, counts, Counted(Settled(c, C.LastPaymentRequested(owed), reply), counts, reply))
  {
    if counts == [] {
      RequestStands(c, owed, reply);
    } else {
      var init, n := counts[..|counts| - 1], counts[|counts| - 1];
      CountsStand(c, owed, init, reply);
      RisingAbove(c.deal.totalReceived, init);
      CountStands(c, owed, init, Counted(Settled(c, C.LastPaymentRequested(owed), reply), init, reply), n, reply);
      assert init + [n] == counts;
    }
  }

  /**
   Whatever the counts after the request, the client ends up waiting for completion, having
   paid for exactly the first count it was ready for, or for every byte if there was none.
   */
  lemma LastCourse(c: M.Client, owed: int, counts: seq<uint64>, reply: C.Reply)
    requires Counting(c) && Willing(reply) && Rising(c.deal.totalReceived, counts)
    requires LastCount(c.deal, counts) > c.deal.bytesPaidFor
    ensures var c' := Course(c, owed, counts, reply);
            Ended(c, c', PaysFor(c.deal, counts)) && c'.received == LastCount(c.deal, counts)
  {
    var c1 := Counted(Settled(c, C.LastPaymentRequested(owed), reply), counts, reply);
    CountsStand(c, owed, counts, reply);
    RisingAbove(c.deal.totalReceived, counts);
    if FirstReady(c.deal, counts).Some? {
      DroppedSettles(c1, C.AllBlocksReceived, reply);
    } else {
      PayerMoves(c.deal, LastAsked(c.deal, owed));
      PayerCounts(LastAsked(c.deal, owed), LastCount(c.deal, counts));
      LastBlockTurn(c1, reply);
    }
  }

  // ---------------------------------------------------------------- exactly when bytes stay unpaid

  lemma {:induction false} FirstReadyIsCount(d: C.ClientDeal, counts: seq<uint64>)
    requires FirstReady(d, counts).Some? && Rising(d.totalReceived, counts)
    ensures var n := FirstReady(d, counts).value;
            Ready(d, n) && d.totalReceived <= n <= LastCount(d, counts)
  {
    if counts != [] {
      RisingAbove(d.totalReceived, counts);
      if FirstReady(d, counts[..|counts| - 1]).Some? {
        FirstReadyIsCount(d, counts[..|counts| - 1]);
      }
    }
  }

  /** A count that is ready and not the last: the client pays for fewer bytes than there are. */
  lemma ShortCounts(d: C.ClientDeal, total: uint64) returns (counts: seq<uint64>)
    requires d.totalReceived < total < INT64_LIMIT && d.bytesPaidFor + 1 < total && d.currentInterval < total
    ensures Rising(d.totalReceived, counts) && LastCount(d, counts) == total && PaysFor(d, counts) < total
  {
    var n: uint64 := d.totalReceived;
    if n <= d.bytesPaidFor { n := d.bytesPaidFor + 1; }
    if n < d.currentInterval { n := d.currentInterval; }
    counts := [n, total];
    assert [n][..|[n]| - 1] == [];
    assert Rising(d.totalReceived, [n]);
    assert FirstReady(d, [n]) == if Ready(d, d.totalReceived) then Some(d.totalReceived) else Some(n);
    assert counts[..|counts| - 1] == [n];
    assert FirstReady(d, counts) == FirstReady(d, [n]);
  }

  /**
   With `total` bytes on their way when the request is made, the client can end up short of
   their price, for some list of progress counts, if and only if bytes are still missing and
   some count below the total is beyond what is paid and not below the awaited interval.
   */
  lemma ShortExactly(d: C.ClientDeal, total: uint64)
    requires d.totalReceived <= total < INT64_LIMIT
    ensures (exists counts: seq<uint64> ::
               Rising(d.totalReceived, counts) && LastCount(d, counts) == total && PaysFor(d, counts) < total) <==>
            d.totalReceived < total && d.bytesPaidFor + 1 < total && d.currentInterval < total
  {
    if counts: seq<uint64> :|
         Rising(d.totalReceived, counts) && LastCount(d, counts) == total && PaysFor(d, counts) < total {
      FirstReadyIsCount(d, counts);
    }
    if d.totalReceived < total && d.bytesPaidFor + 1 < total && d.currentInterval < total {
      var counts := ShortCounts(d, total);
    }
  }

  // ---------------------------------------------------------------- with the provider

  lemma JointSettled(params: Params, totalFunds: int, j: J.Joint, e: C.ClientEvent, reply: C.Reply)
    requires J.Reachable(params, totalFunds, j) && !J.FromResponse(e)
    ensures var j' := j.(client := Settled(j.client, e, reply));
            J.Reachable(params, totalFunds, j') && J.Leads(j, j')
  {
    var j1 := j.(client := M.Turn(M.Next(j.client, M.Deliver(e)), reply));
    L.JointDelivery(params, totalFunds, j, e, reply);
    TwoMoreTurns(params, totalFunds, j, j1, reply);
  }

  lemma JointSettledAnswer(params: Params, totalFunds: int, j: J.Joint, e: C.ClientEvent, reply: C.Reply)
    requires J.Reachable(params, totalFunds, j) && j.delivered < |j.provider.responses| && e == J.NextAnswer(j)
    ensures var j' := j.(client := Settled(j.client, e, reply), delivered := j.delivered + 1);
            J.Reachable(params, totalFunds, j') && J.Leads(j, j')
  {
    var j1 := j.(client := M.Turn(M.Next(j.client, M.Deliver(e)), reply), delivered := j.delivered + 1);
    L.JointAnswer(params, totalFunds, j, e, reply);
    TwoMoreTurns(params, totalFunds, j, j1, reply);
  }

  lemma TwoMoreTurns(params: Params, totalFunds: int, j: J.Joint, j1: J.Joint, reply: C.Reply)
    requires J.Reachable(params, totalFunds, j1) && J.Leads(j, j1)
    ensures var j' := j1.(client := M.Turn(M.Turn(j1.client, reply), reply));
            J.Reachable(params, totalFunds, j') && J.Leads(j, j')
  {
    var j2 := j1.(client := M.Turn(j1.client, reply));
    L.JointTurn(params, totalFunds, j1, reply);
    L.JointTurn(params, totalFunds, j2, reply);
    J.LeadsOn(j, j1, j2);
    J.LeadsOn(j, j2, j2.(client := M.Turn(j2.client, reply)));
  }

  lemma {:induction false} JointCounted(params: Params, totalFunds: int, j: J.Joint, counts: seq<uint64>, reply: C.Reply)
    requires J.Reachable(params, totalFunds, j)
    ensures var j' := j.(client := Counted(j.client, counts, reply));
            J.Reachable(params, totalFunds, j') && J.Leads(j, j')
  {
    if counts == [] {
      J.LeadsNowhere(j);
      assert j.(client := Counted(j.client, counts, reply)) == j;
    } else {
      var init := counts[..|counts| - 1];
      var j1 := j.(client := Counted(j.client, init, reply));
      JointCounted(params, totalFunds, j, init, reply);
      JointSettled(params, totalFunds, j1, C.BlocksReceived(counts[|counts| - 1]), reply);
      J.LeadsOn(j, j1, j.(client := Counted(j.client, counts, reply)));
    }
  }

  lemma JointCourse(params: Params, totalFunds: int, j: J.Joint, owed: int, counts: seq<uint64>, reply: C.Reply)
    requires J.Reachable(params, totalFunds, j) && j.delivered < |j.provider.responses|
    requires J.NextAnswer(j) == C.LastPaymentRequested(owed)
    ensures var j' := j.(client := Course(j.client, owed, counts, reply), delivered := j.delivered + 1);
            J.Reachable(params, totalFunds, j') && J.Leads(j, j')
  {
    var j1 := j.(client := Settled(j.client, C.LastPaymentRequested(owed), reply), delivered := j.delivered + 1);
    var j2 := j1.(client := Counted(j1.client, counts, reply));
    JointSettledAnswer(params, totalFunds, j, C.LastPaymentRequested(owed), reply);
    JointCounted(params, totalFunds, j1, counts, reply);
    JointSettled(params, totalFunds, j2, C.AllBlocksReceived, reply);
    J.LeadsOn(j, j1, j2);
    J.LeadsOn(j, j2, j2.(client := Settled(j2.client, C.AllBlocksReceived, reply)));
  }

  /** The channel when the transfer has queued all bytes and begins to finalize. */
  function AtEnd(channel: P.Channel, total: uint64): P.Channel {
    channel.(queued := total, inFinalization := true)
  }

  /** A running transfer whose provider begins to finalize with `total` bytes queued, not all paid. */
  ghost predicate Ending(params: Params, totalFunds: int, j: J.Joint, channel: P.Channel, total: uint64) {
    && L.Serving(params, totalFunds, j, channel) && params.pricePerByte > 0
    && ClientPointers.FreeIfUnfunded(params, totalFunds)
    && j.client.received <= total < INT64_LIMIT && j.client.deal.bytesPaidFor < total
  }

  /** What is missing to the price of every byte. */
  function Missing(params: Params, j: J.Joint, total: uint64): int {
    VoucherAmount(params, total) - j.provider.best
  }

  lemma EndingFacts(params: Params, totalFunds: int, j: J.Joint, channel: P.Channel, total: uint64)
    requires Ending(params, totalFunds, j, channel, total)
    ensures Counting(j.client) && j.client.deal.params == params
    ensures j.provider.best == VoucherAmount(params, j.client.deal.bytesPaidFor) && Missing(params, j, total) > 0
  {
    J.ClientReachable(params, totalFunds, j);
    ReachableFacts(params, totalFunds, j.client);
    SpentIsPriceOfPaid(j.client.deal);
    VoucherMonotone(params, j.client.deal.bytesPaidFor, total);
  }

  /** The provider bills every byte and asks. */
  lemma EarlyBill(params: Params, totalFunds: int, j: J.Joint, channel: P.Channel, total: uint64) returns (j': J.Joint)
    requires Ending(params, totalFunds, j, channel, total)
    ensures J.Reachable(params, totalFunds, j') && J.Leads(j, j') && j'.client == j.client && j'.delivered == j.delivered
    ensures L.Waiting(j'.provider, j.provider.deal.(status := FundsNeededLastPayment), j.provider.best,
                      j.provider.responses + [DealResponse(FundsNeededLastPayment, Missing(params, j, total))])
  {
    var d, best, last := j.provider.deal.(status := FundsNeededLastPayment), j.provider.best, AtEnd(channel, total);
    EndingFacts(params, totalFunds, j, channel, total);
    var request := ProviderAsksLast(d, best, last);
    assert request.status == FundsNeededLastPayment;
    R.FundingIsSound(d, best, last, true);
    assert P.Apply(j.provider.deal, P.LastPaymentRequested) == d;
    L.FundingTurn(j.provider, j.provider.deal, best, P.LastPaymentRequested, last);
    L.JointServe(params, totalFunds, j, P.LastPaymentRequested, L.Sees(last));
    j' := j.(provider := L.ServeTurn(j.provider, P.LastPaymentRequested, L.Sees(last)));
  }

  /** The joint state once the client has gone through its course. */
  lemma CourseTaken(params: Params, totalFunds: int, j: J.Joint, channel: P.Channel, total: uint64,
                    counts: seq<uint64>, reply: C.Reply) returns (j': J.Joint)
    requires Ending(params, totalFunds, j, channel, total) && Willing(reply)
    requires Rising(j.client.deal.totalReceived, counts) && LastCount(j.client.deal, counts) == total
    ensures J.Reachable(params, totalFunds, j') && J.Leads(j, j') && L.AllDelivered(j')
    ensures j'.client == Course(j.client, Missing(params, j, total), counts, reply)
    ensures Ended(j.client, j'.client, PaysFor(j.client.deal, counts)) && j'.client.received == total
    ensures L.Waiting(j'.provider, j.provider.deal.(status := FundsNeededLastPayment), j.provider.best, j'.provider.responses)
  {
    var owed := Missing(params, j, total);
    EndingFacts(params, totalFunds, j, channel, total);
    var j1 := EarlyBill(params, totalFunds, j, channel, total);
    JointCourse(params, totalFunds, j1, owed, counts, reply);
    j' := j1.(client := Course(j.client, owed, counts, reply), delivered := j.delivered + 1);
    J.LeadsOn(j, j1, j');
    LastCourse(j.client, owed, counts, reply);
  }

  // ---------------------------------------------------------------- too little paid

  /**
   Both sides wait for ever: the client to be told that the deal is complete, the provider for
   the rest of the money, with every byte received, every response taken and no handler due.
   */
  ghost predicate Stranded(params: Params, totalFunds: int, j: J.Joint, channel: P.Channel) {
    && J.Reachable(params, totalFunds, j) && L.AllDelivered(j)
    && M.Idle(j.client) && j.client.deal.status.Finalizing? && j.client.received == channel.queued
    && L.Resting(j.provider) && !j.provider.due && j.provider.deal.status.FundsNeededLastPayment?
    && j.provider.deal.params == params && channel.inFinalization && J.Shows(channel, j.client)
    && j.client.deal.fundsSpent == j.provider.deal.fundsReceived == j.provider.best
    && OutstandingBalance(params, j.provider.best, channel.queued, true) > 0
  }

  /** A voucher for fewer bytes is recorded in part, and the rest asked for. */
  lemma PartialTurn(p: R.Provider, d: P.ProviderDeal, best: nat, channel: P.Channel, voucher: nat, owed: nat)
    requires L.Waiting(p, d, best, p.responses) && d.status.FundsNeededLastPayment? && d.channelID.Some?
    requires channel.lastVoucher == P.Payment(voucher) && d.fundsReceived == best < voucher
    requires owed == OutstandingBalance(d.params, voucher, channel.queued, channel.inFinalization) > 0
    ensures var p' := L.ServeTurn(p, P.ProcessPayment, L.Sees(channel));
            && L.Waiting(p', d.(fundsReceived := voucher), voucher,
                         p.responses + [DealResponse(FundsNeededLastPayment, owed)])
            && p'.due
  {
    assert P.Apply(d, P.ProcessPayment) == d;
    P.FundingDecided(d, best, channel, true, voucher - best, owed, NextInterval(d.params, voucher));
    PartFunded(d, voucher - best, owed, NextInterval(d.params, voucher));
    L.FundingTurn(p, d, best, P.ProcessPayment, channel);
  }

  lemma PartFunded(d: P.ProviderDeal, received: nat, owed: nat, limit: nat)
    requires d.status.FundsNeededLastPayment? && owed > 0
    ensures var f := P.FundingFor(d.status, received, owed, limit);
            && f.received == received && R.Sent(f) == [DealResponse(FundsNeededLastPayment, owed)]
            && L.AfterAll(d, f.triggered) == d.(fundsReceived := d.fundsReceived + received)
            && L.Again(d, f.triggered) == (received > 0)
  {}

  /** The partial payment makes the handler run again: nothing new, and the rest is asked for again. */
  lemma AsksAgainTurn(p: R.Provider, d: P.ProviderDeal, best: nat, channel: P.Channel, owed: nat)
    requires L.Waiting(p, d, best, p.responses) && d.status.FundsNeededLastPayment? && d.channelID.Some?
    requires channel.lastVoucher == P.Payment(best) && d.fundsReceived == best
    requires owed == OutstandingBalance(d.params, best, channel.queued, channel.inFinalization) > 0
    ensures var p' := R.Next(L.HandlerTurn(p, L.Sees(channel)), R.Process);
            && L.Waiting(p', d, best, p.responses + [DealResponse(FundsNeededLastPayment, owed)]) && !p'.due
  {
    P.FundingDecided(d, best, channel, true, 0, owed, NextInterval(d.params, best));
    PartFunded(d, 0, owed, NextInterval(d.params, best));
    R.FundingIsSound(d, best, channel, true);
    L.FundedTurn(p, d, best, channel, P.UpdateFunding(d, best, channel, true));
  }

  /** The client drops a further request. */
  lemma RequestDropped(params: Params, totalFunds: int, j: J.Joint, owed: int, reply: C.Reply) returns (j': J.Joint)
    requires J.Reachable(params, totalFunds, j) && M.Idle(j.client) && j.client.deal.status.Finalizing?
    requires j.delivered < |j.provider.responses| && J.NextAnswer(j) == C.LastPaymentRequested(owed)
    ensures J.Reachable(params, totalFunds, j') && J.Leads(j, j') && j' == j.(delivered := j.delivered + 1)
  {
    var e := C.LastPaymentRequested(owed);
    DroppedTurn(j.client, e, reply);
    L.JointAnswer(params, totalFunds, j, e, reply);
    j' := j.(delivered := j.delivered + 1);
    assert j' == j.(client := M.Turn(M.Next(j.client, M.Deliver(e)), reply), delivered := j.delivered + 1);
  }

  /** The provider finds the voucher for fewer bytes, records it, and asks twice for the rest. */
  lemma CreditedInPart(params: Params, totalFunds: int, j: J.Joint, d: P.ProviderDeal, best: nat, channel: P.Channel,
                       voucher: nat, owed: nat) returns (j': J.Joint)
    requires J.Reachable(params, totalFunds, j) && L.Waiting(j.provider, d, best, j.provider.responses)
    requires d.status.FundsNeededLastPayment? && d.channelID.Some? && d.fundsReceived == best < voucher
    requires channel.lastVoucher == P.Payment(voucher) && J.Shows(channel, j.client)
    requires owed == OutstandingBalance(d.params, voucher, channel.queued, channel.inFinalization) > 0
    ensures J.Reachable(params, totalFunds, j') && J.Leads(j, j') && j'.client == j.client && j'.delivered == j.delivered
    ensures var request := DealResponse(FundsNeededLastPayment, owed);
            && L.Waiting(j'.provider, d.(fundsReceived := voucher), voucher, j.provider.responses + [request] + [request])
            && !j'.provider.due
  {
    PartialTurn(j.provider, d, best, channel, voucher, owed);
    L.JointServe(params, totalFunds, j, P.ProcessPayment, L.Sees(channel));
    var j1 := j.(provider := L.ServeTurn(j.provider, P.ProcessPayment, L.Sees(channel)));
    AsksAgainTurn(j1.provider, d.(fundsReceived := voucher), voucher, channel, owed);
    L.JointHandled(params, totalFunds, j1, L.Sees(channel));
    j' := j1.(provider := R.Next(L.HandlerTurn(j1.provider, L.Sees(channel)), R.Process));
    J.LeadsOn(j, j1, j');
  }

  /** Both requests for the rest are dropped. */
  lemma BothDropped(params: Params, totalFunds: int, j: J.Joint, responses: seq<DealResponse>, owed: nat, reply: C.Reply)
    returns (j': J.Joint)
    requires J.Reachable(params, totalFunds, j) && M.Idle(j.client) && j.client.deal.status.Finalizing?
    requires j.delivered == |responses|
    requires var request := DealResponse(FundsNeededLastPayment, owed);
             j.provider.responses == responses + [request] + [request]
    ensures J.Reachable(params, totalFunds, j') && J.Leads(j, j') && L.AllDelivered(j')
    ensures j'.client == j.client && j'.provider == j.provider
  {
    var j1 := RequestDropped(params, totalFunds, j, owed, reply);
    j' := RequestDropped(params, totalFunds, j1, owed, reply);
    J.LeadsOn(j, j1, j');
  }

  /** What the course and the channel are at the end. */
  function PaidChannel(params: Params, channel: P.Channel, total: uint64, n: uint64): P.Channel {
    AtEnd(channel, total).(lastVoucher := P.Payment(VoucherAmount(params, n)))
  }

  /** If the client pays for fewer bytes than there are, the deal is stranded. */
  lemma Strands(params: Params, totalFunds: int, j: J.Joint, channel: P.Channel, total: uint64,
                counts: seq<uint64>, reply: C.Reply) returns (j': J.Joint)
    requires Ending(params, totalFunds, j, channel, total) && Willing(reply)
    requires Rising(j.client.deal.totalReceived, counts) && LastCount(j.client.deal, counts) == total
    requires PaysFor(j.client.deal, counts) < total
    ensures Stranded(params, totalFunds, j', PaidChannel(params, channel, total, PaysFor(j.client.deal, counts)))
    ensures J.Leads(j, j') && j'.client == Course(j.client, Missing(params, j, total), counts, reply)
    ensures j'.client.deal.fundsSpent == VoucherAmount(params, PaysFor(j.client.deal, counts))
  {
    var n := PaysFor(j.client.deal, counts);
    var voucher, last := VoucherAmount(params, n), PaidChannel(params, channel, total, n);
    EndingFacts(params, totalFunds, j, channel, total);
    FirstReadyIsCount(j.client.deal, counts);
    VoucherMonotone(params, j.client.deal.bytesPaidFor, n);
    var owed := StillOwed(params, n, total);
    var j1 := CourseTaken(params, totalFunds, j, channel, total, counts, reply);
    var d := j.provider.deal.(status := FundsNeededLastPayment);
    var j2 := CreditedInPart(params, totalFunds, j1, d, j.provider.best, last, voucher, owed);
    j' := BothDropped(params, totalFunds, j2, j1.provider.responses, owed, reply);
    J.LeadsOn(j, j1, j2);
    J.LeadsOn(j, j2, j');
  }

  lemma StillOwed(params: Params, n: uint64, total: uint64) returns (owed: nat)
    requires n < total < INT64_LIMIT && params.pricePerByte > 0
    ensures owed == OutstandingBalance(params, VoucherAmount(params, n), total, true) > 0
  {
    FinalBillIsVoucher(params, VoucherAmount(params, n), total);
    VoucherMonotone(params, n, total);
    owed := OutstandingBalance(params, VoucherAmount(params, n), total, true);
  }

  /** If it pays for all of them, everything is settled and the report of completion is on its way. */
  lemma PaysAll(params: Params, totalFunds: int, j: J.Joint, channel: P.Channel, total: uint64,
                counts: seq<uint64>, reply: C.Reply) returns (j': J.Joint)
    requires Ending(params, totalFunds, j, channel, total) && Willing(reply)
    requires Rising(j.client.deal.totalReceived, counts) && LastCount(j.client.deal, counts) == total
    requires PaysFor(j.client.deal, counts) == total
    ensures L.Settling(params, totalFunds, j', VoucherAmount(params, total)) && J.Leads(j, j')
    ensures j'.client == Course(j.client, Missing(params, j, total), counts, reply)
  {
    var voucher, last := VoucherAmount(params, total), PaidChannel(params, channel, total, total);
    EndingFacts(params, totalFunds, j, channel, total);
    var j1 := CourseTaken(params, totalFunds, j, channel, total, counts, reply);
    var d := j.provider.deal.(status := FundsNeededLastPayment);
    ProviderCloses(d, j.provider.best, last, voucher);
    j' := L.LastCrediting(params, totalFunds, j1, d, j.provider.best, last, voucher);
    J.LeadsOn(j, j1, j');
  }

  /** Some list of counts after the request leads from `j` to a stranded deal. */
  ghost predicate StrandedBy(params: Params, totalFunds: int, j: J.Joint, channel: P.Channel, total: uint64,
                             counts: seq<uint64>, reply: C.Reply, j': J.Joint) {
    && Rising(j.client.deal.totalReceived, counts) && LastCount(j.client.deal, counts) == total
    && J.Leads(j, j') && j'.client == Course(j.client, Missing(params, j, total), counts, reply)
    && Stranded(params, totalFunds, j', PaidChannel(params, channel, total, PaysFor(j.client.deal, counts)))
  }

  lemma StrandedIsShort(params: Params, totalFunds: int, j: J.Joint, channel: P.Channel, total: uint64,
                        counts: seq<uint64>, reply: C.Reply, j': J.Joint)
    requires Ending(params, totalFunds, j, channel, total) && Willing(reply)
    requires StrandedBy(params, totalFunds, j, channel, total, counts, reply, j')
    ensures PaysFor(j.client.deal, counts) < total
  {
    var n := PaysFor(j.client.deal, counts);
    EndingFacts(params, totalFunds, j, channel, total);
    LastCourse(j.client, Missing(params, j, total), counts, reply);
    FinalBillIsVoucher(params, VoucherAmount(params, n), total);
    if n >= total {
      VoucherMonotone(params, total, n);
    }
  }

  /**
   Exactly when a transfer that begins to finalize with `total` bytes queued can be stranded by
   the progress counts that follow the last request: when bytes are still missing and some
   count below the total is beyond what is paid and not below the awaited interval.  In every
   other case the client pays for every byte (`PaysAll`).
   */
  lemma StrandsExactly(params: Params, totalFunds: int, j: J.Joint, channel: P.Channel, total: uint64, reply: C.Reply)
    requires Ending(params, totalFunds, j, channel, total) && Willing(reply)
    ensures var d := j.client.deal;
            (exists counts: seq<uint64>, j' :: StrandedBy(params, totalFunds, j, channel, total, counts, reply, j')) <==>
            d.totalReceived < total && d.bytesPaidFor + 1 < total && d.currentInterval < total
  {
    var d := j.client.deal;
    if counts: seq<uint64>, j' :| StrandedBy(params, totalFunds, j, channel, total, counts, reply, j') {
      StrandedIsShort(params, totalFunds, j, channel, total, counts, reply, j');
      FirstReadyIsCount(d, counts);
    }
    if d.totalReceived < total && d.bytesPaidFor + 1 < total && d.currentInterval < total {
      var counts := ShortCounts(d, total);
      var j' := Strands(params, totalFunds, j, channel, total, counts, reply);
      assert StrandedBy(params, totalFunds, j, channel, total, counts, reply, j');
    }
  }

  /** In every other case the client pays for every byte, whatever the counts. */
  lemma OtherwisePaysAll(d: C.ClientDeal, counts: seq<uint64>)
    requires Rising(d.totalReceived, counts) && d.bytesPaidFor < LastCount(d, counts)
    requires var total := LastCount(d, counts);
             d.totalReceived == total || d.bytesPaidFor + 1 >= total || d.currentInterval >= total
    ensures PaysFor(d, counts) == LastCount(d, counts)
  {
    if FirstReady(d, counts).Some? {
      FirstReadyIsCount(d, counts);
    }
  }

  // ---------------------------------------------------------------- an input

  /**
   A stop beyond the first boundary leaves the client waiting for a boundary it has passed, since
   the awaited interval advances by one boundary per payment.  A last request that then finds a
   few more bytes counted, but not all, strands the deal.
   */
  lemma LagStrands(params: Params, totalFunds: int, stop: uint64, counted: uint64, total: uint64, reply: C.Reply)
    returns (j': J.Joint, channel': P.Channel)
    requires params.pricePerByte > 0 && Tame(params) && totalFunds != 0 && L.Cooperative(reply)
    requires Lags(params, stop, counted) && counted < total < INT64_LIMIT
    ensures Stranded(params, totalFunds, j', channel') && channel'.queued == total
    ensures j'.client.deal.fundsSpent == VoucherAmount(params, counted)
  {
    var j, channel := Lagging(params, totalFunds, stop, counted, reply);
    CountedOnce(j.client.deal, total);
    j' := Strands(params, totalFunds, j, channel, total, [total], reply);
    channel' := PaidChannel(params, channel, total, counted);
  }

  /** One stop paid for, and a few more bytes counted. */
  lemma Lagging(params: Params, totalFunds: int, stop: uint64, counted: uint64, reply: C.Reply)
    returns (j: J.Joint, channel: P.Channel)
    requires params.pricePerByte > 0 && Tame(params) && totalFunds != 0 && L.Cooperative(reply)
    requires Lags(params, stop, counted) && counted < INT64_LIMIT
    ensures L.Serving(params, totalFunds, j, channel) && j.client.received == counted
    ensures j.client.deal.totalReceived == counted && Ready(j.client.deal, counted)
  {
    j, channel := L.DealOpens(params, totalFunds, reply);
    j := L.CountingRound(params, totalFunds, j, channel, stop, reply);
    ghost var d := j.client.deal;
    J.ClientReachable(params, totalFunds, j);
    ReachableFacts(params, totalFunds, j.client);
    j, channel := L.PayingRound(params, totalFunds, j, channel.(queued := stop), reply);
    assert L.Advanced(d, j.client.deal, stop);
    j := L.CountingRound(params, totalFunds, j, channel, counted, reply);
    channel := channel.(queued := counted);
  }

  /** The stop is past the first limit and boundary, and the count past the next boundary. */
  predicate Lags(params: Params, stop: uint64, counted: uint64) {
    && NextInterval(params, params.unsealPrice) <= stop && params.paymentInterval <= stop < counted
    && NextLoop(params, params.paymentInterval) <= counted
  }

  /**
   Intervals of ten bytes: after a stop at thirty-five bytes the client waits for the boundary
   at twenty and the provider's limit is forty.  The transfer ends at thirty-eight bytes; the
   last request finds thirty-six of them counted, and two stay unpaid.
   */
  lemma DealCanStrand(p: Params, reply: C.Reply) returns (j': J.Joint, channel': P.Channel)
    requires S.Ten(p) && L.Cooperative(reply)
    ensures Stranded(p, 1, j', channel') && channel'.queued == 38 < NextInterval(p, 35)
    ensures j'.client.deal.fundsSpent == 36 && OutstandingBalance(p, 36, 38, true) == 2
  {
    TenLags(p, 35, 36);
    TenPrices(p, 36, 38);
    S.TenLimit(p, 35, 3);
    j', channel' := LagStrands(p, 1, 35, 36, 38, reply);
  }

  lemma TenLags(p: Params, stop: uint64, counted: uint64)
    requires S.Ten(p) && stop == 35 && counted == 36
    ensures Tame(p) && Lags(p, stop, counted)
  {
    S.TenLimit(p, 0, 0);
    S.TenLoops(p, 10, 1);
  }

  /** With the counted bytes ready for payment, one more count is enough. */
  lemma CountedOnce(d: C.ClientDeal, total: uint64)
    requires Ready(d, d.totalReceived) && d.totalReceived <= total < INT64_LIMIT
    ensures Rising(d.totalReceived, [total]) && LastCount(d, [total]) == total && PaysFor(d, [total]) == d.totalReceived
  {
    assert [total][..|[total]| - 1] == [];
    assert FirstReady(d, []) == Some(d.totalReceived);
  }

  lemma TenPrices(p: Params, paid: uint64, total: uint64)
    requires S.Ten(p) && paid == 36 && total == 38
    ensures VoucherAmount(p, paid) == 36 && OutstandingBalance(p, paid, total, true) == 2
  {
    S.TenVoucher(p, paid);
    S.TenVoucher(p, total);
    BalanceIsShortfall(p, paid, total, true);
  }
}
