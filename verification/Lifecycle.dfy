/**
 Whole deals: how far the two machines get together when node, stores and transfer layer
 cooperate.  Every statement is about joint states that an interleaving of steps reaches.
 The client's and the provider's modules go by the names `Exchange` gives them.
 */
module Lifecycle {
  import opened Words
  import opened Wrappers
  import opened Intervals
  import opened Billing
  import opened Deals
  import R = ProviderRuns
  import opened Exchange
  import J = JointRuns

  /** A node that grants everything: channel, lane, vouchers and stores. */
  predicate Cooperative(r: C.Reply) {
    Willing(r) && r.transfer.Some? && r.channel.ChannelExists? && r.lane.Some?
  }

  // ---------------------------------------------------------------- turns in a joint run

  lemma JointTurn(params: Params, totalFunds: int, j: J.Joint, reply: C.Reply)
    requires J.Reachable(params, totalFunds, j)
    ensures var j' := j.(client := M.Turn(j.client, reply));
            J.Reachable(params, totalFunds, j') && J.Leads(j, j')
  {
    var j1 := j.(client := M.Next(j.client, M.Process));
    J.ClientSteps(params, totalFunds, j, M.Process);
    J.ClientSteps(params, totalFunds, j1, M.Finish(reply));
    J.LeadsOn(j, j1, j.(client := M.Turn(j.client, reply)));
  }

  /** The transfer layer reports something. */
  lemma JointDelivery(params: Params, totalFunds: int, j: J.Joint, e: C.ClientEvent, reply: C.Reply)
    requires J.Reachable(params, totalFunds, j) && !J.FromResponse(e)
    ensures var j' := j.(client := M.Turn(M.Next(j.client, M.Deliver(e)), reply));
            J.Reachable(params, totalFunds, j') && J.Leads(j, j')
  {
    var j1 := j.(client := M.Next(j.client, M.Deliver(e)));
    J.ClientSteps(params, totalFunds, j, M.Deliver(e));
    JointTurn(params, totalFunds, j1, reply);
    J.LeadsOn(j, j1, j1.(client := M.Turn(j1.client, reply)));
  }

  /** The client is handed the provider's next response. */
  lemma JointAnswer(params: Params, totalFunds: int, j: J.Joint, e: C.ClientEvent, reply: C.Reply)
    requires J.Reachable(params, totalFunds, j) && j.delivered < |j.provider.responses| && e == J.NextAnswer(j)
    ensures var j' := j.(client := M.Turn(M.Next(j.client, M.Deliver(e)), reply), delivered := j.delivered + 1);
            J.Reachable(params, totalFunds, j') && J.Leads(j, j')
  {
    var j1 := j.(client := M.Next(j.client, M.Deliver(e)), delivered := j.delivered + 1);
    J.Answers(params, totalFunds, j);
    JointTurn(params, totalFunds, j1, reply);
    J.LeadsOn(j, j1, j1.(client := M.Turn(j1.client, reply)));
  }

  /** The provider takes an event, runs the handler it leads to, and takes what the handler triggered. */
  function ServeTurn(p: R.Provider, e: P.ProviderEvent, reply: R.Reply): R.Provider {
    R.Next(HandlerTurn(R.Next(R.Next(p, R.Deliver(e)), R.Process), reply), R.Process)
  }

  function HandlerTurn(p: R.Provider, reply: R.Reply): R.Provider {
    R.Next(R.Next(p, R.Begin), R.Finish(reply))
  }

  /** The reply shows the channel as it is. */
  predicate Truthful(reply: R.Reply, c: M.Client) {
    reply.channel.Some? ==> J.Shows(reply.channel.value, c)
  }

  lemma JointHandler(params: Params, totalFunds: int, j: J.Joint, reply: R.Reply)
    requires J.Reachable(params, totalFunds, j) && Truthful(reply, j.client) && j.provider.due
    ensures var j' := j.(provider := HandlerTurn(j.provider, reply));
            J.Reachable(params, totalFunds, j') && J.Leads(j, j')
  {
    var j1 := j.(provider := R.Next(j.provider, R.Begin));
    J.ProviderSteps(params, totalFunds, j, R.Begin);
    J.ProviderSteps(params, totalFunds, j1, R.Finish(reply));
    J.LeadsOn(j, j1, j.(provider := HandlerTurn(j.provider, reply)));
  }

  /** A handler that is due runs, and what it triggers is taken. */
  lemma JointHandled(params: Params, totalFunds: int, j: J.Joint, reply: R.Reply)
    requires J.Reachable(params, totalFunds, j) && Truthful(reply, j.client) && j.provider.due
    ensures var j' := j.(provider := R.Next(HandlerTurn(j.provider, reply), R.Process));
            J.Reachable(params, totalFunds, j') && J.Leads(j, j')
  {
    var j1 := j.(provider := HandlerTurn(j.provider, reply));
    JointHandler(params, totalFunds, j, reply);
    J.ProviderSteps(params, totalFunds, j1, R.Process);
    J.LeadsOn(j, j1, j1.(provider := R.Next(j1.provider, R.Process)));
  }

  lemma JointServe(params: Params, totalFunds: int, j: J.Joint, e: P.ProviderEvent, reply: R.Reply)
    requires J.Reachable(params, totalFunds, j) && Truthful(reply, j.client) && Roused(j.provider, e)
    ensures var j' := j.(provider := ServeTurn(j.provider, e, reply));
            J.Reachable(params, totalFunds, j') && J.Leads(j, j')
  {
    var j1 := j.(provider := R.Next(j.provider, R.Deliver(e)));
    var j2 := j.(provider := R.Next(j1.provider, R.Process));
    J.ProviderSteps(params, totalFunds, j, R.Deliver(e));
    J.ProviderSteps(params, totalFunds, j1, R.Process);
    J.LeadsOn(j, j1, j2);
    JointHandled(params, totalFunds, j2, reply);
    J.LeadsOn(j, j2, j.(provider := ServeTurn(j.provider, e, reply)));
  }

  /** The provider is idle, and the event makes it run a handler. */
  predicate Roused(p: R.Provider, e: P.ProviderEvent) {
    !p.running && p.queue == [] && R.External(e) && R.Rouses(p.deal.status, e)
  }

  /** The provider has nothing to do; its deal, the best voucher on its lane and the responses it has sent. */
  predicate Waiting(p: R.Provider, d: P.ProviderDeal, best: nat, responses: seq<DealResponse>) {
    !p.running && p.queue == [] && p.deal == d && p.best == best && p.responses == responses
  }

  /** What the provider's environment answers with the given channel, everything else succeeding. */
  function Sees(channel: P.Channel): R.Reply {
    R.Reply(Some(channel), true, true, true, true, true, true)
  }

  /** Everything succeeds, and the channel is not looked at. */
  const FINE := R.Reply(None, true, true, true, true, true, true)

  /** The deal after the events a handler triggered. */
  function AfterAll(d: P.ProviderDeal, events: seq<P.ProviderEvent>): P.ProviderDeal {
    if events == [] then d else P.Apply(d, events[0])
  }

  /** What a handler triggered asks for another handler. */
  predicate Again(d: P.ProviderDeal, events: seq<P.ProviderEvent>) {
    events != [] && R.Rouses(d.status, events[0])
  }

  /** An event that leaves the provider needing funds makes it bill the deal, respond and record the outcome. */
  lemma FundingTurn(p: R.Provider, d: P.ProviderDeal, best: nat, e: P.ProviderEvent, channel: P.Channel)
    requires Waiting(p, d, best, p.responses) && R.External(e)
    requires P.NeedsFunds(P.Apply(d, e).status) && P.Apply(d, e).channelID.Some?
    ensures var f := P.UpdateFunding(P.Apply(d, e), best, channel, true);
            && Waiting(ServeTurn(p, e, Sees(channel)), AfterAll(P.Apply(d, e), f.triggered), best + f.received,
                       p.responses + R.Sent(f))
            && ServeTurn(p, e, Sees(channel)).due == Again(P.Apply(d, e), f.triggered)
  {
    var d1 := P.Apply(d, e);
    var f := P.UpdateFunding(d1, best, channel, true);
    R.FundingIsSound(d1, best, channel, true);
    var p2 := R.Next(R.Next(p, R.Deliver(e)), R.Process);
    assert Waiting(p2, d1, best, p.responses);
    FundedTurn(p2, d1, best, channel, f);
  }

  lemma FundedTurn(p: R.Provider, d: P.ProviderDeal, best: nat, channel: P.Channel, f: P.Funding)
    requires Waiting(p, d, best, p.responses) && P.NeedsFunds(d.status) && d.channelID.Some?
    requires f == P.UpdateFunding(d, best, channel, true) && |f.triggered| <= 1
    ensures var p' := R.Next(HandlerTurn(p, Sees(channel)), R.Process);
            && Waiting(p', AfterAll(d, f.triggered), best + f.received, p.responses + R.Sent(f))
            && p'.due == Again(d, f.triggered)
  {
    var p' := HandlerTurn(p, Sees(channel));
    assert p' == R.FundedBy(p.(running := true, due := false), f, channel, true);
    assert p'.queue == f.triggered;
  }

  /** Any other event runs a handler that triggers at most one event and sends nothing. */
  lemma OtherTurn(p: R.Provider, d: P.ProviderDeal, best: nat, e: P.ProviderEvent, reply: R.Reply)
    requires Waiting(p, d, best, p.responses) && R.External(e) && !P.NeedsFunds(P.Apply(d, e).status)
    ensures Waiting(ServeTurn(p, e, reply),
                    AfterAll(P.Apply(d, e), R.OtherEvents(P.Apply(d, e), reply)), best, p.responses)
  {
    var d1 := P.Apply(d, e);
    var p2 := R.Next(R.Next(p, R.Deliver(e)), R.Process);
    assert Waiting(p2, d1, best, p.responses);
    OtherHandler(p2, d1, best, reply);
  }

  lemma OtherHandler(p: R.Provider, d: P.ProviderDeal, best: nat, reply: R.Reply)
    requires Waiting(p, d, best, p.responses) && !P.NeedsFunds(d.status)
    ensures Waiting(R.Next(HandlerTurn(p, reply), R.Process), AfterAll(d, R.OtherEvents(d, reply)), best, p.responses)
  {
    var p' := HandlerTurn(p, reply);
    assert p'.queue == R.OtherEvents(d, reply);
  }

  // ---------------------------------------------------------------- one interval after the other

  /** The transfer runs: both sides idle and in step, nothing asked for, unsealing paid. */
  ghost predicate Serving(params: Params, totalFunds: int, j: J.Joint, channel: P.Channel) {
    && J.Reachable(params, totalFunds, j)
    && M.Idle(j.client) && j.client.deal.status.Ongoing? && j.client.deal.paymentRequested <= 0
    && !j.client.deal.allBlocksReceived && j.client.deal.waitMsgCID.None? && j.client.received == j.client.deal.totalReceived
    && Resting(j.provider) && AllDelivered(j) && j.provider.deal.channelID.Some?
    && (j.provider.deal.status.Unsealed? || j.provider.deal.status.Ongoing?)
    && InStep(j.client.deal, j.provider.deal, j.provider.best, channel)
    && j.provider.best >= params.unsealPrice && !channel.inFinalization && J.Shows(channel, j.client)
  }

  predicate Resting(p: R.Provider) {
    Waiting(p, p.deal, p.best, p.responses)
  }

  /** No response is on its way. */
  predicate AllDelivered(j: J.Joint) {
    j.delivered == |j.provider.responses|
  }

  /** The client counts the bytes that have arrived. */
  lemma CountingTurn(params: Params, totalFunds: int, c: M.Client, n: uint64, reply: C.Reply)
    requires M.Reachable(params, totalFunds, c) && M.Idle(c) && c.deal.status.Ongoing? && c.deal.paymentRequested <= 0
    requires c.received <= n < INT64_LIMIT
    ensures var c' := M.Turn(M.Next(c, M.Deliver(C.BlocksReceived(n))), reply);
            && M.Idle(c') && c'.deal == c.deal.(totalReceived := n) && c'.received == n && c'.vouchers == c.vouchers
  {
    GoesOn(c.deal.(totalReceived := n), reply);
    var c' := M.Receive(params, totalFunds, c, c.deal, C.BlocksReceived(n), reply);
  }

  /** The provider reaches its limit and asks, leaving its ledger as it was. */
  lemma StallingTurn(p: R.Provider, channel: P.Channel, request: DealResponse)
    requires Resting(p) && p.deal.channelID.Some? && (p.deal.status.Unsealed? || p.deal.status.Ongoing?)
    requires P.UpdateFunding(p.deal.(status := FundsNeeded), p.best, channel, true).triggered == []
    requires P.UpdateFunding(p.deal.(status := FundsNeeded), p.best, channel, true).result.response == Some(request)
    ensures Waiting(ServeTurn(p, P.PaymentRequested, Sees(channel)), p.deal.(status := FundsNeeded), p.best,
                    p.responses + [request])
    ensures !ServeTurn(p, P.PaymentRequested, Sees(channel)).due
  {
    var d := p.deal.(status := FundsNeeded);
    assert P.Apply(p.deal, P.PaymentRequested) == d;
    R.FundingIsSound(d, p.best, channel, true);
    FundingTurn(p, p.deal, p.best, P.PaymentRequested, channel);
  }

  /** The provider is told of a new voucher and resumes. */
  lemma ResumingTurn(p: R.Provider, d: P.ProviderDeal, best: nat, channel: P.Channel, voucher: nat)
    requires Waiting(p, d, best, p.responses) && d.status.FundsNeeded? && d.channelID.Some? && voucher >= best
    requires channel.lastVoucher == P.Payment(voucher) && Resumed(d, best, channel, voucher)
    ensures Waiting(ServeTurn(p, P.ProcessPayment, Sees(channel)),
                    d.(status := Ongoing, fundsReceived := voucher), voucher, p.responses)
  {
    assert P.Apply(d, P.ProcessPayment) == d;
    assert channel.(lastVoucher := P.Payment(voucher)) == channel;
    FundingTurn(p, d, best, P.ProcessPayment, channel);
    R.FundingIsSound(d, best, channel, true);
  }

  lemma JointPaying(params: Params, totalFunds: int, j: J.Joint, request: C.ClientEvent, reply: C.Reply)
    requires J.Reachable(params, totalFunds, j) && j.delivered < |j.provider.responses| && request == J.NextAnswer(j)
    ensures J.Reachable(params, totalFunds,
                        j.(client := PayingClient(j.client, request, reply), delivered := j.delivered + 1))
  {
    var c1 := M.Turn(M.Next(j.client, M.Deliver(request)), reply);
    var j1 := j.(client := c1, delivered := j.delivered + 1);
    JointAnswer(params, totalFunds, j, request, reply);
    JointTurn(params, totalFunds, j1, reply);
    JointTurn(params, totalFunds, j1.(client := M.Turn(c1, reply)), reply);
  }

  /** With the bytes counted and the limit reached, the two sides settle and go on. */
  lemma PayingRound(params: Params, totalFunds: int, j: J.Joint, channel: P.Channel, reply: C.Reply)
    returns (j': J.Joint, channel': P.Channel)
    requires Serving(params, totalFunds, j, channel) && params.pricePerByte > 0 && Tame(params)
    requires ClientPointers.FreeIfUnfunded(params, totalFunds) && Willing(reply)
    requires channel.queued >= NextInterval(params, j.provider.best)
    ensures Serving(params, totalFunds, j', channel')
    ensures j'.client.deal.totalReceived == channel.queued && j'.provider.best == VoucherAmount(params, channel.queued)
    ensures j'.client.vouchers == j.client.vouchers + [VoucherAmount(params, channel.queued)]
    ensures j'.client.deal.paymentRequested + j'.provider.best == j.client.deal.paymentRequested + j.provider.best +
            OutstandingBalance(params, j.provider.best, channel.queued, false)
    ensures Advanced(j.client.deal, j'.client.deal, channel.queued)
  {
    var d, best := j.provider.deal.(status := FundsNeeded), j.provider.best;
    J.ClientReachable(params, totalFunds, j);
    var request, voucher := NoPaymentStall(params, totalFunds, j.client, d, best, channel, reply);
    var paid := PayingClient(j.client, ClientEventForResponse(request), reply);
    ReachableFacts(params, totalFunds, j.client);
    ClientLedger.RecordedCounters(j.client.deal, channel.queued);
    j' := Asking(params, totalFunds, j, channel, request);
    JointPaying(params, totalFunds, j', ClientEventForResponse(request), reply);
    j' := j'.(client := paid, delivered := j.delivered + 1);
    channel' := channel.(lastVoucher := P.Payment(voucher));
    assert Resumed(d, best, channel', voucher);
    j' := Crediting(params, totalFunds, j', d, best, channel', voucher);
  }

  /** With `n` bytes paid for, the awaited interval has advanced by at most one boundary. */
  predicate Advanced(d: C.ClientDeal, d': C.ClientDeal, n: uint64) {
    && d'.bytesPaidFor == n
    && d'.currentInterval == if n >= d.currentInterval then NextLoop(d.params, d.currentInterval) else d.currentInterval
  }

  /** The provider stops at its limit and asks. */
  lemma Asking(params: Params, totalFunds: int, j: J.Joint, channel: P.Channel, request: DealResponse) returns (j': J.Joint)
    requires Serving(params, totalFunds, j, channel)
    requires P.UpdateFunding(j.provider.deal.(status := FundsNeeded), j.provider.best, channel, true).triggered == []
    requires P.UpdateFunding(j.provider.deal.(status := FundsNeeded), j.provider.best, channel, true).result.response == Some(request)
    ensures J.Reachable(params, totalFunds, j') && J.Leads(j, j') && j'.client == j.client && j'.delivered == j.delivered
    ensures Waiting(j'.provider, j.provider.deal.(status := FundsNeeded), j.provider.best, j.provider.responses + [request])
    ensures !j'.provider.due
  {
    StallingTurn(j.provider, channel, request);
    LimitReached(params, totalFunds, j, channel);
    j' := j.(provider := ServeTurn(j.provider, P.PaymentRequested, Sees(channel)));
  }

  /** The provider is told of a voucher while it needs funds. */
  lemma NewVoucher(params: Params, totalFunds: int, j: J.Joint, channel: P.Channel)
    requires J.Reachable(params, totalFunds, j) && Resting(j.provider) && P.NeedsFunds(j.provider.deal.status)
    requires J.Shows(channel, j.client)
    ensures var j' := j.(provider := ServeTurn(j.provider, P.ProcessPayment, Sees(channel)));
            J.Reachable(params, totalFunds, j') && J.Leads(j, j')
  {
    JointServe(params, totalFunds, j, P.ProcessPayment, Sees(channel));
  }

  /** The provider reaches its limit. */
  lemma LimitReached(params: Params, totalFunds: int, j: J.Joint, channel: P.Channel)
    requires Serving(params, totalFunds, j, channel)
    ensures var j' := j.(provider := ServeTurn(j.provider, P.PaymentRequested, Sees(channel)));
            J.Reachable(params, totalFunds, j') && J.Leads(j, j')
  {
    JointServe(params, totalFunds, j, P.PaymentRequested, Sees(channel));
  }

  /** The provider finds a new voucher on the channel and resumes. */
  lemma Crediting(params: Params, totalFunds: int, j: J.Joint, d: P.ProviderDeal, best: nat, channel: P.Channel, voucher: nat)
    returns (j': J.Joint)
    requires J.Reachable(params, totalFunds, j) && Waiting(j.provider, d, best, j.provider.responses)
    requires d.status.FundsNeeded? && d.channelID.Some? && voucher >= best && Resumed(d, best, channel, voucher)
    requires channel.lastVoucher == P.Payment(voucher) && J.Shows(channel, j.client)
    ensures J.Reachable(params, totalFunds, j') && j'.client == j.client && j'.delivered == j.delivered
    ensures Waiting(j'.provider, d.(status := Ongoing, fundsReceived := voucher), voucher, j.provider.responses)
  {
    ResumingTurn(j.provider, d, best, channel, voucher);
    NewVoucher(params, totalFunds, j, channel);
    j' := j.(provider := ServeTurn(j.provider, P.ProcessPayment, Sees(channel)));
  }

  /** The client has counted `n` bytes and the provider has queued them. */
  lemma CountingRound(params: Params, totalFunds: int, j: J.Joint, channel: P.Channel, n: uint64, reply: C.Reply)
    returns (j': J.Joint)
    requires Serving(params, totalFunds, j, channel) && j.client.received <= n < INT64_LIMIT
    ensures Serving(params, totalFunds, j', channel.(queued := n))
    ensures Beside(j, j') && j'.client.vouchers == j.client.vouchers && j'.client.received == n
    ensures j'.client.deal == j.client.deal.(totalReceived := n)
  {
    J.ClientReachable(params, totalFunds, j);
    CountingTurn(params, totalFunds, j.client, n, reply);
    JointDelivery(params, totalFunds, j, C.BlocksReceived(n), reply);
    j' := j.(client := M.Turn(M.Next(j.client, M.Deliver(C.BlocksReceived(n))), reply));
  }

  /** Byte totals at which the provider stops: each at or beyond the limit the one before has bought. */
  predicate Schedule(params: Params, received: nat, funds: nat, stops: seq<uint64>)
    decreases |stops|
  {
    stops == [] ||
    (received <= stops[0] < INT64_LIMIT && NextInterval(params, funds) <= stops[0] &&
     Schedule(params, stops[0], VoucherAmount(params, stops[0]), stops[1..]))
  }

  function LastStop(stops: seq<uint64>): uint64 {
    if stops == [] then 0 else stops[|stops| - 1]
  }

  /** The prices of the totals at the stops. */
  function Prices(params: Params, stops: seq<uint64>): seq<int> {
    if stops == [] then [] else [VoucherAmount(params, stops[0])] + Prices(params, stops[1..])
  }

  /**
   The transfer goes on for as many intervals as the data takes: at every stop the client
   pays exactly the price of all bytes so far, and both sides are in step again.
   */
  lemma {:induction false} TransferGoesOn(params: Params, totalFunds: int, j: J.Joint, channel: P.Channel,
                                          stops: seq<uint64>, reply: C.Reply)
    returns (j': J.Joint, channel': P.Channel)
    requires Serving(params, totalFunds, j, channel) && params.pricePerByte > 0 && Tame(params)
    requires ClientPointers.FreeIfUnfunded(params, totalFunds) && Willing(reply)
    requires Schedule(params, j.client.received, j.provider.best, stops)
    ensures Serving(params, totalFunds, j', channel') && Went(params, j, stops, j')
    decreases |stops|
  {
    if stops == [] {
      j', channel' := j, channel;
    } else {
      FirstStop(params, j.client.received, j.provider.best, stops);
      var j1, channel1 := OneStop(params, totalFunds, j, channel, stops[0], reply);
      j', channel' := TransferGoesOn(params, totalFunds, j1, channel1, stops[1..], reply);
      WentOn(params, j, j1, stops, j');
    }
  }

  /** Every stop has been paid for, and nothing else. */
  predicate Went(params: Params, j: J.Joint, stops: seq<uint64>, j': J.Joint) {
    && j'.client.vouchers == j.client.vouchers + Prices(params, stops)
    && (stops != [] ==>
          var n := stops[|stops| - 1];
          j'.client.received == n && j'.provider.best == VoucherAmount(params, n))
    && (stops == [] ==> j' == j)
  }

  lemma FirstStop(params: Params, received: nat, funds: nat, stops: seq<uint64>)
    requires stops != [] && Schedule(params, received, funds, stops)
    ensures received <= stops[0] < INT64_LIMIT && NextInterval(params, funds) <= stops[0]
    ensures Schedule(params, stops[0], VoucherAmount(params, stops[0]), stops[1..])
  {}

  lemma WentOn(params: Params, j: J.Joint, j1: J.Joint, stops: seq<uint64>, j': J.Joint)
    requires stops != [] && Went(params, j1, stops[1..], j')
    requires j1.client.received == stops[0] && j1.provider.best == VoucherAmount(params, stops[0])
    requires j1.client.vouchers == j.client.vouchers + [VoucherAmount(params, stops[0])]
    ensures Went(params, j, stops, j')
  {
    var first, rest := VoucherAmount(params, stops[0]), Prices(params, stops[1..]);
    assert j.client.vouchers + [first] + rest == j.client.vouchers + ([first] + rest);
  }

  /** The provider stops at `n` bytes and the client pays for them. */
  lemma OneStop(params: Params, totalFunds: int, j: J.Joint, channel: P.Channel, n: uint64, reply: C.Reply)
    returns (j': J.Joint, channel': P.Channel)
    requires Serving(params, totalFunds, j, channel) && params.pricePerByte > 0 && Tame(params)
    requires ClientPointers.FreeIfUnfunded(params, totalFunds) && Willing(reply)
    requires j.client.received <= n < INT64_LIMIT && NextInterval(params, j.provider.best) <= n
    ensures Serving(params, totalFunds, j', channel')
    ensures j'.client.received == n && j'.provider.best == VoucherAmount(params, n)
    ensures j'.client.vouchers == j.client.vouchers + [VoucherAmount(params, n)]
  {
    var counted := CountingRound(params, totalFunds, j, channel, n, reply);
    j', channel' := PayingRound(params, totalFunds, counted, channel.(queued := n), reply);
  }

  // ---------------------------------------------------------------- single turns, lifted

  /** The client, between turns of a joint run. */
  ghost predicate Between(params: Params, totalFunds: int, j: J.Joint, d: C.ClientDeal, queue: seq<C.ClientEvent>) {
    J.Reachable(params, totalFunds, j) && M.Between(params, totalFunds, j.client, d, queue)
  }

  /** Only the client has moved, and no response was handed over. */
  predicate Beside(j: J.Joint, j': J.Joint) {
    j'.provider == j.provider && j'.delivered == j.delivered
  }

  lemma AtRest(params: Params, totalFunds: int, j: J.Joint)
    requires J.Reachable(params, totalFunds, j) && !j.client.running && !j.client.panicked
    ensures Between(params, totalFunds, j, j.client.deal, j.client.queue)
  {
    J.ClientReachable(params, totalFunds, j);
  }

  lemma Take(params: Params, totalFunds: int, j: J.Joint, d: C.ClientDeal, e: C.ClientEvent, reply: C.Reply)
    returns (j': J.Joint)
    requires Between(params, totalFunds, j, d, [e])
    requires !C.ActPanics(d, e) && C.Apply(d, e).runs && !C.Handle(C.Apply(d, e).deal, reply).panics
    ensures var o := C.Handle(C.Apply(d, e).deal, reply);
            && Between(params, totalFunds, j', C.Apply(d, e).deal, o.triggered) && Beside(j, j')
            && j'.client.received == j.client.received && j'.client.vouchers == j.client.vouchers + M.Made(o)
            && J.Leads(j, j')
  {
    var c' := M.Take(params, totalFunds, j.client, d, e, reply);
    JointTurn(params, totalFunds, j, reply);
    j' := j.(client := c');
  }

  lemma Receive(params: Params, totalFunds: int, j: J.Joint, d: C.ClientDeal, e: C.ClientEvent, reply: C.Reply)
    returns (j': J.Joint)
    requires Between(params, totalFunds, j, d, []) && M.External(e) && !e.BlocksReceived? && !J.FromResponse(e)
    requires !C.ActPanics(d, e) && C.Apply(d, e).runs && !C.Handle(C.Apply(d, e).deal, reply).panics
    ensures var o := C.Handle(C.Apply(d, e).deal, reply);
            && Between(params, totalFunds, j', C.Apply(d, e).deal, o.triggered) && Beside(j, j')
            && j'.client.received == j.client.received && j'.client.vouchers == j.client.vouchers + M.Made(o)
            && J.Leads(j, j')
  {
    var c' := M.Receive(params, totalFunds, j.client, d, e, reply);
    JointDelivery(params, totalFunds, j, e, reply);
    j' := j.(client := c');
  }

  /** The client takes up the provider's next response. */
  lemma ReceiveAnswer(params: Params, totalFunds: int, j: J.Joint, d: C.ClientDeal, e: C.ClientEvent, reply: C.Reply)
    returns (j': J.Joint)
    requires Between(params, totalFunds, j, d, []) && j.delivered < |j.provider.responses| && e == J.NextAnswer(j)
    requires !C.ActPanics(d, e) && C.Apply(d, e).runs && !C.Handle(C.Apply(d, e).deal, reply).panics
    ensures var o := C.Handle(C.Apply(d, e).deal, reply);
            && Between(params, totalFunds, j', C.Apply(d, e).deal, o.triggered)
            && j'.provider == j.provider && j'.delivered == j.delivered + 1
            && j'.client.received == j.client.received && j'.client.vouchers == j.client.vouchers + M.Made(o)
            && J.Leads(j, j')
  {
    J.ResponsesAreAnswers(j);
    var c' := M.Receive(params, totalFunds, j.client, d, e, reply);
    JointAnswer(params, totalFunds, j, e, reply);
    j' := j.(client := c', delivered := j.delivered + 1);
  }

  // ---------------------------------------------------------------- opening a deal

  /** The client's deal on its way to the transfer. */
  function Waits(params: Params, totalFunds: int, reply: C.Reply): C.ClientDeal
    requires Cooperative(reply)
  {
    C.NewDeal(params, totalFunds).(status := WaitForAcceptance, channelID := reply.transfer)
  }

  function Owing(params: Params, totalFunds: int, reply: C.Reply): C.ClientDeal
    requires Cooperative(reply)
  {
    Waits(params, totalFunds, reply).(status := Accepted, paymentRequested := params.unsealPrice)
  }

  function Channelled(params: Params, totalFunds: int, reply: C.Reply): C.ClientDeal
    requires Cooperative(reply)
  {
    Owing(params, totalFunds, reply)
      .(status := Ongoing, paymentInfo := Some(C.PaymentInfo(reply.channel.payCh, reply.lane.value)))
  }

  /** The event that the answer to an accepted proposal causes at the client. */
  function Answer(params: Params): C.ClientEvent {
    ClientEventForResponse(P.ValidatePull(params).response.value)
  }

  lemma AnswerAsksUnsealPrice(params: Params)
    ensures params.unsealPrice > 0 ==> Answer(params) == C.UnsealPaymentRequested(params.unsealPrice)
    ensures params.unsealPrice == 0 ==> Answer(params) == C.DealAccepted
  {}

  lemma Proposing(params: Params, totalFunds: int, reply: C.Reply) returns (j: J.Joint)
    requires Cooperative(reply)
    ensures Between(params, totalFunds, j, Waits(params, totalFunds, reply), [])
    ensures j.provider == R.Start(params) && j.delivered == 0 && j.client.received == 0 && j.client.vouchers == []
  {
    J.BeginReachable(params, totalFunds);
    M.StartReachable(params, totalFunds);
    j := J.Begin(params, totalFunds);
    j := Take(params, totalFunds, j, C.NewDeal(params, totalFunds), C.Open, reply);
    j := Take(params, totalFunds, j, C.NewDeal(params, totalFunds), C.DealProposed(reply.transfer.value), reply);
  }

  lemma Answered(params: Params, totalFunds: int, j: J.Joint, reply: C.Reply) returns (j': J.Joint)
    requires Cooperative(reply) && totalFunds != 0 && Between(params, totalFunds, j, Waits(params, totalFunds, reply), [])
    requires j.delivered == 0 && j.provider.responses == [P.ValidatePull(params).response.value]
    ensures Between(params, totalFunds, j', Owing(params, totalFunds, reply), [C.PaymentChannelReady(reply.channel.payCh)])
    ensures j'.provider == j.provider && AllDelivered(j')
    ensures j'.client.received == j.client.received && j'.client.vouchers == j.client.vouchers
  {
    AnswerAsksUnsealPrice(params);
    j' := ReceiveAnswer(params, totalFunds, j, Waits(params, totalFunds, reply), Answer(params), reply);
  }

  lemma Channelling(params: Params, totalFunds: int, j: J.Joint, reply: C.Reply) returns (j': J.Joint)
    requires Cooperative(reply)
    requires Between(params, totalFunds, j, Owing(params, totalFunds, reply), [C.PaymentChannelReady(reply.channel.payCh)])
    ensures Between(params, totalFunds, j', Channelled(params, totalFunds, reply),
                    if params.unsealPrice > 0 then [C.PaymentRequested(0)] else [])
    ensures Beside(j, j') && j'.client.received == j.client.received && j'.client.vouchers == j.client.vouchers
  {
    var d := Laneless(params, totalFunds, reply);
    j' := Take(params, totalFunds, j, Owing(params, totalFunds, reply), C.PaymentChannelReady(reply.channel.payCh), reply);
    j' := LaneTurn(params, totalFunds, j', d, reply);
  }

  /** The payment channel is there and its lane is being allocated. */
  function Laneless(params: Params, totalFunds: int, reply: C.Reply): C.ClientDeal
    requires Cooperative(reply)
  {
    Owing(params, totalFunds, reply)
      .(status := PaymentChannelAllocatingLane, paymentInfo := Some(C.PaymentInfo(reply.channel.payCh, 0)))
  }

  lemma LaneTurn(params: Params, totalFunds: int, j: J.Joint, d: C.ClientDeal, reply: C.Reply) returns (j': J.Joint)
    requires Cooperative(reply) && d.status.PaymentChannelAllocatingLane? && d.paymentInfo.Some? && !d.lastPaymentRequested
    requires Between(params, totalFunds, j, d, [C.LaneAllocated(reply.lane.value)])
    ensures var d' := d.(status := Ongoing, paymentInfo := Some(d.paymentInfo.value.(lane := reply.lane.value)));
            Between(params, totalFunds, j', d', if d.paymentRequested > 0 then [C.PaymentRequested(0)] else [])
    ensures Beside(j, j') && j'.client.received == j.client.received && j'.client.vouchers == j.client.vouchers
  {
    j' := Take(params, totalFunds, j, d, C.LaneAllocated(reply.lane.value), reply);
  }

  /** The client pays for unsealing. */
  lemma PayingUnseal(params: Params, totalFunds: int, j: J.Joint, reply: C.Reply) returns (j': J.Joint)
    requires Cooperative(reply) && params.unsealPrice > 0
    requires Between(params, totalFunds, j, Channelled(params, totalFunds, reply), [C.PaymentRequested(0)])
    ensures Between(params, totalFunds, j', Unsealed(params, totalFunds, reply), [])
    ensures Beside(j, j') && j'.client.received == j.client.received
    ensures j'.client.vouchers == j.client.vouchers + [params.unsealPrice]
  {
    var d := Channelled(params, totalFunds, reply);
    j' := DecidingTurn(params, totalFunds, j, d, reply);
    j' := VoucherTurn(params, totalFunds, j', d.(status := FundsNeeded), reply);
    j' := RecordingTurn(params, totalFunds, j', d.(status := DealStatus.SendFunds), reply);
  }

  lemma DecidingTurn(params: Params, totalFunds: int, j: J.Joint, d: C.ClientDeal, reply: C.Reply) returns (j': J.Joint)
    requires Between(params, totalFunds, j, d, [C.PaymentRequested(0)])
    requires d.status.Ongoing? && d.unsealFundsPaid < d.params.unsealPrice
    ensures Between(params, totalFunds, j', d.(status := FundsNeeded), [C.ClientEvent.SendFunds])
    ensures Beside(j, j') && j'.client.received == j.client.received && j'.client.vouchers == j.client.vouchers
  {
    j' := Take(params, totalFunds, j, d, C.PaymentRequested(0), reply);
  }

  lemma VoucherTurn(params: Params, totalFunds: int, j: J.Joint, d: C.ClientDeal, reply: C.Reply) returns (j': J.Joint)
    requires Between(params, totalFunds, j, d, [C.ClientEvent.SendFunds]) && d.status.FundsNeeded? && Willing(reply)
    requires d.totalReceived == 0 && d.unsealFundsPaid == 0 == d.fundsSpent < d.params.unsealPrice
    requires d.paymentInfo.Some? && d.channelID.Some?
    ensures Between(params, totalFunds, j', d.(status := DealStatus.SendFunds), [C.PaymentSent(d.params.unsealPrice)])
    ensures Beside(j, j') && j'.client.received == j.client.received
    ensures j'.client.vouchers == j.client.vouchers + [d.params.unsealPrice]
  {
    UnsealVoucher(d.(status := DealStatus.SendFunds), reply);
    j' := Take(params, totalFunds, j, d, C.ClientEvent.SendFunds, reply);
  }

  lemma RecordingTurn(params: Params, totalFunds: int, j: J.Joint, d: C.ClientDeal, reply: C.Reply) returns (j': J.Joint)
    requires Between(params, totalFunds, j, d, [C.PaymentSent(d.params.unsealPrice)]) && d.status.SendFunds?
    requires d.fundsSpent == 0 && d.paymentRequested == d.params.unsealPrice
    ensures Between(params, totalFunds, j', d.(status := Ongoing, paymentRequested := 0,
                    fundsSpent := d.params.unsealPrice, unsealFundsPaid := d.params.unsealPrice), [])
    ensures Beside(j, j') && j'.client.received == j.client.received && j'.client.vouchers == j.client.vouchers
  {
    j' := Take(params, totalFunds, j, d, C.PaymentSent(d.params.unsealPrice), reply);
  }

  lemma UnsealVoucher(d: C.ClientDeal, reply: C.Reply)
    requires d.totalReceived == 0 && d.unsealFundsPaid == 0 == d.fundsSpent < d.params.unsealPrice
    requires Willing(reply) && d.paymentInfo.Some? && d.channelID.Some?
    ensures C.SendFundsHandler(d, reply) ==
            C.Outcome([C.PaymentSent(d.params.unsealPrice)], Some(d.params.unsealPrice), false)
  {}

  /** The client's deal with unsealing paid and nothing else. */
  function Unsealed(params: Params, totalFunds: int, reply: C.Reply): C.ClientDeal
    requires Cooperative(reply)
  {
    Channelled(params, totalFunds, reply)
      .(paymentRequested := 0, fundsSpent := params.unsealPrice, unsealFundsPaid := params.unsealPrice)
  }

  // The provider's side of opening.

  function Offered(params: Params, status: DealStatus, channel: Id, funds: int): P.ProviderDeal {
    P.ProviderDeal(params, status, Some(channel), funds)
  }

  /** The provider takes its first event. */
  lemma Tracking(params: Params)
    ensures Waiting(R.Next(R.Start(params), R.Process),
                    P.ProviderDeal(params, if params.unsealPrice > 0 then FundsNeededUnseal else New, None, 0), 0,
                    [P.ValidatePull(params).response.value])
  {}

  /** With nothing to pay for unsealing, the accepted deal is unsealed at once. */
  lemma FreeUnsealing(p: R.Provider, params: Params, ch: Id, reply: R.Reply)
    requires Waiting(p, P.ProviderDeal(params, New, None, 0), 0, p.responses) && reply.prepares
    ensures Waiting(ServeTurn(p, P.DealAccepted(ch), reply), Offered(params, DealStatus.Unsealed, ch, 0), 0, p.responses)
  {
    OtherTurn(p, P.ProviderDeal(params, New, None, 0), 0, P.DealAccepted(ch), reply);
  }

  lemma WaitingForUnsealPrice(p: R.Provider, params: Params, ch: Id, channel: P.Channel)
    requires params.unsealPrice > 0 && channel == P.Channel(0, false, P.Proposal)
    requires Waiting(p, P.ProviderDeal(params, FundsNeededUnseal, None, 0), 0, p.responses)
    ensures Waiting(ServeTurn(p, P.DealAccepted(ch), Sees(channel)), Offered(params, FundsNeededUnseal, ch, 0), 0, p.responses)
  {
    var d := P.ProviderDeal(params, FundsNeededUnseal, None, 0);
    assert P.Apply(d, P.DealAccepted(ch)) == Offered(params, FundsNeededUnseal, ch, 0);
    FundingTurn(p, d, 0, P.DealAccepted(ch), channel);
  }

  /** The voucher for unsealing settles the bill for no bytes. */
  lemma PaidUnsealing(p: R.Provider, params: Params, ch: Id, channel: P.Channel)
    requires params.unsealPrice > 0 && channel == P.Channel(0, false, P.Payment(params.unsealPrice))
    requires Waiting(p, Offered(params, FundsNeededUnseal, ch, 0), 0, p.responses)
    ensures var p' := ServeTurn(p, P.ProcessPayment, Sees(channel));
            Waiting(p', Offered(params, Unsealing, ch, params.unsealPrice), params.unsealPrice, p.responses) && p'.due
  {
    var d := Offered(params, FundsNeededUnseal, ch, 0);
    assert OutstandingBalance(params, params.unsealPrice, 0, false) == 0 by {
      BalanceIsShortfall(params, params.unsealPrice, 0, false);
    }
    assert P.Apply(d, P.ProcessPayment) == d;
    P.FundingDecided(d, 0, channel, true, params.unsealPrice, 0, NextInterval(params, params.unsealPrice));
    FundingTurn(p, d, 0, P.ProcessPayment, channel);
  }

  lemma UnsealedAfter(p: R.Provider, params: Params, ch: Id, funds: nat)
    requires Waiting(p, Offered(params, Unsealing, ch, funds), funds, p.responses)
    ensures Waiting(R.Next(HandlerTurn(p, FINE), R.Process), Offered(params, DealStatus.Unsealed, ch, funds), funds, p.responses)
  {
    OtherHandler(p, Offered(params, Unsealing, ch, funds), funds, FINE);
  }

  /** Every funded deal gets to its transfer, with exactly the unseal price paid. */
  lemma DealOpens(params: Params, totalFunds: int, reply: C.Reply) returns (j: J.Joint, channel: P.Channel)
    requires totalFunds != 0 && Cooperative(reply)
    ensures Serving(params, totalFunds, j, channel)
    ensures j.client.received == 0 && j.provider.best == params.unsealPrice
    ensures j.client.vouchers == if params.unsealPrice > 0 then [params.unsealPrice] else []
    ensures j.client.deal.currentInterval == params.paymentInterval
  {
    var ch := reply.transfer.value;
    channel := P.Channel(0, false, P.Proposal);
    j := Proposing(params, totalFunds, reply);
    Tracking(params);
    J.ProviderSteps(params, totalFunds, j, R.Process);
    j := j.(provider := R.Next(j.provider, R.Process));
    JointServe(params, totalFunds, j, P.DealAccepted(ch), Sees(channel));
    if params.unsealPrice > 0 {
      WaitingForUnsealPrice(j.provider, params, ch, channel);
    } else {
      FreeUnsealing(j.provider, params, ch, Sees(channel));
    }
    j := j.(provider := ServeTurn(j.provider, P.DealAccepted(ch), Sees(channel)));
    j := Answered(params, totalFunds, j, reply);
    j := Channelling(params, totalFunds, j, reply);
    if params.unsealPrice > 0 {
      j := PayingUnseal(params, totalFunds, j, reply);
      channel := P.Channel(0, false, P.Payment(params.unsealPrice));
      j := Unseal(params, totalFunds, j, ch, channel);
    }
  }

  lemma Unseal(params: Params, totalFunds: int, j: J.Joint, ch: Id, channel: P.Channel) returns (j': J.Joint)
    requires J.Reachable(params, totalFunds, j) && params.unsealPrice > 0 && J.Shows(channel, j.client)
    requires channel == P.Channel(0, false, P.Payment(params.unsealPrice))
    requires Waiting(j.provider, Offered(params, FundsNeededUnseal, ch, 0), 0, j.provider.responses)
    ensures J.Reachable(params, totalFunds, j') && j'.client == j.client && j'.delivered == j.delivered
    ensures Waiting(j'.provider, Offered(params, DealStatus.Unsealed, ch, params.unsealPrice), params.unsealPrice,
                    j.provider.responses)
  {
    var p1 := ServeTurn(j.provider, P.ProcessPayment, Sees(channel));
    PaidUnsealing(j.provider, params, ch, channel);
    JointServe(params, totalFunds, j, P.ProcessPayment, Sees(channel));
    UnsealedAfter(p1, params, ch, params.unsealPrice);
    JointHandled(params, totalFunds, j.(provider := p1), FINE);
    j' := j.(provider := R.Next(HandlerTurn(p1, FINE), R.Process));
  }

  // ---------------------------------------------------------------- completing a deal

  /** All bytes have arrived and the provider has stopped for its last payment. */
  ghost predicate Finishing(params: Params, totalFunds: int, j: J.Joint, d: P.ProviderDeal, channel: P.Channel) {
    && J.Reachable(params, totalFunds, j)
    && M.Idle(j.client) && j.client.deal.status.BlocksComplete? && j.client.deal.allBlocksReceived
    && Resting(j.provider) && AllDelivered(j) && d.channelID.Some? && d.status.FundsNeededLastPayment?
    && (j.provider.deal.status.Unsealed? || j.provider.deal.status.Ongoing?)
    && d == j.provider.deal.(status := FundsNeededLastPayment)
    && InStep(j.client.deal, d, j.provider.best, channel)
    && j.provider.best >= params.unsealPrice && channel.inFinalization && J.Shows(channel, j.client)
  }

  /** Everything is paid, and the provider's report of completion is on its way. */
  ghost predicate Settling(params: Params, totalFunds: int, j: J.Joint, total: nat) {
    && J.Reachable(params, totalFunds, j)
    && M.Idle(j.client) && j.client.deal.fundsSpent == total
    && (j.client.deal.status.Finalizing? || (j.client.deal.status.BlocksComplete? && j.client.deal.allBlocksReceived))
    && Resting(j.provider) && j.provider.best == total && j.provider.deal.status.Finalizing?
    && j.provider.deal.fundsReceived == total
    && |j.provider.responses| == j.delivered + 1 && j.provider.responses[j.delivered] == COMPLETED
  }

  /** The client waits for its store, with this much paid in all; the provider is done with the money. */
  ghost predicate Closing(params: Params, totalFunds: int, j: J.Joint, total: nat) {
    && J.Reachable(params, totalFunds, j)
    && j.client.deal.status.FinalizingBlockstore? && j.client.queue == [C.BlockstoreFinalized]
    && !j.client.running && !j.client.panicked && j.client.deal.fundsSpent == total
    && Resting(j.provider) && j.provider.best == total && j.provider.deal.status.Finalizing?
    && j.provider.deal.fundsReceived == total && AllDelivered(j)
  }

  /** The last block has arrived. */
  lemma LastBlocks(params: Params, totalFunds: int, j: J.Joint, channel: P.Channel, reply: C.Reply) returns (j': J.Joint)
    requires Serving(params, totalFunds, j, channel)
    ensures Finishing(params, totalFunds, j', j.provider.deal.(status := FundsNeededLastPayment),
                      channel.(inFinalization := true))
    ensures Beside(j, j') && j'.client.vouchers == j.client.vouchers
  {
    J.ClientReachable(params, totalFunds, j);
    j' := Receive(params, totalFunds, j, j.client.deal, C.AllBlocksReceived, reply);
  }

  /** The provider stops for its last payment and bills every byte. */
  lemma LastBill(params: Params, totalFunds: int, j: J.Joint, d: P.ProviderDeal, channel: P.Channel)
    requires Finishing(params, totalFunds, j, d, channel)
    ensures var f := P.UpdateFunding(d, j.provider.best, channel, true);
            var p' := ServeTurn(j.provider, P.LastPaymentRequested, Sees(channel));
            && Waiting(p', AfterAll(d, f.triggered), j.provider.best + f.received, j.provider.responses + R.Sent(f))
            && J.Reachable(params, totalFunds, j.(provider := p'))
  {
    assert P.Apply(j.provider.deal, P.LastPaymentRequested) == d;
    FundingTurn(j.provider, j.provider.deal, j.provider.best, P.LastPaymentRequested, channel);
    JointServe(params, totalFunds, j, P.LastPaymentRequested, Sees(channel));
  }

  lemma ClosingTurn(p: R.Provider, d: P.ProviderDeal, best: nat, channel: P.Channel, voucher: nat)
    requires Waiting(p, d, best, p.responses) && d.status.FundsNeededLastPayment? && d.channelID.Some? && voucher >= best
    requires channel.lastVoucher == P.Payment(voucher) && Closed(d, best, channel, voucher)
    ensures Waiting(ServeTurn(p, P.ProcessPayment, Sees(channel)),
                    d.(status := Finalizing, fundsReceived := voucher), voucher, p.responses + [COMPLETED])
  {
    assert P.Apply(d, P.ProcessPayment) == d;
    assert channel.(lastVoucher := P.Payment(voucher)) == channel;
    FundingTurn(p, d, best, P.ProcessPayment, channel);
    R.FundingIsSound(d, best, channel, true);
  }

  /** The provider asks for the last payment. */
  lemma LastAsking(params: Params, totalFunds: int, j: J.Joint, d: P.ProviderDeal, channel: P.Channel, request: DealResponse)
    returns (j': J.Joint)
    requires Finishing(params, totalFunds, j, d, channel) && AsksLast(d, j.provider.best, channel, request)
    ensures J.Reachable(params, totalFunds, j') && j'.client == j.client && j'.delivered == j.delivered
    ensures Waiting(j'.provider, d, j.provider.best, j.provider.responses + [request])
  {
    LastBill(params, totalFunds, j, d, channel);
    R.FundingIsSound(d, j.provider.best, channel, true);
    j' := j.(provider := ServeTurn(j.provider, P.LastPaymentRequested, Sees(channel)));
  }

  /** The provider finds the last voucher on the channel. */
  lemma LastCrediting(params: Params, totalFunds: int, j: J.Joint, d: P.ProviderDeal, best: nat, channel: P.Channel, voucher: nat)
    returns (j': J.Joint)
    requires J.Reachable(params, totalFunds, j) && Waiting(j.provider, d, best, j.provider.responses)
    requires d.status.FundsNeededLastPayment? && d.channelID.Some? && voucher >= best && Closed(d, best, channel, voucher)
    requires channel.lastVoucher == P.Payment(voucher) && J.Shows(channel, j.client)
    ensures J.Reachable(params, totalFunds, j') && J.Leads(j, j') && j'.client == j.client && j'.delivered == j.delivered
    ensures Waiting(j'.provider, d.(status := Finalizing, fundsReceived := voucher), voucher,
                    j.provider.responses + [COMPLETED])
  {
    ClosingTurn(j.provider, d, best, channel, voucher);
    NewVoucher(params, totalFunds, j, channel);
    j' := j.(provider := ServeTurn(j.provider, P.ProcessPayment, Sees(channel)));
  }

  /** With money still owed, the last round pays it. */
  lemma LastPayment(params: Params, totalFunds: int, j: J.Joint, d: P.ProviderDeal, channel: P.Channel, reply: C.Reply)
    returns (j': J.Joint)
    requires Finishing(params, totalFunds, j, d, channel) && params.pricePerByte > 0
    requires ClientPointers.FreeIfUnfunded(params, totalFunds) && Willing(reply)
    requires j.provider.best < VoucherAmount(params, channel.queued)
    ensures Settling(params, totalFunds, j', VoucherAmount(params, channel.queued))
    ensures j'.client.vouchers == j.client.vouchers + [VoucherAmount(params, channel.queued)]
  {
    var best := j.provider.best;
    J.ClientReachable(params, totalFunds, j);
    var request, voucher := LastRoundSettles(params, totalFunds, j.client, d, best, channel, reply);
    j' := LastAsking(params, totalFunds, j, d, channel, request);
    var settled := SettlingClient(j.client, ClientEventForResponse(request), reply);
    JointSettling(params, totalFunds, j', ClientEventForResponse(request), reply);
    j' := j'.(client := settled, delivered := j.delivered + 1);
    var channel' := channel.(lastVoucher := P.Payment(voucher));
    assert Closed(d, best, channel', voucher);
    j' := LastCrediting(params, totalFunds, j', d, best, channel', voucher);
  }

  lemma JointSettling(params: Params, totalFunds: int, j: J.Joint, request: C.ClientEvent, reply: C.Reply)
    requires J.Reachable(params, totalFunds, j) && j.delivered < |j.provider.responses| && request == J.NextAnswer(j)
    ensures J.Reachable(params, totalFunds,
                        j.(client := SettlingClient(j.client, request, reply), delivered := j.delivered + 1))
  {
    var c1 := M.Turn(M.Next(j.client, M.Deliver(request)), reply);
    JointAnswer(params, totalFunds, j, request, reply);
    JointTurn(params, totalFunds, j.(client := c1, delivered := j.delivered + 1), reply);
  }

  /** What the report of completion is to the client. */
  const REPORT := ClientEventForResponse(COMPLETED)

  lemma ToldComplete(params: Params, totalFunds: int, j: J.Joint, d: C.ClientDeal, reply: C.Reply) returns (j': J.Joint)
    requires Between(params, totalFunds, j, d, []) && d.status.Finalizing? && reply.storeFinalized && Completing(j)
    ensures Between(params, totalFunds, j', d.(status := FinalizingBlockstore), [C.BlockstoreFinalized])
    ensures j'.provider == j.provider && j'.delivered == j.delivered + 1 && j'.client.vouchers == j.client.vouchers
  {
    ReportEnds(d, reply);
    j' := ReportLeading(params, totalFunds, j, d, FinalizingBlockstore, reply, [C.BlockstoreFinalized]);
  }

  /** The event moves the deal to the status and its handler triggers what comes next. */
  predicate Leading(d: C.ClientDeal, e: C.ClientEvent, s: DealStatus, reply: C.Reply, next: seq<C.ClientEvent>) {
    && C.Apply(d, e) == C.Applied(d.(status := s), true) && !C.ActPanics(d, e)
    && C.Handle(d.(status := s), reply) == C.Outcome(next, None, false)
  }

  lemma ReportEnds(d: C.ClientDeal, reply: C.Reply)
    requires d.status.Finalizing? && reply.storeFinalized
    ensures Leading(d, REPORT, FinalizingBlockstore, reply, [C.BlockstoreFinalized])
  {}

  lemma ReportIsChecked(d: C.ClientDeal, reply: C.Reply)
    requires d.status.BlocksComplete? && d.allBlocksReceived
    ensures Leading(d, REPORT, CheckComplete, reply, [C.CompleteVerified])
  {}

  lemma CheckEnds(d: C.ClientDeal, reply: C.Reply)
    requires d.status.CheckComplete? && reply.storeFinalized
    ensures Leading(d, C.CompleteVerified, FinalizingBlockstore, reply, [C.BlockstoreFinalized])
  {}

  lemma StoreEnds(d: C.ClientDeal, reply: C.Reply)
    requires d.status.FinalizingBlockstore?
    ensures Leading(d, C.BlockstoreFinalized, Completed, reply, [])
  {}

  lemma TakeLeading(params: Params, totalFunds: int, j: J.Joint, d: C.ClientDeal, e: C.ClientEvent, s: DealStatus,
                    reply: C.Reply, next: seq<C.ClientEvent>) returns (j': J.Joint)
    requires Leading(d, e, s, reply, next) && Between(params, totalFunds, j, d, [e])
    ensures Between(params, totalFunds, j', d.(status := s), next)
    ensures Beside(j, j') && j'.client.vouchers == j.client.vouchers
  {
    j' := Take(params, totalFunds, j, d, e, reply);
  }

  /** The next response is the report of completion. */
  predicate Completing(j: J.Joint) {
    j.delivered < |j.provider.responses| && j.provider.responses[j.delivered] == COMPLETED
  }

  lemma ReportLeading(params: Params, totalFunds: int, j: J.Joint, d: C.ClientDeal, s: DealStatus,
                      reply: C.Reply, next: seq<C.ClientEvent>) returns (j': J.Joint)
    requires Leading(d, REPORT, s, reply, next) && Between(params, totalFunds, j, d, []) && Completing(j)
    ensures Between(params, totalFunds, j', d.(status := s), next)
    ensures j'.provider == j.provider && j'.delivered == j.delivered + 1 && j'.client.vouchers == j.client.vouchers
  {
    j' := ReceiveAnswer(params, totalFunds, j, d, REPORT, reply);
  }

  /** With every byte paid already, the provider reports completion and the client checks it. */
  lemma NothingOwed(params: Params, totalFunds: int, j: J.Joint, d: P.ProviderDeal, channel: P.Channel) returns (j': J.Joint)
    requires Finishing(params, totalFunds, j, d, channel)
    requires channel.queued < INT64_LIMIT && j.provider.best == VoucherAmount(params, channel.queued) && d.params == params
    ensures Settling(params, totalFunds, j', VoucherAmount(params, channel.queued))
    ensures j'.client.vouchers == j.client.vouchers
  {
    SettledBill(d, j.provider.best, channel);
    LastBill(params, totalFunds, j, d, channel);
    j' := j.(provider := ServeTurn(j.provider, P.LastPaymentRequested, Sees(channel)));
  }

  /** With every byte paid for, the provider reports completion and records that nothing more is due. */
  lemma SettledBill(d: P.ProviderDeal, best: nat, channel: P.Channel)
    requires d.status.FundsNeededLastPayment? && channel.inFinalization && channel.queued < INT64_LIMIT
    requires P.ProcessLastVoucher(best, channel, true) == Some(0)
    requires d.fundsReceived == best == VoucherAmount(d.params, channel.queued)
    ensures var f := P.UpdateFunding(d, best, channel, true);
            && f.triggered == [P.PaymentReceived(0)] && f.received == 0 && f.result.response == Some(COMPLETED)
            && AfterAll(d, f.triggered) == d.(status := Finalizing)
  {
    assert OutstandingBalance(d.params, best, channel.queued, true) == 0 by {
      FinalBillIsVoucher(d.params, best, channel.queued);
    }
    P.FundingDecided(d, best, channel, true, 0, 0, NextInterval(d.params, best));
    SettledFunding(d, NextInterval(d.params, best));
  }

  lemma SettledFunding(d: P.ProviderDeal, limit: nat)
    requires d.status.FundsNeededLastPayment?
    ensures var f := P.FundingFor(d.status, 0, 0, limit);
            && f.triggered == [P.PaymentReceived(0)] && f.received == 0 && f.result.response == Some(COMPLETED)
            && AfterAll(d, f.triggered) == d.(status := Finalizing)
  {}

  lemma CheckedComplete(params: Params, totalFunds: int, j: J.Joint, d: C.ClientDeal, reply: C.Reply) returns (j': J.Joint)
    requires Between(params, totalFunds, j, d, []) && d.status.BlocksComplete? && d.allBlocksReceived && reply.storeFinalized && Completing(j)
    ensures Between(params, totalFunds, j', d.(status := FinalizingBlockstore), [C.BlockstoreFinalized])
    ensures j'.provider == j.provider && j'.delivered == j.delivered + 1 && j'.client.vouchers == j.client.vouchers
  {
    ReportIsChecked(d, reply);
    j' := ReportLeading(params, totalFunds, j, d, CheckComplete, reply, [C.CompleteVerified]);
    j' := VerifiedComplete(params, totalFunds, j', d.(status := CheckComplete), reply);
  }

  lemma VerifiedComplete(params: Params, totalFunds: int, j: J.Joint, d: C.ClientDeal, reply: C.Reply) returns (j': J.Joint)
    requires Between(params, totalFunds, j, d, [C.CompleteVerified]) && d.status.CheckComplete? && reply.storeFinalized
    ensures Between(params, totalFunds, j', d.(status := FinalizingBlockstore), [C.BlockstoreFinalized])
    ensures Beside(j, j') && j'.client.vouchers == j.client.vouchers
  {
    CheckEnds(d, reply);
    j' := TakeLeading(params, totalFunds, j, d, C.CompleteVerified, FinalizingBlockstore, reply, [C.BlockstoreFinalized]);
  }

  /** The client takes the report of completion, verifying it if it has paid nothing for it. */
  lemma Reported(params: Params, totalFunds: int, j: J.Joint, total: nat, reply: C.Reply) returns (j': J.Joint)
    requires Settling(params, totalFunds, j, total) && reply.storeFinalized
    ensures Closing(params, totalFunds, j', total) && j'.client.vouchers == j.client.vouchers
  {
    AtRest(params, totalFunds, j);
    if j.client.deal.status.Finalizing? {
      j' := ToldComplete(params, totalFunds, j, j.client.deal, reply);
    } else {
      j' := CheckedComplete(params, totalFunds, j, j.client.deal, reply);
    }
  }

  /** Both sides have completed the deal, and both ledgers say that `total` was paid. */
  ghost predicate Done(params: Params, totalFunds: int, j: J.Joint, total: nat) {
    && J.Reachable(params, totalFunds, j)
    && j.client.deal.status.Completed? && j.client.deal.fundsSpent == total
    && j.provider.deal.status.Completed? && j.provider.deal.fundsReceived == j.provider.best == total
    && AllDelivered(j)
  }

  lemma BothComplete(params: Params, totalFunds: int, j: J.Joint, total: nat, reply: C.Reply) returns (j': J.Joint)
    requires Closing(params, totalFunds, j, total)
    ensures Done(params, totalFunds, j', total) && j'.client.vouchers == j.client.vouchers
  {
    AtRest(params, totalFunds, j);
    j' := StoreFinalized(params, totalFunds, j, j.client.deal, reply);
    CleanupTurn(j.provider, j.provider.deal, total);
    JointServe(params, totalFunds, j', P.Complete, FINE);
    j' := j'.(provider := ServeTurn(j.provider, P.Complete, FINE));
  }

  lemma StoreFinalized(params: Params, totalFunds: int, j: J.Joint, d: C.ClientDeal, reply: C.Reply) returns (j': J.Joint)
    requires Between(params, totalFunds, j, d, [C.BlockstoreFinalized]) && d.status.FinalizingBlockstore?
    ensures Between(params, totalFunds, j', d.(status := Completed), [])
    ensures Beside(j, j') && j'.client.vouchers == j.client.vouchers
  {
    StoreEnds(d, reply);
    j' := TakeLeading(params, totalFunds, j, d, C.BlockstoreFinalized, Completed, reply, []);
  }

  lemma CleanupTurn(p: R.Provider, d: P.ProviderDeal, best: nat)
    requires Waiting(p, d, best, p.responses) && d.status.Finalizing?
    ensures Waiting(ServeTurn(p, P.Complete, FINE), d.(status := Completed), best, p.responses)
  {
    assert P.Apply(d, P.Complete) == d.(status := DealStatus.Completing);
    OtherTurn(p, d, best, P.Complete, FINE);
  }

  /** From the running transfer, with all `total` bytes arrived, to a completed deal. */
  lemma DealCompletes(params: Params, totalFunds: int, j: J.Joint, channel: P.Channel, reply: C.Reply) returns (j': J.Joint)
    requires Serving(params, totalFunds, j, channel) && params.pricePerByte > 0
    requires ClientPointers.FreeIfUnfunded(params, totalFunds) && Willing(reply)
    ensures Done(params, totalFunds, j', VoucherAmount(params, channel.queued))
    ensures var price := VoucherAmount(params, channel.queued);
            j'.client.vouchers == j.client.vouchers + if j.provider.best < price then [price] else []
  {
    J.ClientReachable(params, totalFunds, j);
    ReachableFacts(params, totalFunds, j.client);
    SpentIsPriceOfPaid(j.client.deal);
    VoucherMonotone(params, j.client.deal.bytesPaidFor, channel.queued);
    var d, last := j.provider.deal.(status := FundsNeededLastPayment), channel.(inFinalization := true);
    j' := LastBlocks(params, totalFunds, j, channel, reply);
    if j.provider.best < VoucherAmount(params, channel.queued) {
      j' := LastPayment(params, totalFunds, j', d, last, reply);
    } else {
      j' := NothingOwed(params, totalFunds, j', d, last);
    }
    j' := Reported(params, totalFunds, j', VoucherAmount(params, channel.queued), reply);
    j' := BothComplete(params, totalFunds, j', VoucherAmount(params, channel.queued), reply);
  }

  /**
   A whole deal: for any terms with a price, any funds, any number of intervals and any final
   size, client and provider together reach completion, the client having paid the unseal
   price, then at every stop the price of all bytes so far, and in all exactly the price of
   every byte.
   */
  lemma WholeDeal(params: Params, totalFunds: int, stops: seq<uint64>, total: uint64, reply: C.Reply)
    returns (j: J.Joint)
    requires params.pricePerByte > 0 && Tame(params) && totalFunds != 0 && Cooperative(reply)
    requires Schedule(params, 0, params.unsealPrice, stops)
    requires LastStop(stops) <= total < INT64_LIMIT
    ensures Done(params, totalFunds, j, VoucherAmount(params, total))
    ensures j.client.vouchers ==
            (if params.unsealPrice > 0 then [params.unsealPrice] else []) + Prices(params, stops) +
            (if LastStop(stops) < total then [VoucherAmount(params, total)] else [])
  {
    VoucherMonotone(params, LastStop(stops), total);
    assert VoucherAmount(params, 0) == params.unsealPrice;
    var channel;
    j, channel := DealOpens(params, totalFunds, reply);
    j, channel := TransferGoesOn(params, totalFunds, j, channel, stops, reply);
    j := CountingRound(params, totalFunds, j, channel, total, reply);
    j := DealCompletes(params, totalFunds, j, channel.(queued := total), reply);
  }
}
