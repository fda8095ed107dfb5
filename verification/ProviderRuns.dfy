/**
 Runs of the retrieval provider, and what holds in every one of them: the ledger equals
 the best voucher on the lane, unsealing and finalization happen only when paid, and the
 data limit in force is exactly what the vouchers received have bought.

 The provider consumes every queued event before it runs an entry handler.  A handler may
 run at any moment here, which covers every rule the library could use; `due` records
 whether an event has asked for one.  While a handler runs the deal does not change and external events
 may queue up in front of the events the handler triggers.
 */
module ProviderRuns {
  import opened Words
  import opened Wrappers
  import opened Intervals
  import opened Billing
  import opened Deals
  import opened ProviderFsm

  datatype Provider = Provider(
    deal: ProviderDeal,
    queue: seq<ProviderEvent>,
    running: bool,                     // an entry handler is in flight
    best: nat,                         // best voucher saved on the payment lane
    settled: Option<Settlement>,       // the last bill found fully paid
    limit: nat,                        // data limit last handed to the transfer channel
    limitFunds: int,                   // funds that limit was computed from
    accepted: seq<ProviderEvent>,      // events processed so far that the table accepted
    responses: seq<DealResponse>,      // responses sent to the client so far
    due: bool)                         // an event since the last handler asks for one

  /** A bill for the bytes of a channel that `total` funds paid in full. */
  datatype Settlement = Settlement(total: int, channel: Channel)

  /** What node, store and transfer module answer to one handler run. */
  datatype Reply = Reply(
    channel: Option<Channel>,     // ChannelState
    saves: bool,                  // SavePaymentVoucher succeeds
    updates: bool,                // UpdateValidationStatus succeeds
    prepares: bool,               // PrepareBlockstore
    resumes: bool,                // ResumeDataTransfer
    deletes: bool,                // DeleteStore
    closes: bool)                 // CloseDataTransfer

  datatype Step =
    | Deliver(event: ProviderEvent)
    | Process
    | Begin
    | Finish(reply: Reply)

  /** Events that come from the data transfer layer. */
  predicate External(e: ProviderEvent) {
    e.DealAccepted? || e.DataTransferError? || e.PaymentRequested? || e.LastPaymentRequested? || e.ProcessPayment? ||
    e.ClientCancelled? || e.Complete? || e.BlockSent?
  }

  /** A proposal was accepted: the deal is tracked and its first event queued. */
  function Start(params: Params): Provider {
    Provider(ProviderDeal(params, New, None, 0), [FirstEvent(params)], false, 0,
             None, ValidatePull(params).dataLimit, 0, [], [ValidatePull(params).response.value], false)
  }

  function Next(p: Provider, step: Step): Provider {
    match step
    case Deliver(e) => if External(e) then p.(queue := p.queue + [e]) else p
    case Process => if p.running || p.queue == [] then p else Processed(p)
    case Begin => if p.running || p.queue != [] then p else p.(running := true, due := false)
    case Finish(reply) => if p.running then Finished(p, reply) else p
  }

  function Processed(p: Provider): Provider
    requires p.queue != []
  {
    var e := p.queue[0];
    p.(deal := Apply(p.deal, e), queue := p.queue[1..], due := p.due || Rouses(p.deal.status, e),
       accepted := if Accepts(p.deal.status, e) then p.accepted + [e] else p.accepted)
  }

  /** The event asks for the entry handler of the status it leads to. */
  predicate Rouses(s: DealStatus, e: ProviderEvent) {
    !IsFinal(s) && (Target(s, e).To? || Target(s, e).NoChange?)
  }

  /** `ProviderStateEntryFuncs`: the entry handler of the deal's status completes. */
  function Finished(p: Provider, reply: Reply): Provider {
    if NeedsFunds(p.deal.status) then Funded(p, reply) else Triggers(p, OtherEvents(p.deal, reply))
  }

  /** Events of the handlers that do not handle money. */
  function OtherEvents(d: ProviderDeal, reply: Reply): (events: seq<ProviderEvent>)
    ensures |events| <= 1 && (events == [] || (!events[0].PaymentReceived? && !events[0].PartialPaymentReceived?))
  {
    match d.status
    case Unsealing => [if reply.prepares then UnsealComplete else UnsealError]
    case Unsealed => if d.channelID.Some? && !reply.resumes then [DataTransferError] else []
    case Failing | Cancelling =>
      [if !reply.deletes then MultiStoreError
       else if d.channelID.Some? && !reply.closes then DataTransferError
       else CancelComplete]
    case Completing => [if reply.deletes then CleanupComplete else MultiStoreError]
    case _ => []
  }

  function Triggers(p: Provider, events: seq<ProviderEvent>): Provider {
    p.(queue := p.queue + events, running := false)
  }

  /** The `UpdateFunding` handler. */
  function Funded(p: Provider, reply: Reply): Provider {
    if p.deal.channelID.None? then Triggers(p, [])
    else if reply.channel.None? then Triggers(p, [DataTransferError])
    else
      FundedBy(p, UpdateFunding(p.deal, p.best, reply.channel.value, reply.saves), reply.channel.value, reply.updates)
  }

  function FundedBy(p: Provider, f: Funding, channel: Channel, updates: bool): Provider {
    var limited := f.result.accepted && updates;
    Triggers(p, f.triggered + if updates then [] else [DataTransferError])
      .(best := p.best + f.received,
        settled := if f.triggered != [] && f.triggered[0].PaymentReceived?
                   then Some(Settlement(p.deal.fundsReceived + f.received, channel)) else p.settled,
        limit := if limited then f.result.dataLimit else p.limit,
        limitFunds := if limited then p.deal.fundsReceived + f.received else p.limitFunds,
        responses := p.responses + if updates then Sent(f) else [])
  }

  /** The response a funding decision sends, if any. */
  function Sent(f: Funding): seq<DealResponse> {
    if f.result.response.Some? then [f.result.response.value] else []
  }

  function Run(p: Provider, steps: seq<Step>): Provider {
    if steps == [] then p else Next(Run(p, steps[..|steps| - 1]), steps[|steps| - 1])
  }

  /** The provider once it has taken every queued event, as it does before each handler. */
  function Consumed(p: Provider): Provider
    decreases |p.queue|
  {
    if p.queue == [] then p else Consumed(Processed(p))
  }

  /** All queued events taken in place on the stored record. */
  method ConsumeAll(record: DealRecord, queue: seq<ProviderEvent>, ghost p: Provider)
    requires record.Snapshot() == p.deal && p.queue == queue
    modifies record
    ensures record.Snapshot() == Consumed(p).deal
  {
    var i := 0;
    ghost var now := p;
    while i < |queue|
      invariant i <= |queue| && now.queue == queue[i..]
      invariant record.Snapshot() == now.deal && Consumed(p) == Consumed(now)
    {
      record.Plan(queue[i]);
      now := Processed(now);
      i := i + 1;
    }
  }

  lemma {:induction false} RunFirst(p: Provider, step: Step, steps: seq<Step>)
    ensures Run(p, [step] + steps) == Run(Next(p, step), steps)
  {
    var all := [step] + steps;
    if steps == [] {
      assert all[..0] == [];
      assert Run(p, all) == Next(Run(p, []), step);
    } else {
      RunFirst(p, step, steps[..|steps| - 1]);
      assert all[..|all| - 1] == [step] + steps[..|steps| - 1];
    }
  }

  /** Taking every queued event is a run of that many steps. */
  lemma {:induction false} ConsumedIsRun(p: Provider)
    requires !p.running
    ensures Run(p, seq(|p.queue|, _ => Process)) == Consumed(p) && Consumed(p).queue == []
    decreases |p.queue|
  {
    if p.queue != [] {
      var rest := seq(|p.queue| - 1, _ => Process);
      ConsumedIsRun(Processed(p));
      RunFirst(p, Process, rest);
      assert seq(|p.queue|, _ => Process) == [Process] + rest;
    }
  }

  // ---------------------------------------------------------------- the invariant

  /** The deal can still be worked on. */
  predicate Live(s: DealStatus) {
    s.New? || NeedsFunds(s) || Worked(s)
  }

  /** Statuses in which the provider has started, or finished, serving the deal. */
  predicate Worked(s: DealStatus) {
    s.Unsealing? || s.Unsealed? || s.Ongoing? || s.BlocksComplete? || s.Finalizing?
  }

  predicate IsPayment(e: ProviderEvent) {
    e.PaymentReceived? || e.PartialPaymentReceived?
  }

  function AmountOf(e: ProviderEvent): int {
    if IsPayment(e) then e.amount else 0
  }

  function Payments(events: seq<ProviderEvent>): int {
    if events == [] then 0 else Payments(events[..|events| - 1]) + AmountOf(events[|events| - 1])
  }

  /** At most one payment is queued, and it is one the deal's status will record. */
  predicate QueueSound(p: Provider) {
    && (forall i :: 0 <= i < |p.queue| && IsPayment(p.queue[i]) ==>
          !p.running && p.queue[i].amount >= 0 && (NeedsFunds(p.deal.status) || !Live(p.deal.status)))
    && (forall i, j :: 0 <= i < j < |p.queue| && IsPayment(p.queue[i]) ==> !IsPayment(p.queue[j]))
    && (forall i :: 0 <= i < |p.queue| && p.queue[i].PaymentReceived? && Live(p.deal.status) ==>
          p.settled.Some? && p.settled.value.total == p.deal.fundsReceived + p.queue[i].amount)
  }

  /** A new deal has received nothing, and asks for the unseal price first. */
  predicate NewSound(p: Provider) {
    p.best == 0 && p.deal.fundsReceived == 0 && p.deal.channelID.None? &&
    (p.deal.params.unsealPrice > 0 ==> p.queue != [] && p.queue[0].PaymentRequested?)
  }

  /** Work has been paid for as far as it has gone. */
  predicate PaidSound(p: Provider) {
    && (Worked(p.deal.status) || p.deal.status.FundsNeeded? || p.deal.status.FundsNeededLastPayment? ==>
          p.deal.fundsReceived >= p.deal.params.unsealPrice)
    && (p.deal.status.Finalizing? ==> p.settled.Some? && p.settled.value.total == p.deal.fundsReceived)
    && (p.settled.Some? ==> p.settled.value.total >= p.deal.params.unsealPrice)
  }

  predicate LedgerSound(p: Provider) {
    && p.deal.fundsReceived == Payments(p.accepted)
    && p.deal.fundsReceived >= 0
    && (Live(p.deal.status) ==> p.best == p.deal.fundsReceived + Payments(p.queue))
    && (Live(p.deal.status) && DataTransferError !in p.queue ==> p.limitFunds == p.best)
  }

  /** The bill last found paid was paid, and the limit in force is the one its funds buy. */
  predicate BillsSound(p: Provider) {
    && (p.settled.Some? ==>
          var s := p.settled.value;
          OutstandingBalance(p.deal.params, s.total, s.channel.queued, s.channel.inFinalization) == 0)
    && p.limit == NextInterval(p.deal.params, p.limitFunds)
  }

  predicate Sound(p: Provider) {
    QueueSound(p) && (p.deal.status.New? ==> NewSound(p)) && PaidSound(p) && LedgerSound(p)
  }

  // ---------------------------------------------------------------- payments in the queue

  lemma {:induction false} PaymentsAppend(a: seq<ProviderEvent>, b: seq<ProviderEvent>)
    ensures Payments(a + b) == Payments(a) + Payments(b)
  {
    if b == [] {
      assert a + b == a;
    } else {
      var front := b[..|b| - 1];
      assert (a + b)[..|a + b| - 1] == a + front;
      PaymentsAppend(a, front);
    }
  }

  lemma {:induction false} NoPayments(events: seq<ProviderEvent>)
    requires forall i :: 0 <= i < |events| ==> !IsPayment(events[i])
    ensures Payments(events) == 0
  {
    if events != [] {
      NoPayments(events[..|events| - 1]);
    }
  }

  lemma PaymentsHead(queue: seq<ProviderEvent>)
    requires queue != []
    ensures Payments(queue) == AmountOf(queue[0]) + Payments(queue[1..])
  {
    assert queue == [queue[0]] + queue[1..];
    PaymentsAppend([queue[0]], queue[1..]);
    OnePayment(queue[0]);
  }

  lemma PaymentsLast(events: seq<ProviderEvent>, e: ProviderEvent)
    ensures Payments(events + [e]) == Payments(events) + AmountOf(e)
  {
    PaymentsAppend(events, [e]);
    OnePayment(e);
  }

  // ---------------------------------------------------------------- steps keep it

  /** What one event does to a deal's money: a payment on a live deal that waits for it is added. */
  lemma EventMoney(d: ProviderDeal, e: ProviderEvent)
    ensures var d' := Apply(d, e);
            && d'.params == d.params
            && (Live(d'.status) ==> Live(d.status))
            && (NeedsFunds(d.status) && IsPayment(e) ==> Accepts(d.status, e))
            && (!IsPayment(e) && NeedsFunds(d.status) ==> NeedsFunds(d'.status) || !Live(d'.status))
            && d'.fundsReceived == (if e.Open? && Accepts(d.status, e) then 0
                                    else if Accepts(d.status, e) then d.fundsReceived + AmountOf(e)
                                    else d.fundsReceived)
            && (e.Open? && Accepts(d.status, e) ==> d.status.New?)
            && (e.DataTransferError? ==> !Live(d'.status))
  {}

  lemma ProcessKeepsLedger(p: Provider)
    requires Sound(p) && p.queue != [] && !p.running
    ensures LedgerSound(Processed(p))
  {
    var e := p.queue[0];
    EventMoney(p.deal, e);
    PaymentsHead(p.queue);
    PaymentsLast(p.accepted, e);
    assert IsPayment(e) && Live(p.deal.status) ==> NeedsFunds(p.deal.status);
  }

  lemma ProcessKeepsQueue(p: Provider)
    requires Sound(p) && p.queue != [] && !p.running
    ensures QueueSound(Processed(p))
  {
    var e := p.queue[0];
    var p' := Processed(p);
    EventMoney(p.deal, e);
    forall i | 0 <= i < |p'.queue| && IsPayment(p'.queue[i])
      ensures NeedsFunds(p'.deal.status) || !Live(p'.deal.status)
      ensures Live(p'.deal.status) ==> p'.deal.fundsReceived == p.deal.fundsReceived
    {
      assert p'.queue[i] == p.queue[i + 1];
      assert !IsPayment(e);
    }
  }

  /** A new deal with an unseal price leaves that status by its first event. */
  lemma ProcessKeepsNew(p: Provider)
    requires Sound(p) && p.queue != [] && !p.running
    ensures Processed(p).deal.status.New? ==> NewSound(Processed(p))
    ensures Processed(p).deal.status.Unsealing? && p.deal.status.New? ==> p.deal.params.unsealPrice == 0
  {}

  lemma ProcessKeepsPaid(p: Provider)
    requires Sound(p) && p.queue != [] && !p.running
    ensures PaidSound(Processed(p))
  {
    var e := p.queue[0];
    ProcessKeepsNew(p);
    if IsPayment(e) && Live(p.deal.status) {
      assert NeedsFunds(p.deal.status);
    }
  }

  /** What the funding decision says about the amount received. */
  predicate FundingSound(f: Funding) {
    && |f.triggered| <= 1
    && (f.triggered != [] && IsPayment(f.triggered[0]) ==> f.triggered[0].amount == f.received)
    && (f.triggered == [] || !IsPayment(f.triggered[0]) ==> f.received == 0)
    && DataTransferError !in f.triggered
    && (!f.result.accepted ==> f.received == 0)
  }

  lemma FundingIsSound(d: ProviderDeal, best: nat, channel: Channel, saves: bool)
    ensures FundingSound(UpdateFunding(d, best, channel, saves))
  {
    var received := ProcessLastVoucher(best, channel, saves);
    if received.Some? {
      var total := d.fundsReceived + received.value;
      FundingForIsSound(d.status, received.value,
                        OutstandingBalance(d.params, total, channel.queued, channel.inFinalization),
                        NextInterval(d.params, total));
    }
  }

  lemma FundingForIsSound(status: DealStatus, received: nat, owed: nat, limit: nat)
    ensures FundingSound(FundingFor(status, received, owed, limit))
  {}

  /** Full payment is announced only for a settled bill, and the limit is the one the funds buy. */
  predicate FundingBilled(d: ProviderDeal, channel: Channel, f: Funding) {
    var total := d.fundsReceived + f.received;
    && (f.triggered != [] && f.triggered[0].PaymentReceived? ==>
          total >= d.params.unsealPrice &&
          OutstandingBalance(d.params, total, channel.queued, channel.inFinalization) == 0)
    && (f.result.accepted ==> f.result.dataLimit == NextInterval(d.params, total))
  }

  lemma FundingIsBilled(d: ProviderDeal, best: nat, channel: Channel, saves: bool)
    ensures FundingBilled(d, channel, UpdateFunding(d, best, channel, saves))
  {
    var received := ProcessLastVoucher(best, channel, saves);
    if received.Some? {
      var total := d.fundsReceived + received.value;
      var owed := OutstandingBalance(d.params, total, channel.queued, channel.inFinalization);
      var limit := NextInterval(d.params, total);
      FundingDecided(d, best, channel, saves, received.value, owed, limit);
      DecisionIsBilled(d, channel, received.value, owed, limit);
    }
  }

  lemma DecisionIsBilled(d: ProviderDeal, channel: Channel, received: nat, owed: nat, limit: nat)
    requires owed == OutstandingBalance(d.params, d.fundsReceived + received, channel.queued, channel.inFinalization)
    requires limit == NextInterval(d.params, d.fundsReceived + received)
    requires owed == 0 ==> d.fundsReceived + received >= d.params.unsealPrice
    ensures FundingBilled(d, channel, FundingFor(d.status, received, owed, limit))
  {
    var f := FundingFor(d.status, received, owed, limit);
    FundingForIsBilled(d.status, received, owed, limit);
    assert d.fundsReceived + f.received == d.fundsReceived + received;
  }

  lemma FundingForIsBilled(status: DealStatus, received: nat, owed: nat, limit: nat)
    ensures var f := FundingFor(status, received, owed, limit);
            && f.received == received && f.result.dataLimit == limit
            && (f.triggered != [] && f.triggered[0].PaymentReceived? ==> owed == 0)
  {}

  lemma FundedKeepsQueue(p: Provider, f: Funding, channel: Channel, updates: bool)
    requires QueueSound(p) && p.running && NeedsFunds(p.deal.status) && FundingSound(f)
    ensures QueueSound(FundedBy(p, f, channel, updates))
  {}

  lemma FundedPayments(queue: seq<ProviderEvent>, f: Funding, tail: seq<ProviderEvent>)
    requires forall i :: 0 <= i < |queue| ==> !IsPayment(queue[i])
    requires FundingSound(f) && (tail == [] || tail == [DataTransferError])
    ensures Payments(queue + (f.triggered + tail)) == f.received
  {
    assert Payments(queue) == 0 by { NoPayments(queue); }
    assert Payments(tail) == 0 by { NoPayments(tail); }
    TriggeredPayments(f);
    PaymentsAppend(queue, f.triggered + tail);
    PaymentsAppend(f.triggered, tail);
  }

  lemma TriggeredPayments(f: Funding)
    requires FundingSound(f)
    ensures Payments(f.triggered) == f.received
  {
    if f.triggered != [] {
      OnePayment(f.triggered[0]);
      assert f.triggered == [f.triggered[0]];
    }
  }

  lemma OnePayment(e: ProviderEvent)
    ensures Payments([e]) == AmountOf(e)
  {
    assert [e][..0] == [];
  }

  lemma FundedErrors(p: Provider, f: Funding, channel: Channel, updates: bool)
    requires DataTransferError !in FundedBy(p, f, channel, updates).queue
    ensures DataTransferError !in p.queue && updates
  {
    var queue := FundedBy(p, f, channel, updates).queue;
    assert forall i :: 0 <= i < |p.queue| ==> queue[i] == p.queue[i];
  }

  lemma FundedKeepsLedger(p: Provider, f: Funding, channel: Channel, updates: bool)
    requires QueueSound(p) && LedgerSound(p) && p.running && NeedsFunds(p.deal.status) && FundingSound(f)
    ensures LedgerSound(FundedBy(p, f, channel, updates))
  {
    NoPayments(p.queue);
    FundedPayments(p.queue, f, if updates then [] else [DataTransferError]);
    if DataTransferError !in FundedBy(p, f, channel, updates).queue {
      FundedErrors(p, f, channel, updates);
    }
  }

  lemma FundingKeepsSound(p: Provider, reply: Reply)
    requires Sound(p) && p.running && NeedsFunds(p.deal.status) && reply.channel.Some? && p.deal.channelID.Some?
    ensures Sound(Funded(p, reply))
  {
    var channel := reply.channel.value;
    var f := UpdateFunding(p.deal, p.best, channel, reply.saves);
    FundingIsSound(p.deal, p.best, channel, reply.saves);
    FundingIsBilled(p.deal, p.best, channel, reply.saves);
    FundedKeepsQueue(p, f, channel, reply.updates);
    FundedKeepsLedger(p, f, channel, reply.updates);
  }

  lemma QuietTriggersKeepSound(p: Provider, events: seq<ProviderEvent>)
    requires Sound(p) && p.running
    requires forall i :: 0 <= i < |events| ==> !IsPayment(events[i])
    ensures Sound(Triggers(p, events))
  {
    NoPayments(events);
    PaymentsAppend(p.queue, events);
    assert Triggers(p, events).queue == p.queue + events;
  }

  lemma FinishKeepsSound(p: Provider, reply: Reply)
    requires Sound(p) && p.running
    ensures Sound(Finished(p, reply))
  {
    if !NeedsFunds(p.deal.status) {
      QuietTriggersKeepSound(p, OtherEvents(p.deal, reply));
    } else if p.deal.channelID.None? {
      QuietTriggersKeepSound(p, []);
    } else if reply.channel.None? {
      QuietTriggersKeepSound(p, [DataTransferError]);
    } else {
      FundingKeepsSound(p, reply);
    }
  }

  lemma DeliverKeepsSound(p: Provider, e: ProviderEvent)
    requires Sound(p) && External(e)
    ensures Sound(p.(queue := p.queue + [e]))
  {
    PaymentsLast(p.queue, e);
  }

  lemma StepKeepsSound(p: Provider, step: Step)
    requires Sound(p)
    ensures Sound(Next(p, step))
  {
    match step
    case Deliver(e) => if External(e) { DeliverKeepsSound(p, e); }
    case Process =>
      if !p.running && p.queue != [] {
        ProcessKeepsLedger(p);
        ProcessKeepsQueue(p);
        ProcessKeepsNew(p);
        ProcessKeepsPaid(p);
      }
    case Begin =>
    case Finish(reply) => if p.running { FinishKeepsSound(p, reply); }
  }

  predicate SameBills(p: Provider, p': Provider) {
    p'.deal.params == p.deal.params && p'.settled == p.settled && p'.limit == p.limit && p'.limitFunds == p.limitFunds
  }

  lemma BillsCarryOver(p: Provider, p': Provider)
    requires BillsSound(p) && SameBills(p, p')
    ensures BillsSound(p')
  {}

  lemma FundedKeepsBills(p: Provider, f: Funding, channel: Channel, updates: bool)
    requires BillsSound(p) && FundingBilled(p.deal, channel, f)
    ensures BillsSound(FundedBy(p, f, channel, updates))
  {}

  lemma StepKeepsBills(p: Provider, step: Step)
    requires BillsSound(p)
    ensures BillsSound(Next(p, step)) && Next(p, step).deal.params == p.deal.params
  {
    if step.Process? && p.queue != [] {
      EventMoney(p.deal, p.queue[0]);
    }
    if step.Finish? && NeedsFunds(p.deal.status) && p.deal.channelID.Some? && step.reply.channel.Some? {
      var channel := step.reply.channel.value;
      var f := UpdateFunding(p.deal, p.best, channel, step.reply.saves);
      FundingIsBilled(p.deal, p.best, channel, step.reply.saves);
      FundedKeepsBills(p, f, channel, step.reply.updates);
      BillsCarryOver(p, p);
    } else {
      BillsCarryOver(p, Next(p, step));
    }
  }

  lemma StartSound(params: Params)
    ensures Sound(Start(params)) && BillsSound(Start(params))
  {
    NoPayments(Start(params).queue);
  }

  lemma {:induction false} AlwaysSound(params: Params, steps: seq<Step>)
    ensures Sound(Run(Start(params), steps)) && BillsSound(Run(Start(params), steps))
    ensures Run(Start(params), steps).deal.params == params
  {
    if steps == [] {
      StartSound(params);
    } else {
      AlwaysSound(params, steps[..|steps| - 1]);
      StepKeepsSound(Run(Start(params), steps[..|steps| - 1]), steps[|steps| - 1]);
      StepKeepsBills(Run(Start(params), steps[..|steps| - 1]), steps[|steps| - 1]);
    }
  }

  // ---------------------------------------------------------------- theorems

  /** Nothing is owed for the channel's bytes; in finalization every byte is paid. */
  predicate PaidInFull(params: Params, funds: int, channel: Channel) {
    && OutstandingBalance(params, funds, channel.queued, channel.inFinalization) == 0
    && (channel.inFinalization && channel.queued < INT64_LIMIT ==> funds >= VoucherAmount(params, channel.queued))
  }

  /**
   The provider never works unpaid: in every run it unseals, serves or finalizes only with
   the unseal price received, and it finalizes only with the whole bill for the bytes queued
   paid; in a finalizing channel that bill is the price of every byte.
   */
  lemma NeverWorksUnpaid(params: Params, steps: seq<Step>)
    ensures var p := Run(Start(params), steps);
            && (Worked(p.deal.status) ==> p.deal.fundsReceived >= params.unsealPrice)
            && (p.deal.status.Finalizing? ==>
                  && p.settled.Some? && p.settled.value.total == p.deal.fundsReceived
                  && PaidInFull(params, p.deal.fundsReceived, p.settled.value.channel))
  {
    AlwaysSound(params, steps);
    var p := Run(Start(params), steps);
    if p.deal.status.Finalizing? && p.settled.value.channel.queued < INT64_LIMIT {
      FinalBillIsVoucher(params, p.deal.fundsReceived, p.settled.value.channel.queued);
    }
  }

  /**
   The provider's ledger: funds received are the sum of the full and partial payments
   recorded, and for a live deal they equal the best voucher on the lane once the payment
   still queued, if any, is counted.
   */
  lemma LedgerMatchesLane(params: Params, steps: seq<Step>)
    ensures var p := Run(Start(params), steps);
            && p.deal.fundsReceived == Payments(p.accepted)
            && (Live(p.deal.status) ==> p.best == p.deal.fundsReceived + Payments(p.queue))
            && (Live(p.deal.status) && p.running ==> p.best == p.deal.fundsReceived)
  {
    AlwaysSound(params, steps);
    var p := Run(Start(params), steps);
    if p.running {
      NoPayments(p.queue);
    }
  }

  /**
   The data limit in force on a live deal is the interval boundary its best voucher buys, so
   no more than one payment interval can ever be sent beyond the bytes paid for.
   */
  lemma LimitMatchesVoucher(params: Params, steps: seq<Step>)
    requires params.pricePerByte > 0 && Tame(params)
    ensures var p := Run(Start(params), steps);
            Live(p.deal.status) && DataTransferError !in p.queue && CoverageFits(params, p.best) ==>
              var paid := BytesCovered(params, p.best);
              && p.limit == NextBoundary(params, paid)
              && p.limit - paid <= params.IntervalSize(IntervalOf(params, paid))
  {
    AlwaysSound(params, steps);
    var p := Run(Start(params), steps);
    if Live(p.deal.status) && DataTransferError !in p.queue && CoverageFits(params, p.best) {
      assert p.limit == NextInterval(params, p.best);
      LimitOfCovered(params, p.best);
      UnpaidBytesWithinOneInterval(params, p.best, 0);
    }
  }
}
