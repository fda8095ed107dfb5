/**
 Where a retrieval client can come to rest.  A client is idle when nothing is queued and no
 handler runs; it then moves only if something happens outside.  In every run an idle client
 is in a status that is meant to wait, with two exceptions in the event table, and it never
 waits for data while it holds data it should pay for and owes what it was asked.
 */
module ClientProgress {
  import opened Intervals
  import opened Billing
  import opened Deals
  import opened ClientFsm
  import opened ClientMachine
  import opened ClientLedger
  import Exchange
  import P = ProviderFsm

  /** The event makes the entry handler run. */
  predicate Runs(s: DealStatus, e: ClientEvent) {
    !IsFinal(s) && (Target(s, e).To? || Target(s, e).NoChange?)
  }

  /** The deal's entry handler has something to do: it triggers an event whatever its environment answers. */
  predicate Restless(d: ClientDeal) {
    match d.status
    case Ongoing => d.paymentRequested > 0
    case FundsNeeded | FundsNeededLastPayment => ProcessPaymentRequested(d).triggered != []
    case WaitForAcceptance | WaitForAcceptanceLegacy | BlocksComplete | ClientWaitingForLastBlocks
       | InsufficientFunds | Finalizing | Completed | Errored | Cancelled | Rejected | DealNotFound
       | Unsealing | Unsealed | FundsNeededUnseal | Completing => false
    case _ => true
  }

  /** Statuses in which the table has no entry for the error their handler reports. */
  predicate Deaf(s: DealStatus) {
    s.PaymentChannelAddingInitialFunds? || s.CheckFunds?
  }

  /** Some queued event will make the handler of this status run. */
  ghost predicate Roused(s: DealStatus, queue: seq<ClientEvent>) {
    exists i :: 0 <= i < |queue| && Runs(s, queue[i])
  }

  /** A deal with something to do has a handler in flight or an event on its way. */
  ghost predicate Attended(c: Client) {
    c.running || c.panicked || !Restless(c.deal) || Deaf(c.deal.status) || Roused(c.deal.status, c.queue)
  }

  /** What a handler triggers makes a handler run, except an error reported in one of the two deaf statuses. */
  predicate TriggersRun(s: DealStatus, o: Outcome) {
    && |o.triggered| <= 1
    && (o.triggered != [] ==>
          (Runs(s, o.triggered[0]) <==> !(Deaf(s) && o.triggered[0].PaymentChannelErrored?)))
  }

  lemma SetupTriggersRun(d: ClientDeal, reply: Reply)
    ensures d.status.Accepted? ==> TriggersRun(d.status, SetupPaymentChannelStart(d, reply))
    ensures d.status.PaymentChannelAllocatingLane? ==> TriggersRun(d.status, AllocateLane(d, reply))
    ensures d.status.New? || d.status.RetryLegacy? ==> TriggersRun(d.status, ProposeDeal(reply))
  {}

  lemma WaitingTriggersRun(d: ClientDeal, reply: Reply)
    requires d.status.PaymentChannelCreating? || d.status.PaymentChannelAddingInitialFunds? || d.status.PaymentChannelAddingFunds?
    ensures TriggersRun(d.status, WaitPaymentChannelReady(d, reply))
  {}

  lemma PayingTriggersRun(d: ClientDeal, reply: Reply)
    ensures d.status.SendFunds? || d.status.SendFundsLastPayment? ==> TriggersRun(d.status, SendFundsHandler(d, reply))
    ensures d.status.FundsNeeded? || d.status.FundsNeededLastPayment? ==> TriggersRun(d.status, ProcessPaymentRequested(d))
    ensures d.status.Ongoing? ==> TriggersRun(d.status, OngoingHandler(d))
  {}

  lemma CheckingTriggersRun(d: ClientDeal, reply: Reply)
    requires d.status.CheckFunds?
    ensures TriggersRun(d.status, CheckFundsHandler(d, reply))
  {}

  lemma CancellingTriggersRun(d: ClientDeal, reply: Reply)
    requires d.status.Failing? || d.status.Cancelling?
    ensures TriggersRun(d.status, CancelDeal(d, reply))
  {}

  lemma EndingTriggersRun(d: ClientDeal, reply: Reply)
    ensures d.status.CheckComplete? ==> TriggersRun(d.status, CheckCompleteHandler(d))
    ensures d.status.FinalizingBlockstore? ==> TriggersRun(d.status, FinalizeBlockstore(reply))
    ensures d.status.Erroring? || d.status.Rejecting? || d.status.DealNotFoundCleanup? ==>
              TriggersRun(d.status, Trigger(BlockstoreFinalized))
  {}

  lemma TriggeredEventsRun(d: ClientDeal, reply: Reply)
    ensures TriggersRun(d.status, Handle(d, reply))
  {
    match d.status
    case New | RetryLegacy | Accepted | PaymentChannelAllocatingLane => SetupTriggersRun(d, reply);
    case PaymentChannelCreating | PaymentChannelAddingInitialFunds | PaymentChannelAddingFunds =>
      WaitingTriggersRun(d, reply);
    case Ongoing | FundsNeeded | FundsNeededLastPayment | SendFunds | SendFundsLastPayment => PayingTriggersRun(d, reply);
    case CheckFunds => CheckingTriggersRun(d, reply);
    case Failing | Cancelling => CancellingTriggersRun(d, reply);
    case _ => EndingTriggersRun(d, reply);
  }

  lemma RestlessTriggers(d: ClientDeal, reply: Reply)
    ensures Restless(d) && !Handle(d, reply).panics ==> Handle(d, reply).triggered != []
  {}

  /** An event that is only recorded gives a deal nothing new to do. */
  lemma RecordingStaysQuiet(d: ClientDeal, e: ClientEvent)
    requires Accepts(d.status, e) && !Runs(d.status, e) && (e.PaymentSent? ==> d.fundsSpent <= e.amount)
    ensures Restless(Act(d, e)) ==> Restless(d)
  {
    RecordedStatuses(d.status, e);
  }

  lemma RecordedStatuses(s: DealStatus, e: ClientEvent)
    requires Accepts(s, e) && !Runs(s, e)
    ensures !s.FundsNeeded? && !s.FundsNeededLastPayment?
    ensures s.Ongoing? ==> e.PaymentSent? || e.PaymentNotSent?
  {}

  lemma ProcessKeepsAttended(c: Client)
    requires Attended(c) && MoneySafe(c) && c.queue != [] && !c.running && !c.panicked
    ensures Attended(Processed(c))
  {
    var e, c' := c.queue[0], Processed(c);
    if !ActPanics(c.deal, e) && !c'.running {
      assert EventSound(c.deal, c.received, e);
      QuietEvent(c.deal, e);
      if Roused(c.deal.status, c.queue) {
        var i :| 0 <= i < |c.queue| && Runs(c.deal.status, c.queue[i]);
        assert c'.queue[i - 1] == c.queue[i];
      }
    }
  }

  /** An event after which no handler runs leaves the status, and gives the deal nothing new to do. */
  lemma QuietEvent(d: ClientDeal, e: ClientEvent)
    requires !Apply(d, e).runs && (e.PaymentSent? ==> d.fundsSpent <= e.amount)
    ensures Apply(d, e).deal.status == d.status && !Runs(d.status, e)
    ensures Restless(Apply(d, e).deal) ==> Restless(d)
  {
    if !IsFinal(d.status) {
      QuietPlan(d, Act(d, e), Target(d.status, e));
    }
    if Accepts(d.status, e) {
      ActKeepsTerms(d, e);
      RecordingStaysQuiet(d, e);
    }
  }

  lemma QuietPlan(d: ClientDeal, acted: ClientDeal, t: Transition)
    requires !Planned(d, acted, t).runs
    ensures t.JustRecord? || t.Dropped?
    ensures Planned(d, acted, t).deal == if t.JustRecord? then acted else d
  {}

  lemma FinishKeepsAttended(c: Client, reply: Reply)
    ensures Attended(Finished(c, reply))
  {
    var o, c' := Handle(c.deal, reply), Finished(c, reply);
    TriggeredEventsRun(c.deal, reply);
    RestlessTriggers(c.deal, reply);
    if o.triggered != [] {
      assert c'.queue[|c.queue|] == o.triggered[0];
    }
  }

  lemma DeliverKeepsAttended(c: Client, e: ClientEvent)
    requires Attended(c)
    ensures Attended(Delivered(c, e))
  {
    if Roused(c.deal.status, c.queue) {
      var i :| 0 <= i < |c.queue| && Runs(c.deal.status, c.queue[i]);
      assert Delivered(c, e).queue[i] == c.queue[i];
    }
  }

  lemma {:induction false} AlwaysAttended(params: Params, totalFunds: int, steps: seq<Step>)
    ensures Attended(Run(Start(params, totalFunds), steps))
  {
    if steps == [] {
      assert Runs(New, Start(params, totalFunds).queue[0]);
    } else {
      var before, step := steps[..|steps| - 1], steps[|steps| - 1];
      var c := Run(Start(params, totalFunds), before);
      AlwaysAttended(params, totalFunds, before);
      AlwaysMoneySafe(params, totalFunds, before);
      match step
      case Deliver(e) => DeliverKeepsAttended(c, e);
      case Process => if !c.running && c.queue != [] && !c.panicked { ProcessKeepsAttended(c); }
      case Finish(reply) => FinishKeepsAttended(c, reply);
    }
  }

  /** In every run, an idle client has nothing to do, unless an error was reported to a deaf status. */
  lemma RestsOnlyWithNothingToDo(params: Params, totalFunds: int, c: Client)
    requires Reachable(params, totalFunds, c) && Idle(c)
    ensures Restless(c.deal) ==> Deaf(c.deal.status)
  {
    var steps := RunTo(params, totalFunds, c);
    AlwaysAttended(params, totalFunds, steps);
  }

  // ---------------------------------------------------------------- at the data limit

  /**
   In every run, an idle client that was asked for more than it has paid is not waiting at
   its data limit: idle in the transfer it has been asked for no more than it has paid, and
   idle with funds needed it has paid for unsealing, it is below the limit of what it has
   paid, and if it has all blocks they are paid for.
   */
  lemma NeverParkedAtLimit(params: Params, totalFunds: int, steps: seq<Step>)
    requires params.pricePerByte > 0 && Tame(params) && Idle(Run(Start(params, totalFunds), steps))
    ensures var c := Run(Start(params, totalFunds), steps);
            && (c.deal.status.Ongoing? ==> AmountsOwed(c.accepted) <= c.deal.fundsSpent)
            && (c.deal.status.FundsNeeded? || c.deal.status.FundsNeededLastPayment? ==>
                  && c.deal.fundsSpent >= params.unsealPrice
                  && c.deal.totalReceived < NextInterval(params, c.deal.fundsSpent)
                  && (c.deal.allBlocksReceived ==> c.deal.bytesPaidFor == c.deal.totalReceived))
  {
    var c := Run(Start(params, totalFunds), steps);
    AlwaysAttended(params, totalFunds, steps);
    AlwaysMoneySafe(params, totalFunds, steps);
    SameTerms(params, totalFunds, steps);
    LedgerConserved(params, totalFunds, steps);
    if c.deal.status.FundsNeeded? || c.deal.status.FundsNeededLastPayment? {
      if c.deal.totalReceived >= NextInterval(params, c.deal.fundsSpent) {
        Exchange.BeyondInterval(c.deal);
      }
    }
  }

  /** So a provider in step with a client that is idle with funds needed has nothing to ask for. */
  lemma NothingToAskFor(params: Params, totalFunds: int, steps: seq<Step>, p: P.ProviderDeal, best: nat,
                        channel: P.Channel)
    requires params.pricePerByte > 0 && Tame(params) && Idle(Run(Start(params, totalFunds), steps))
    requires var d := Run(Start(params, totalFunds), steps).deal;
             (d.status.FundsNeeded? || d.status.FundsNeededLastPayment?) && Exchange.InStep(d, p, best, channel)
    ensures OutstandingBalance(params, best, channel.queued, false) == 0
  {
    NeverParkedAtLimit(params, totalFunds, steps);
    AlwaysMoneySafe(params, totalFunds, steps);
    SameTerms(params, totalFunds, steps);
    Exchange.SpentIsPriceOfPaid(Run(Start(params, totalFunds), steps).deal);
    BillMatchesLimit(params, best, channel.queued);
  }
}
