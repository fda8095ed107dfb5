/**
 Honest completion of the retrieval client: a deal completes only with all blocks
 received or after a last-payment request, and the last-payment statuses are reached
 only after such a request.
 */
module ClientCompletion {
  import opened Intervals
  import opened Deals
  import opened ClientFsm
  import opened ClientMachine

  predicate LastPaymentStatus(s: DealStatus) {
    s.FundsNeededLastPayment? || s.SendFundsLastPayment? || s.Finalizing?
  }

  predicate DealHonest(d: ClientDeal) {
    && (LastPaymentStatus(d.status) ==> d.lastPaymentRequested)
    && (d.status.FinalizingBlockstore? || d.status.Completed? ==> d.allBlocksReceived || d.lastPaymentRequested)
  }

  ghost predicate Honest(c: Client) {
    && DealHonest(c.deal)
    && (forall i :: 0 <= i < |c.queue| && c.queue[i].CompleteVerified? ==> c.deal.allBlocksReceived)
  }

  /** The two flags are only ever raised, each by its own event. */
  lemma ActionRaisesFlags(d: ClientDeal, e: ClientEvent)
    ensures var d' := Act(d, e);
            && d'.allBlocksReceived == (d.allBlocksReceived || e.AllBlocksReceived?)
            && d'.lastPaymentRequested == (d.lastPaymentRequested || e.LastPaymentRequested?)
  {}

  lemma TableHonest(s: DealStatus, e: ClientEvent, s': DealStatus)
    requires Accepts(s, e)
    requires s' == if Target(s, e).To? then Target(s, e).status else s
    ensures LastPaymentStatus(s') ==> e.LastPaymentRequested? || LastPaymentStatus(s)
    ensures s'.FinalizingBlockstore? || s'.Completed? ==>
              e.AllBlocksReceived? || e.CompleteVerified? || LastPaymentStatus(s) || s.FinalizingBlockstore?
  {}

  lemma EventKeepsHonest(d: ClientDeal, e: ClientEvent)
    requires DealHonest(d) && (e.CompleteVerified? ==> d.allBlocksReceived)
    ensures DealHonest(Apply(d, e).deal)
    ensures d.allBlocksReceived ==> Apply(d, e).deal.allBlocksReceived
  {
    var d' := Apply(d, e).deal;
    ApplyEffect(d, e);
    ActionRaisesFlags(d, e);
    if Accepts(d.status, e) {
      TableHonest(d.status, e, d'.status);
    }
  }

  lemma VerifiesOnlyWithAllBlocks(d: ClientDeal, reply: Reply)
    ensures var o := Handle(d, reply);
            forall i :: 0 <= i < |o.triggered| && o.triggered[i].CompleteVerified? ==> d.allBlocksReceived
  {}

  lemma StepKeepsHonest(c: Client, step: Step)
    requires Honest(c)
    ensures Honest(Next(c, step))
  {
    match step
    case Deliver(e) =>
    case Process =>
      if c.queue != [] {
        EventKeepsHonest(c.deal, c.queue[0]);
      }
    case Finish(reply) => VerifiesOnlyWithAllBlocks(c.deal, reply);
  }

  lemma {:induction false} AlwaysHonest(params: Params, totalFunds: int, steps: seq<Step>)
    ensures Honest(Run(Start(params, totalFunds), steps))
  {
    if steps != [] {
      AlwaysHonest(params, totalFunds, steps[..|steps| - 1]);
      StepKeepsHonest(Run(Start(params, totalFunds), steps[..|steps| - 1]), steps[|steps| - 1]);
    }
  }

  /** In every run, completion means all blocks, unless the provider asked for a last payment. */
  lemma CompletesHonestly(params: Params, totalFunds: int, c: Client)
    requires Reachable(params, totalFunds, c)
    ensures c.deal.status.Completed? && !c.deal.lastPaymentRequested ==> c.deal.allBlocksReceived
    ensures LastPaymentStatus(c.deal.status) ==> c.deal.lastPaymentRequested
  {
    var steps := RunTo(params, totalFunds, c);
    AlwaysHonest(params, totalFunds, steps);
  }
}
