/**
 Client and provider running side by side, every step of either at any moment.  The
 transfer channel connects them: the vouchers the provider reads from it are vouchers the
 client made, and the client is handed the provider's responses.

 The safety theorems hold for all such runs, with messages lost, delayed, repeated or
 invented.  States that can be reached are reached by wired runs, in which nothing is
 invented: every response the client gets was sent by the provider, each once and in order,
 the channel shows the client's last voucher and at least the bytes it has received, and the
 provider runs a handler only when an event has asked for one.
 */
module JointRuns {
  import opened Intervals
  import opened Billing
  import C = ClientFsm
  import M = ClientMachine
  import ClientLedger
  import P = ProviderFsm
  import R = ProviderRuns
  import Exchange

  datatype Joint = Joint(
    client: M.Client,
    provider: R.Provider,
    delivered: nat)        // how many of the provider's responses the client was handed

  datatype JointStep = ByClient(client: M.Step) | ByProvider(provider: R.Step) | Answer

  /** A payment voucher on the channel comes from the client. */
  predicate Genuine(vouchers: seq<int>, step: R.Step) {
    step.Finish? && step.reply.channel.Some? && step.reply.channel.value.lastVoucher.Payment? ==>
      step.reply.channel.value.lastVoucher.amount in vouchers
  }

  function Next(j: Joint, step: JointStep): Joint {
    match step
    case ByClient(s) => j.(client := M.Next(j.client, s))
    case ByProvider(s) => if Genuine(j.client.vouchers, s) then j.(provider := R.Next(j.provider, s)) else j
    case Answer =>
      if j.delivered < |j.provider.responses|
      then j.(client := M.Next(j.client, M.Deliver(NextAnswer(j))), delivered := j.delivered + 1)
      else j
  }

  /** The event that the next response causes at the client. */
  function NextAnswer(j: Joint): C.ClientEvent
    requires j.delivered < |j.provider.responses|
  {
    Exchange.ClientEventForResponse(j.provider.responses[j.delivered])
  }

  function Begin(params: Params, totalFunds: int): Joint {
    Joint(M.Start(params, totalFunds), R.Start(params), 0)
  }

  function Run(params: Params, totalFunds: int, steps: seq<JointStep>): Joint {
    if steps == [] then Begin(params, totalFunds)
    else Next(Run(params, totalFunds, steps[..|steps| - 1]), steps[|steps| - 1])
  }

  /** What the provider has saved on its lane is nothing, or one of the client's vouchers. */
  predicate LaneHoldsVoucher(best: nat, vouchers: seq<int>) {
    best == 0 || best in vouchers
  }

  lemma ClientKeepsVouchers(c: M.Client, step: M.Step)
    ensures c.vouchers <= M.Next(c, step).vouchers
  {}

  /** The lane only ever moves to a larger voucher read from the channel. */
  lemma LaneMovesToVoucher(best: nat, d: P.ProviderDeal, channel: P.Channel, saves: bool)
    ensures var received := P.UpdateFunding(d, best, channel, saves).received;
            received == 0 || (channel.lastVoucher.Payment? && best + received == channel.lastVoucher.amount)
  {}

  lemma ProviderKeepsLane(p: R.Provider, step: R.Step, vouchers: seq<int>)
    requires LaneHoldsVoucher(p.best, vouchers) && Genuine(vouchers, step)
    ensures LaneHoldsVoucher(R.Next(p, step).best, vouchers)
  {
    if step.Finish? && step.reply.channel.Some? {
      LaneMovesToVoucher(p.best, p.deal, step.reply.channel.value, step.reply.saves);
    }
  }

  lemma {:induction false} JointInvariant(params: Params, totalFunds: int, steps: seq<JointStep>)
    ensures var j := Run(params, totalFunds, steps);
            M.Reachable(params, totalFunds, j.client) && R.Sound(j.provider) &&
            LaneHoldsVoucher(j.provider.best, j.client.vouchers)
  {
    if steps == [] {
      M.StartReachable(params, totalFunds);
      R.StartSound(params);
    } else {
      var j, step := Run(params, totalFunds, steps[..|steps| - 1]), steps[|steps| - 1];
      JointInvariant(params, totalFunds, steps[..|steps| - 1]);
      match step
      case ByClient(s) =>
        M.ReachableNext(params, totalFunds, j.client, s);
        ClientKeepsVouchers(j.client, s);
      case ByProvider(s) =>
        if Genuine(j.client.vouchers, s) {
          R.StepKeepsSound(j.provider, s);
          ProviderKeepsLane(j.provider, s, j.client.vouchers);
        }
      case Answer =>
        if j.delivered < |j.provider.responses| {
          M.ReachableNext(params, totalFunds, j.client, M.Deliver(NextAnswer(j)));
          ClientKeepsVouchers(j.client, M.Deliver(NextAnswer(j)));
        }
    }
  }

  /**
   Both ledgers are backed by data: however the two sides interleave, what the provider has
   on its lane, and what a live deal has booked or is about to book, is at most the price of
   the bytes the client has received.
   */
  lemma BookedWithinReceived(params: Params, totalFunds: int, steps: seq<JointStep>)
    ensures var j := Run(params, totalFunds, steps);
            var price := VoucherAmount(params, j.client.deal.totalReceived);
            && j.provider.best <= price
            && j.client.deal.fundsSpent <= price
            && (R.Live(j.provider.deal.status) ==>
                  j.provider.deal.fundsReceived + R.Payments(j.provider.queue) == j.provider.best)
  {
    JointInvariant(params, totalFunds, steps);
    var j := Run(params, totalFunds, steps);
    var clientSteps := M.RunTo(params, totalFunds, j.client);
    ClientLedger.NeverOverpays(params, totalFunds, clientSteps);
    Scale(0, j.client.deal.totalReceived, params.pricePerByte);
    if j.provider.best != 0 {
      var i :| 0 <= i < |j.client.vouchers| && j.client.vouchers[i] == j.provider.best;
    }
  }

  // ---------------------------------------------------------------- wired runs

  /** The event stands for a response of the provider. */
  predicate FromResponse(e: C.ClientEvent) {
    e.DealRejected? || e.DealNotFound? || e.DealAccepted? || e.UnsealPaymentRequested? || e.LastPaymentRequested? ||
    e.PaymentRequested? || e.Complete? || e.UnknownResponseReceived?
  }

  /** Every response causes such an event, so these are all of them. */
  lemma ResponsesAreAnswers(j: Joint)
    requires j.delivered < |j.provider.responses|
    ensures FromResponse(NextAnswer(j))
  {}

  /** What the channel carries of the client's vouchers: the last one, or still the proposal. */
  function LastVoucher(vouchers: seq<int>): P.Voucher {
    if vouchers == [] || vouchers[|vouchers| - 1] < 0 then P.Proposal else P.Payment(vouchers[|vouchers| - 1])
  }

  /** The channel shows the client's last voucher and at least the bytes it has received. */
  predicate Shows(channel: P.Channel, c: M.Client) {
    channel.lastVoucher == LastVoucher(c.vouchers) && channel.queued >= c.received
  }

  /** The step invents nothing. */
  predicate Wired(j: Joint, step: JointStep) {
    match step
    case ByClient(s) => s.Deliver? ==> !FromResponse(s.event)
    case ByProvider(s) => Honest(j, s)
    case Answer => true
  }

  /** The provider's step sees the channel as it is, and starts a handler only when one is due. */
  predicate Honest(j: Joint, s: R.Step) {
    && (s.Finish? && s.reply.channel.Some? ==> Shows(s.reply.channel.value, j.client))
    && (s.Begin? ==> j.provider.due)
  }

  /** The i-th step leads from the i-th state to the next and invents nothing. */
  predicate Linked(states: seq<Joint>, steps: seq<JointStep>, i: nat)
    requires i < |steps| && |states| == |steps| + 1
  {
    Wired(states[i], steps[i]) && states[i + 1] == Next(states[i], steps[i])
  }

  ghost predicate Path(states: seq<Joint>, steps: seq<JointStep>) {
    && |states| == |steps| + 1
    && forall i :: 0 <= i < |steps| ==> Linked(states, steps, i)
  }

  /** A wired run from one joint state to another. */
  ghost predicate Leads(j: Joint, j': Joint) {
    exists states, steps :: Path(states, steps) && states[0] == j && states[|steps|] == j'
  }

  /** Any joint state some wired run leads to. */
  ghost predicate Reachable(params: Params, totalFunds: int, j: Joint) {
    Leads(Begin(params, totalFunds), j)
  }

  lemma LeadsNowhere(j: Joint)
    ensures Leads(j, j)
  {
    assert Path([j], []);
  }

  lemma LeadsFurther(j: Joint, i: Joint, step: JointStep)
    requires Leads(j, i) && Wired(i, step)
    ensures Leads(j, Next(i, step))
  {
    var states, steps :| Path(states, steps) && states[0] == j && states[|steps|] == i;
    var states', steps' := states + [Next(i, step)], steps + [step];
    forall k | 0 <= k < |steps'| ensures Linked(states', steps', k) {
      if k < |steps| {
        assert Linked(states, steps, k);
      }
    }
    assert Path(states', steps');
  }

  lemma LeadsOn(a: Joint, b: Joint, c: Joint)
    requires Leads(a, b) && Leads(b, c)
    ensures Leads(a, c)
  {
    var states, steps :| Path(states, steps) && states[0] == b && states[|steps|] == c;
    LeadsAlong(a, states, steps, |steps|);
  }

  lemma {:induction false} LeadsAlong(a: Joint, states: seq<Joint>, steps: seq<JointStep>, n: nat)
    requires Path(states, steps) && Leads(a, states[0]) && n <= |steps|
    ensures Leads(a, states[n])
  {
    if n > 0 {
      LeadsAlong(a, states, steps, n - 1);
      assert Linked(states, steps, n - 1);
      LeadsFurther(a, states[n - 1], steps[n - 1]);
    }
  }

  lemma BeginReachable(params: Params, totalFunds: int)
    ensures Reachable(params, totalFunds, Begin(params, totalFunds))
  {
    LeadsNowhere(Begin(params, totalFunds));
  }

  lemma OneStep(params: Params, totalFunds: int, j: Joint, step: JointStep)
    requires Reachable(params, totalFunds, j) && Wired(j, step)
    ensures Reachable(params, totalFunds, Next(j, step)) && Leads(j, Next(j, step))
  {
    LeadsFurther(Begin(params, totalFunds), j, step);
    LeadsNowhere(j);
    LeadsFurther(j, j, step);
  }

  /** A wired run is a run. */
  lemma {:induction false} PathIsRun(params: Params, totalFunds: int, states: seq<Joint>, steps: seq<JointStep>, n: nat)
    requires Path(states, steps) && states[0] == Begin(params, totalFunds) && n <= |steps|
    ensures Run(params, totalFunds, steps[..n]) == states[n]
  {
    if n > 0 {
      PathIsRun(params, totalFunds, states, steps, n - 1);
      assert steps[..n][..n - 1] == steps[..n - 1];
      assert Linked(states, steps, n - 1);
    }
  }

  lemma ClientReachable(params: Params, totalFunds: int, j: Joint)
    requires Reachable(params, totalFunds, j)
    ensures M.Reachable(params, totalFunds, j.client)
  {
    var states, steps :| Path(states, steps) && states[0] == Begin(params, totalFunds) && states[|steps|] == j;
    PathIsRun(params, totalFunds, states, steps, |steps|);
    JointInvariant(params, totalFunds, steps[..|steps|]);
  }

  lemma ClientSteps(params: Params, totalFunds: int, j: Joint, s: M.Step)
    requires Reachable(params, totalFunds, j) && (s.Deliver? ==> !FromResponse(s.event))
    ensures var j' := j.(client := M.Next(j.client, s));
            Reachable(params, totalFunds, j') && Leads(j, j')
  {
    OneStep(params, totalFunds, j, ByClient(s));
  }

  lemma ProviderSteps(params: Params, totalFunds: int, j: Joint, s: R.Step)
    requires Reachable(params, totalFunds, j) && Honest(j, s)
    ensures var j' := j.(provider := R.Next(j.provider, s));
            Reachable(params, totalFunds, j') && Leads(j, j')
  {
    OneStep(params, totalFunds, j, ByProvider(s));
  }

  lemma Answers(params: Params, totalFunds: int, j: Joint)
    requires Reachable(params, totalFunds, j) && j.delivered < |j.provider.responses|
    ensures var j' := j.(client := M.Next(j.client, M.Deliver(NextAnswer(j))), delivered := j.delivered + 1);
            Reachable(params, totalFunds, j') && Leads(j, j')
  {
    OneStep(params, totalFunds, j, Answer);
  }
}
