/**
 Runs of the retrieval client: a deal, its queue of events and the handler in flight.

 The state-machine library delivers events first in, first out.  While an entry handler
 runs the deal does not change and new events queue up; the handler works on a snapshot
 and the events it triggers join the end of the queue.  The transfer layer and the user
 may deliver external events at any moment.
 */
module ClientMachine {
  import opened Words
  import opened Intervals
  import opened ClientFsm

  datatype Client = Client(
    deal: ClientDeal,
    queue: seq<ClientEvent>,
    running: bool,                  // an entry handler is in flight
    received: nat,                  // last byte counter reported by the transfer layer
    vouchers: seq<int>,             // amounts of the vouchers created so far
    accepted: seq<ClientEvent>,     // events processed so far that the table accepted
    panicked: bool)                 // a nil pointer was dereferenced

  datatype Step =
    | Deliver(event: ClientEvent)
    | Process
    | Finish(reply: Reply)

  /** Events that come from outside: data transfer (dtutils) and the user's API calls. */
  predicate External(e: ClientEvent) {
    e.BlocksReceived? || e.AllBlocksReceived? || e.ProviderCancelled? || e.DealRejected? || e.DealNotFound? ||
    e.DealAccepted? || e.UnsealPaymentRequested? || e.LastPaymentRequested? || e.PaymentRequested? ||
    e.Complete? || e.UnknownResponseReceived? || e.DataTransferError? || e.Cancel? || e.RecheckFunds?
  }

  /** The transfer layer's byte counter never decreases and stays in the signed 64-bit range. */
  predicate CanDeliver(c: Client, e: ClientEvent) {
    External(e) && (e.BlocksReceived? ==> c.received <= e.total < INT64_LIMIT)
  }

  /** `Client.Retrieve`: a new deal with its opening event queued. */
  function Start(params: Params, totalFunds: int): Client {
    Client(NewDeal(params, totalFunds), [Open], false, 0, [], [], false)
  }

  /** One step; a step that is not enabled leaves the client as it is. */
  function Next(c: Client, step: Step): Client {
    if c.panicked then c else
    match step
    case Deliver(e) => if CanDeliver(c, e) then Delivered(c, e) else c
    case Process => if c.running || c.queue == [] then c else Processed(c)
    case Finish(reply) => if c.running then Finished(c, reply) else c
  }

  function Delivered(c: Client, e: ClientEvent): Client {
    c.(queue := c.queue + [e], received := if e.BlocksReceived? then e.total else c.received)
  }

  function Processed(c: Client): Client
    requires c.queue != []
  {
    var e := c.queue[0];
    if ActPanics(c.deal, e) then c.(panicked := true) else
    var a := Apply(c.deal, e);
    c.(deal := a.deal, queue := c.queue[1..], running := a.runs,
       accepted := if Accepts(c.deal.status, e) then c.accepted + [e] else c.accepted)
  }

  function Finished(c: Client, reply: Reply): Client {
    var o := Handle(c.deal, reply);
    c.(queue := c.queue + o.triggered, running := false, panicked := o.panics,
       vouchers := if o.voucher.Some? then c.vouchers + [o.voucher.value] else c.vouchers)
  }

  /** The step of a run that takes the next event, carried out in place on the stored record. */
  method ProcessNext(record: DealRecord, queue: seq<ClientEvent>, ghost c: Client)
    returns (rest: seq<ClientEvent>, runs: bool)
    requires record.Snapshot() == c.deal && c.queue == queue && queue != [] && !c.running && !c.panicked
    requires !ActPanics(c.deal, queue[0]) && !ActHangs(c.deal, queue[0])
    modifies record
    ensures var c' := Next(c, Process);
            record.Snapshot() == c'.deal && rest == c'.queue && runs == c'.running && !c'.panicked
  {
    runs := record.Plan(queue[0]);
    rest := queue[1..];
  }

  /** The client after a whole run. */
  function Run(c: Client, steps: seq<Step>): Client {
    if steps == [] then c else Next(Run(c, steps[..|steps| - 1]), steps[|steps| - 1])
  }

  /** The i-th step leads from the i-th state to the next. */
  predicate Linked(states: seq<Client>, steps: seq<Step>, i: nat)
    requires i < |steps| && |states| == |steps| + 1
  {
    states[i + 1] == Next(states[i], steps[i])
  }

  ghost predicate Path(params: Params, totalFunds: int, states: seq<Client>, steps: seq<Step>) {
    && |states| == |steps| + 1 && states[0] == Start(params, totalFunds)
    && forall i :: 0 <= i < |steps| ==> Linked(states, steps, i)
  }

  /** Any client some run leads to. */
  ghost predicate Reachable(params: Params, totalFunds: int, c: Client) {
    exists states, steps :: Path(params, totalFunds, states, steps) && states[|steps|] == c
  }

  lemma ReachableNext(params: Params, totalFunds: int, c: Client, step: Step)
    requires Reachable(params, totalFunds, c)
    ensures Reachable(params, totalFunds, Next(c, step))
  {
    var states, steps :| Path(params, totalFunds, states, steps) && states[|steps|] == c;
    var states', steps' := states + [Next(c, step)], steps + [step];
    forall i | 0 <= i < |steps'| ensures Linked(states', steps', i) {
      if i < |steps| {
        assert Linked(states, steps, i);
      }
    }
    assert Path(params, totalFunds, states', steps');
  }

  lemma StartReachable(params: Params, totalFunds: int)
    ensures Reachable(params, totalFunds, Start(params, totalFunds))
  {
    assert Path(params, totalFunds, [Start(params, totalFunds)], []);
  }

  lemma {:induction false} PathIsRun(params: Params, totalFunds: int, states: seq<Client>, steps: seq<Step>, n: nat)
    requires Path(params, totalFunds, states, steps) && n <= |steps|
    ensures Run(Start(params, totalFunds), steps[..n]) == states[n]
  {
    if n > 0 {
      PathIsRun(params, totalFunds, states, steps, n - 1);
      assert steps[..n][..n - 1] == steps[..n - 1];
      assert Linked(states, steps, n - 1);
    }
  }

  /** The reachable clients are those at the end of some run. */
  lemma RunTo(params: Params, totalFunds: int, c: Client) returns (steps: seq<Step>)
    requires Reachable(params, totalFunds, c)
    ensures Run(Start(params, totalFunds), steps) == c
  {
    var states, all :| Path(params, totalFunds, states, all) && states[|all|] == c;
    PathIsRun(params, totalFunds, states, all, |all|);
    steps := all[..|all|];
  }

  lemma {:induction false} RunReaches(params: Params, totalFunds: int, steps: seq<Step>)
    ensures Reachable(params, totalFunds, Run(Start(params, totalFunds), steps))
  {
    if steps == [] {
      StartReachable(params, totalFunds);
    } else {
      RunReaches(params, totalFunds, steps[..|steps| - 1]);
      ReachableNext(params, totalFunds, Run(Start(params, totalFunds), steps[..|steps| - 1]), steps[|steps| - 1]);
    }
  }

  // ---------------------------------------------------------------- undisturbed turns

  /** Nothing queued, nothing in flight. */
  predicate Idle(c: Client) {
    c.queue == [] && !c.running && !c.panicked
  }

  /** The client handles its only queued event, and its handler completes, before anything else arrives. */
  function Turn(c: Client, reply: Reply): Client {
    Next(Next(c, Process), Finish(reply))
  }

  lemma TurnEffect(c: Client, e: ClientEvent, reply: Reply)
    requires c.queue == [e] && !c.running && !c.panicked && !ActPanics(c.deal, e) && Apply(c.deal, e).runs
    ensures var deal := Apply(c.deal, e).deal;
            var o := Handle(deal, reply);
            var c' := Turn(c, reply);
            && c'.deal == deal && c'.queue == o.triggered && !c'.running && c'.panicked == o.panics
            && c'.vouchers == (if o.voucher.Some? then c.vouchers + [o.voucher.value] else c.vouchers)
            && c'.received == c.received
  {}

  lemma TurnReachable(params: Params, totalFunds: int, c: Client, reply: Reply)
    requires Reachable(params, totalFunds, c)
    ensures Reachable(params, totalFunds, Turn(c, reply))
  {
    ReachableNext(params, totalFunds, c, Process);
    ReachableNext(params, totalFunds, Next(c, Process), Finish(reply));
  }

  lemma IdleDeliver(c: Client, e: ClientEvent)
    requires Idle(c) && CanDeliver(c, e)
    ensures var c' := Next(c, Deliver(e));
            && c'.queue == [e] && !c'.running && !c'.panicked && c'.deal == c.deal && c'.vouchers == c.vouchers
            && c'.received == (if e.BlocksReceived? then e.total else c.received)
  {}

  /** Between turns of some run: the deal, and the events waiting for it. */
  ghost predicate Between(params: Params, totalFunds: int, c: Client, d: ClientDeal, queue: seq<ClientEvent>) {
    Reachable(params, totalFunds, c) && !c.running && !c.panicked && c.deal == d && c.queue == queue
  }

  /** The vouchers a handler makes. */
  function Made(o: Outcome): seq<int> {
    if o.voucher.Some? then [o.voucher.value] else []
  }

  /** The waiting event is taken up and its handler completes. */
  lemma Take(params: Params, totalFunds: int, c: Client, d: ClientDeal, e: ClientEvent, reply: Reply) returns (c': Client)
    requires Between(params, totalFunds, c, d, [e])
    requires !ActPanics(d, e) && Apply(d, e).runs && !Handle(Apply(d, e).deal, reply).panics
    ensures c' == Turn(c, reply)
    ensures var o := Handle(Apply(d, e).deal, reply);
            && Between(params, totalFunds, c', Apply(d, e).deal, o.triggered)
            && c'.received == c.received && c'.vouchers == c.vouchers + Made(o)
  {
    c' := Turn(c, reply);
    TurnEffect(c, e, reply);
    TurnReachable(params, totalFunds, c, reply);
  }

  /** An external event arrives and is taken up. */
  lemma Receive(params: Params, totalFunds: int, c: Client, d: ClientDeal, e: ClientEvent, reply: Reply) returns (c': Client)
    requires Between(params, totalFunds, c, d, []) && CanDeliver(c, e)
    requires !ActPanics(d, e) && Apply(d, e).runs && !Handle(Apply(d, e).deal, reply).panics
    ensures c' == Turn(Next(c, Deliver(e)), reply)
    ensures var o := Handle(Apply(d, e).deal, reply);
            && Between(params, totalFunds, c', Apply(d, e).deal, o.triggered)
            && c'.received == (if e.BlocksReceived? then e.total else c.received)
            && c'.vouchers == c.vouchers + Made(o)
  {
    IdleDeliver(c, e);
    ReachableNext(params, totalFunds, c, Deliver(e));
    c' := Take(params, totalFunds, Next(c, Deliver(e)), d, e, reply);
  }
}
