/**
 The retrieval client's event table, event actions and entry handlers
 (retrievalmarket/impl/clientstates/client_fsm.go and client_states.go).

 Payment channel addresses, lanes, transfer channels and message CIDs are opaque
 identifiers; log and error messages are not modelled.
 */
module ClientFsm {
  import opened Words
  import opened Wrappers
  import opened Intervals
  import opened Billing
  import opened Deals

  datatype PaymentInfo = PaymentInfo(payCh: Id, lane: Id)

  /** `ClientDealState`: the client's view of a deal. */
  datatype ClientDeal = ClientDeal(
    params: Params,
    totalFunds: int,
    status: DealStatus,
    channelID: Option<Id>,
    paymentInfo: Option<PaymentInfo>,
    waitMsgCID: Option<Id>,
    lastPaymentRequested: bool,
    allBlocksReceived: bool,
    legacyProtocol: bool,
    totalReceived: uint64,
    bytesPaidFor: uint64,
    currentInterval: uint64,
    paymentRequested: int,
    fundsSpent: int,
    unsealFundsPaid: int)

  datatype ClientEvent =
    | Open
    | WriteDealProposalErrored
    | DealProposed(channel: Id)
    | DealRejected
    | DealNotFound
    | DealAccepted
    | UnknownResponseReceived
    | PaymentChannelErrored
    | PaymentChannelSkip
    | PaymentChannelCreateInitiated(msg: Id)
    | PaymentChannelAddingFunds(msg: Id, payCh: Id)
    | PaymentChannelReady(payCh: Id)
    | AllocateLaneErrored
    | LaneAllocated(lane: Id)
    | DataTransferError
    | LastPaymentRequested(owed: int)
    | PaymentRequested(owed: int)
    | UnsealPaymentRequested(owed: int)
    | AllBlocksReceived
    | BlocksReceived(total: uint64)
    | SendFunds
    | FundsExpended(shortfall: int)
    | BadPaymentRequested
    | CreateVoucherFailed
    | VoucherShortfall(shortfall: int)
    | WriteDealPaymentErrored
    | PaymentNotSent
    | PaymentSent(amount: int)
    | Complete
    | CompleteVerified
    | EarlyTermination
    | WaitForLastBlocks
    | BlockstoreFinalized
    | FinalizeBlockstoreErrored
    | CancelComplete
    | ProviderCancelled
    | Cancel
    | RecheckFunds

  // ---------------------------------------------------------------- event table

  predicate ChannelCreationStatus(s: DealStatus) {
    s.WaitForAcceptance? || s.WaitForAcceptanceLegacy? || s.Accepted? || s.PaymentChannelCreating? ||
    s.PaymentChannelAddingInitialFunds? || s.PaymentChannelAllocatingLane?
  }

  /** `ClientFinalityStates`. */
  predicate IsFinal(s: DealStatus) {
    s.Errored? || s.Completed? || s.Cancelled? || s.Rejected? || s.DealNotFound?
  }

  /** `ClientEvents`: where an event leads from a status. */
  function Target(s: DealStatus, e: ClientEvent): Transition {
    match e
    case Open => if s.New? then NoChange else Dropped
    case WriteDealProposalErrored => To(Erroring)
    case DealProposed(_) =>
      if s.New? then To(WaitForAcceptance)
      else if s.RetryLegacy? then To(WaitForAcceptanceLegacy)
      else if s.Cancelling? then JustRecord
      else Dropped
    case DealRejected =>
      if s.WaitForAcceptance? then To(RetryLegacy)
      else if s.WaitForAcceptanceLegacy? then To(Rejecting)
      else Dropped
    case DealNotFound =>
      if s.WaitForAcceptance? || s.WaitForAcceptanceLegacy? then To(DealNotFoundCleanup) else Dropped
    case DealAccepted =>
      if s.WaitForAcceptance? || s.WaitForAcceptanceLegacy? then To(Accepted) else Dropped
    case UnknownResponseReceived => To(Failing)
    case PaymentChannelErrored =>
      if s.Accepted? || s.PaymentChannelCreating? || s.PaymentChannelAddingFunds? then To(Failing) else Dropped
    case PaymentChannelSkip => if s.Accepted? then To(Ongoing) else Dropped
    case PaymentChannelCreateInitiated(_) => if s.Accepted? then To(PaymentChannelCreating) else Dropped
    case PaymentChannelAddingFunds(_, _) =>
      if s.Accepted? then To(PaymentChannelAddingInitialFunds)
      else if s.CheckFunds? then To(DealStatus.PaymentChannelAddingFunds)
      else Dropped
    case PaymentChannelReady(_) =>
      if s.PaymentChannelCreating? || s.PaymentChannelAddingInitialFunds? || s.Accepted?
      then To(PaymentChannelAllocatingLane)
      else if s.PaymentChannelAddingFunds? || s.CheckFunds? then To(Ongoing)
      else Dropped
    case AllocateLaneErrored => if s.PaymentChannelAllocatingLane? then To(Failing) else Dropped
    case LaneAllocated(_) => if s.PaymentChannelAllocatingLane? then To(Ongoing) else Dropped
    case DataTransferError => To(Erroring)
    case LastPaymentRequested(_) =>
      if s.Ongoing? || s.FundsNeededLastPayment? || s.FundsNeeded? then To(FundsNeededLastPayment)
      else if s.SendFunds? then To(Ongoing)
      else if s.CheckComplete? then NoChange
      else if s.BlocksComplete? then To(SendFundsLastPayment)
      else if ChannelCreationStatus(s) then JustRecord
      else Dropped
    case PaymentRequested(_) =>
      if s.Ongoing? || s.BlocksComplete? || s.FundsNeeded? || s.FundsNeededLastPayment? then To(FundsNeeded)
      else if s.SendFunds? then To(Ongoing)
      else if s.CheckComplete? then NoChange
      else if ChannelCreationStatus(s) then JustRecord
      else Dropped
    case UnsealPaymentRequested(_) =>
      if s.WaitForAcceptance? || s.WaitForAcceptanceLegacy? then To(Accepted) else Dropped
    case AllBlocksReceived =>
      if s.Ongoing? || s.BlocksComplete? then To(BlocksComplete)
      else if ChannelCreationStatus(s) then JustRecord
      else if s.SendFunds? || s.SendFundsLastPayment? then To(Ongoing)
      else if s.FundsNeeded? then NoChange
      else if s.FundsNeededLastPayment? then To(SendFundsLastPayment)
      else if s.ClientWaitingForLastBlocks? || s.CheckComplete? then To(FinalizingBlockstore)
      else Dropped
    case BlocksReceived(_) =>
      if s.Ongoing? || s.FundsNeeded? || s.FundsNeededLastPayment? || s.CheckComplete? || s.ClientWaitingForLastBlocks?
      then NoChange
      else if s.SendFunds? || s.SendFundsLastPayment? then To(Ongoing)
      else if ChannelCreationStatus(s) then JustRecord
      else Dropped
    case SendFunds =>
      if s.SendFunds? || s.SendFundsLastPayment? then To(Ongoing)
      else if s.FundsNeeded? then To(DealStatus.SendFunds)
      else if s.FundsNeededLastPayment? then To(SendFundsLastPayment)
      else Dropped
    case FundsExpended(_) => if s.CheckFunds? then To(InsufficientFunds) else Dropped
    case BadPaymentRequested => if s.SendFunds? || s.SendFundsLastPayment? then To(Failing) else Dropped
    case CreateVoucherFailed => if s.SendFunds? || s.SendFundsLastPayment? then To(Failing) else Dropped
    case VoucherShortfall(_) => if s.SendFunds? || s.SendFundsLastPayment? then To(CheckFunds) else Dropped
    case WriteDealPaymentErrored => To(Erroring)
    case PaymentNotSent =>
      if s.Ongoing? then JustRecord
      else if s.SendFunds? then To(Ongoing)
      else if s.SendFundsLastPayment? then To(Finalizing)
      else Dropped
    case PaymentSent(_) =>
      if s.Ongoing? then JustRecord
      else if s.BlocksComplete? then To(CheckComplete)
      else if s.CheckComplete? then NoChange
      else if s.FundsNeeded? || s.FundsNeededLastPayment? || s.SendFunds? then To(Ongoing)
      else if s.SendFundsLastPayment? then To(Finalizing)
      else Dropped
    case Complete =>
      if s.SendFunds? || s.SendFundsLastPayment? || s.FundsNeeded? || s.FundsNeededLastPayment? ||
         s.Ongoing? || s.BlocksComplete?
      then To(CheckComplete)
      else if s.Finalizing? then To(FinalizingBlockstore)
      else Dropped
    case CompleteVerified => if s.CheckComplete? then To(FinalizingBlockstore) else Dropped
    case EarlyTermination => if s.CheckComplete? then To(Erroring) else Dropped
    case WaitForLastBlocks =>
      if s.CheckComplete? then To(ClientWaitingForLastBlocks)
      else if s.FinalizingBlockstore? || s.Completed? then JustRecord
      else Dropped
    case BlockstoreFinalized =>
      if s.FinalizingBlockstore? then To(Completed)
      else if s.Erroring? then To(Errored)
      else if s.Rejecting? then To(Rejected)
      else if s.DealNotFoundCleanup? then To(DealStatus.DealNotFound)
      else Dropped
    case FinalizeBlockstoreErrored => if s.FinalizingBlockstore? then To(Errored) else Dropped
    case CancelComplete =>
      if s.Failing? then To(Errored)
      else if s.Cancelling? then To(Cancelled)
      else Dropped
    case ProviderCancelled => if s.Failing? || s.Cancelling? then JustRecord else To(Cancelling)
    case Cancel => To(Cancelling)
    case RecheckFunds => if s.InsufficientFunds? then To(CheckFunds) else Dropped
  }

  /** The event is in the table for this status and the deal is not in a finality state. */
  predicate Accepts(s: DealStatus, e: ClientEvent) {
    !IsFinal(s) && Target(s, e) != Dropped
  }

  // ---------------------------------------------------------------- event actions

  /** `PaymentSent`: settle the ledger with a voucher for the cumulative `amount`. */
  function RecordPayment(d: ClientDeal, amount: int): ClientDeal {
    var sentAmt := amount - d.fundsSpent;
    var paid := d.(paymentRequested := d.paymentRequested - sentAmt, fundsSpent := amount);
    if d.params.unsealPrice >= amount then
      paid.(unsealFundsPaid := amount)
    else
      var unsealed := paid.(unsealFundsPaid := d.params.unsealPrice);
      if d.params.pricePerByte == 0 then unsealed else
      var bytes := BytesPaid(d.params, amount) % UINT64_SIZE;
      var counted := unsealed.(bytesPaidFor := bytes);
      if bytes >= d.currentInterval
      then counted.(currentInterval := NextLoop(d.params, d.currentInterval))
      else counted
  }

  /** The boundary loop that recording a payment would enter does not end. */
  predicate PaymentHangs(d: ClientDeal, amount: int) {
    && amount > d.params.unsealPrice && d.params.pricePerByte > 0
    && BytesPaid(d.params, amount) % UINT64_SIZE >= d.currentInterval
    && Stop(d.params, d.currentInterval).None?
  }

  /** The action attached to an event; the status is changed by `Apply`. */
  function Act(d: ClientDeal, e: ClientEvent): ClientDeal {
    match e
    case DealProposed(channel) => d.(channelID := Some(channel))
    case DealRejected => d.(legacyProtocol := true)
    case PaymentChannelCreateInitiated(msg) => d.(waitMsgCID := Some(msg))
    case PaymentChannelAddingFunds(msg, payCh) =>
      d.(waitMsgCID := Some(msg),
         paymentInfo := if d.paymentInfo.None? then Some(PaymentInfo(payCh, 0)) else d.paymentInfo)
    case PaymentChannelReady(payCh) =>
      d.(waitMsgCID := None,
         paymentInfo := if d.paymentInfo.None? then Some(PaymentInfo(payCh, 0)) else d.paymentInfo)
    case LaneAllocated(lane) =>
      if d.paymentInfo.None? then d else d.(paymentInfo := Some(d.paymentInfo.value.(lane := lane)))
    case LastPaymentRequested(owed) =>
      d.(paymentRequested := d.paymentRequested + owed, lastPaymentRequested := true)
    case PaymentRequested(owed) => d.(paymentRequested := d.paymentRequested + owed)
    case UnsealPaymentRequested(owed) => d.(paymentRequested := d.paymentRequested + owed)
    case AllBlocksReceived => d.(allBlocksReceived := true)
    case BlocksReceived(total) => d.(totalReceived := total)
    case PaymentSent(amount) => RecordPayment(d, amount)
    case _ => d
  }

  /** The action dereferences a nil pointer. */
  predicate ActPanics(d: ClientDeal, e: ClientEvent) {
    Accepts(d.status, e) && e.LaneAllocated? && d.paymentInfo.None?
  }

  /** The action never returns. */
  predicate ActHangs(d: ClientDeal, e: ClientEvent) {
    Accepts(d.status, e) && e.PaymentSent? && PaymentHangs(d, e.amount)
  }

  /** One planning step of the state-machine library: the new deal and whether its entry handler runs. */
  datatype Applied = Applied(deal: ClientDeal, runs: bool)

  function Apply(d: ClientDeal, e: ClientEvent): Applied {
    if IsFinal(d.status) then Applied(d, false) else Planned(d, Act(d, e), Target(d.status, e))
  }

  /** A transition with the deal its action produces. */
  function Planned(d: ClientDeal, acted: ClientDeal, t: Transition): Applied {
    match t
    case To(s) => Applied(acted.(status := s), true)
    case NoChange => Applied(acted, true)
    case JustRecord => Applied(acted, false)
    case Dropped => Applied(d, false)
  }

  /** All an event can do to a deal, apart from its status: run its action, or nothing. */
  predicate Effect(d: ClientDeal, e: ClientEvent, taken: bool, d': ClientDeal) {
    d' == (if taken then Act(d, e) else d).(status := d'.status)
  }

  lemma ApplyEffect(d: ClientDeal, e: ClientEvent)
    ensures Effect(d, e, Accepts(d.status, e), Apply(d, e).deal)
  {
    PlannedEffect(d, Act(d, e), Target(d.status, e));
  }

  lemma PlannedEffect(d: ClientDeal, acted: ClientDeal, t: Transition)
    ensures var d' := Planned(d, acted, t).deal;
            d' == (if t != Dropped then acted else d).(status := d'.status)
  {}

  lemma ActKeepsTerms(d: ClientDeal, e: ClientEvent)
    ensures var d' := Act(d, e);
            d'.params == d.params && d'.totalFunds == d.totalFunds && d'.status == d.status
  {
    if e.PaymentSent? {
      assert RecordPayment(d, e.amount).params == d.params;
    }
  }

  // ---------------------------------------------------------------- entry handlers

  datatype ChannelReply =
    | ChannelFailed
    | ChannelCreating(msg: Id)                // no address yet
    | ChannelExists(payCh: Id)                // no message to wait for
    | ChannelFunding(msg: Id, payCh: Id)

  datatype VoucherReply = VoucherCreated | Shortfall(amount: int) | VoucherFailed

  datatype AvailableFunds = AvailableFunds(
    confirmed: int, redeemed: int, pending: int, queued: int, pendingWaitSentinel: Option<Id>)

  /** What the node and the transfer module answer to one handler run. */
  datatype Reply = Reply(
    transfer: Option<Id>,               // OpenDataTransfer
    headKnown: bool,                    // GetChainHead
    channel: ChannelReply,              // GetOrCreatePaymentChannel
    ready: Option<Id>,                  // WaitForPaymentChannelReady
    lane: Option<Id>,                   // AllocateLane
    voucher: VoucherReply,              // CreatePaymentVoucher
    voucherSent: bool,                  // SendDataTransferVoucher
    funds: Option<AvailableFunds>,      // CheckAvailableFunds
    transferClosed: bool,               // CloseDataTransfer
    storeFinalized: bool)               // FinalizeBlockstore

  /** Events a handler triggers, the voucher it creates, and whether it hits a nil pointer. */
  datatype Outcome = Outcome(triggered: seq<ClientEvent>, voucher: Option<int>, panics: bool)

  function Trigger(e: ClientEvent): Outcome { Outcome([e], None, false) }
  const Nothing := Outcome([], None, false)
  const Panic := Outcome([], None, true)

  function ProposeDeal(r: Reply): Outcome {
    match r.transfer
    case None => Trigger(WriteDealProposalErrored)
    case Some(channel) => Trigger(DealProposed(channel))
  }

  function SetupPaymentChannelStart(d: ClientDeal, r: Reply): Outcome {
    if d.totalFunds == 0 then Trigger(PaymentChannelSkip)
    else if !r.headKnown then Trigger(PaymentChannelErrored)
    else match r.channel
      case ChannelFailed => Trigger(PaymentChannelErrored)
      case ChannelCreating(msg) => Trigger(PaymentChannelCreateInitiated(msg))
      case ChannelExists(payCh) => Trigger(PaymentChannelReady(payCh))
      case ChannelFunding(msg, payCh) => Trigger(ClientEvent.PaymentChannelAddingFunds(msg, payCh))
  }

  function WaitPaymentChannelReady(d: ClientDeal, r: Reply): Outcome {
    if d.waitMsgCID.None? then Panic
    else match r.ready
      case None => Trigger(PaymentChannelErrored)
      case Some(payCh) => Trigger(PaymentChannelReady(payCh))
  }

  function AllocateLane(d: ClientDeal, r: Reply): Outcome {
    if d.paymentInfo.None? then Panic
    else match r.lane
      case None => Trigger(AllocateLaneErrored)
      case Some(lane) => Trigger(LaneAllocated(lane))
  }

  function OngoingHandler(d: ClientDeal): Outcome {
    if d.paymentRequested > 0 then
      if d.lastPaymentRequested then Trigger(LastPaymentRequested(0)) else Trigger(PaymentRequested(0))
    else Nothing
  }

  function ProcessPaymentRequested(d: ClientDeal): Outcome {
    if d.params.unsealPrice > d.unsealFundsPaid then Trigger(ClientEvent.SendFunds)
    else if d.bytesPaidFor >= d.totalReceived then Nothing
    else if d.allBlocksReceived then Trigger(ClientEvent.SendFunds)
    else if d.totalReceived >= d.currentInterval then Trigger(ClientEvent.SendFunds)
    else Nothing
  }

  function SendFundsHandler(d: ClientDeal, r: Reply): Outcome {
    if d.unsealFundsPaid >= d.params.unsealPrice && !d.allBlocksReceived && d.totalReceived < d.currentInterval
    then Trigger(PaymentNotSent)
    else if !r.headKnown then Trigger(CreateVoucherFailed)
    else
      var transferPrice := AsInt64(d.totalReceived) * d.params.pricePerByte;
      var totalPrice := transferPrice + d.params.unsealPrice;
      if totalPrice <= d.fundsSpent then Trigger(PaymentNotSent)
      else if d.paymentInfo.None? then Panic
      else match r.voucher
        case Shortfall(amount) => Trigger(VoucherShortfall(amount))
        case VoucherFailed => Trigger(CreateVoucherFailed)
        case VoucherCreated =>
          if d.channelID.None? then Outcome([], Some(totalPrice), true)
          else if !r.voucherSent then Outcome([WriteDealPaymentErrored], Some(totalPrice), false)
          else Outcome([PaymentSent(totalPrice)], Some(totalPrice), false)
  }

  function CheckFundsHandler(d: ClientDeal, r: Reply): Outcome {
    if d.paymentInfo.None? then Panic
    else
      var payCh := d.paymentInfo.value.payCh;
      if d.waitMsgCID.Some? then Trigger(ClientEvent.PaymentChannelAddingFunds(d.waitMsgCID.value, payCh))
      else match r.funds
        case None => Trigger(PaymentChannelErrored)
        case Some(f) =>
          var shortfall := d.paymentRequested - (f.confirmed - f.redeemed);
          var inFlight := f.pending + f.queued;
          if shortfall <= 0 then Trigger(PaymentChannelReady(payCh))
          else if inFlight < shortfall || f.pendingWaitSentinel.None? then Trigger(FundsExpended(shortfall - inFlight))
          else Trigger(ClientEvent.PaymentChannelAddingFunds(f.pendingWaitSentinel.value, payCh))
  }

  function CancelDeal(d: ClientDeal, r: Reply): Outcome {
    if d.channelID.Some? && !r.transferClosed then Trigger(DataTransferError) else Trigger(CancelComplete)
  }

  function CheckCompleteHandler(d: ClientDeal): Outcome {
    if d.allBlocksReceived then Trigger(CompleteVerified)
    else if d.params.pricePerByte == 0 then Trigger(WaitForLastBlocks)
    else Trigger(EarlyTermination)
  }

  function FinalizeBlockstore(r: Reply): Outcome {
    if r.storeFinalized then Trigger(BlockstoreFinalized) else Trigger(FinalizeBlockstoreErrored)
  }

  /** `ClientStateEntryFuncs`: run the entry handler of the deal's status on a snapshot of the deal. */
  function Handle(d: ClientDeal, r: Reply): Outcome {
    match d.status
    case New | RetryLegacy => ProposeDeal(r)
    case Accepted => SetupPaymentChannelStart(d, r)
    case PaymentChannelCreating | PaymentChannelAddingInitialFunds | PaymentChannelAddingFunds =>
      WaitPaymentChannelReady(d, r)
    case PaymentChannelAllocatingLane => AllocateLane(d, r)
    case Ongoing => OngoingHandler(d)
    case FundsNeeded | FundsNeededLastPayment => ProcessPaymentRequested(d)
    case SendFunds | SendFundsLastPayment => SendFundsHandler(d, r)
    case CheckFunds => CheckFundsHandler(d, r)
    case Failing | Cancelling => CancelDeal(d, r)
    case CheckComplete => CheckCompleteHandler(d)
    case FinalizingBlockstore => FinalizeBlockstore(r)
    case Erroring | Rejecting | DealNotFoundCleanup => Trigger(BlockstoreFinalized)
    case _ => Nothing
  }

  // ---------------------------------------------------------------- the stored record

  /** The persisted deal record, updated in place by the event actions. */
  class DealRecord {
    const params: Params
    const totalFunds: int
    var status: DealStatus
    var channelID: Option<Id>
    var paymentInfo: Option<PaymentInfo>
    var waitMsgCID: Option<Id>
    var lastPaymentRequested: bool
    var allBlocksReceived: bool
    var legacyProtocol: bool
    var totalReceived: uint64
    var bytesPaidFor: uint64
    var currentInterval: uint64
    var paymentRequested: int
    var fundsSpent: int
    var unsealFundsPaid: int

    function Snapshot(): ClientDeal
      reads this
    {
      ClientDeal(params, totalFunds, status, channelID, paymentInfo, waitMsgCID, lastPaymentRequested,
                 allBlocksReceived, legacyProtocol, totalReceived, bytesPaidFor, currentInterval,
                 paymentRequested, fundsSpent, unsealFundsPaid)
    }

    /** The deal `Client.Retrieve` starts tracking. */
    constructor (params: Params, totalFunds: int)
      ensures Snapshot() == NewDeal(params, totalFunds)
    {
      this.params := params;
      this.totalFunds := totalFunds;
      status := New;
      channelID, paymentInfo, waitMsgCID := None, None, None;
      lastPaymentRequested, allBlocksReceived, legacyProtocol := false, false, false;
      totalReceived, bytesPaidFor := 0, 0;
      currentInterval := params.paymentInterval;
      paymentRequested, fundsSpent, unsealFundsPaid := 0, 0, 0;
    }

    /** The `PaymentSent` action. */
    method ActPaymentSent(voucherAmt: int)
      requires !PaymentHangs(Snapshot(), voucherAmt)
      modifies this
      ensures Snapshot() == RecordPayment(old(Snapshot()), voucherAmt)
    {
      var sentAmt := voucherAmt - fundsSpent;
      paymentRequested := paymentRequested - sentAmt;
      fundsSpent := voucherAmt;
      if params.unsealPrice >= fundsSpent {
        unsealFundsPaid := fundsSpent;
        return;
      }
      unsealFundsPaid := params.unsealPrice;
      if params.pricePerByte == 0 {
        return;
      }
      bytesPaidFor := BytesPaid(params, fundsSpent) % UINT64_SIZE;
      if bytesPaidFor >= currentInterval {
        currentInterval := NextIntervalLoop(params, currentInterval);
      }
    }

    /** The actions that fill in the deal's transfer and payment channel. */
    method ActChannel(e: ClientEvent)
      requires e.DealProposed? || e.PaymentChannelCreateInitiated? || e.PaymentChannelAddingFunds? ||
               e.PaymentChannelReady? || e.LaneAllocated?
      requires e.LaneAllocated? ==> paymentInfo.Some?
      modifies this
      ensures Snapshot() == Act(old(Snapshot()), e)
    {
      match e
      case DealProposed(channel) => channelID := Some(channel);
      case PaymentChannelCreateInitiated(msg) => waitMsgCID := Some(msg);
      case PaymentChannelAddingFunds(msg, payCh) =>
        waitMsgCID := Some(msg);
        if paymentInfo.None? {
          paymentInfo := Some(PaymentInfo(payCh, 0));
        }
      case PaymentChannelReady(payCh) =>
        if paymentInfo.None? {
          paymentInfo := Some(PaymentInfo(payCh, 0));
        }
        waitMsgCID := None;
      case LaneAllocated(lane) => paymentInfo := Some(paymentInfo.value.(lane := lane));
    }

    /** The actions of the three requests for payment. */
    method ActRequest(e: ClientEvent)
      requires e.LastPaymentRequested? || e.PaymentRequested? || e.UnsealPaymentRequested?
      modifies this
      ensures Snapshot() == Act(old(Snapshot()), e)
    {
      paymentRequested := paymentRequested + e.owed;
      if e.LastPaymentRequested? {
        lastPaymentRequested := true;
      }
    }

    /** Runs the action of an event on the record. */
    method RunAction(e: ClientEvent)
      requires e.LaneAllocated? ==> paymentInfo.Some?
      requires e.PaymentSent? ==> !PaymentHangs(Snapshot(), e.amount)
      modifies this
      ensures Snapshot() == Act(old(Snapshot()), e)
    {
      match e
      case DealProposed(_) => ActChannel(e);
      case PaymentChannelCreateInitiated(_) => ActChannel(e);
      case PaymentChannelAddingFunds(_, _) => ActChannel(e);
      case PaymentChannelReady(_) => ActChannel(e);
      case LaneAllocated(_) => ActChannel(e);
      case DealRejected => legacyProtocol := true;
      case LastPaymentRequested(_) => ActRequest(e);
      case PaymentRequested(_) => ActRequest(e);
      case UnsealPaymentRequested(_) => ActRequest(e);
      case AllBlocksReceived => allBlocksReceived := true;
      case BlocksReceived(total) => totalReceived := total;
      case PaymentSent(amount) => ActPaymentSent(amount);
      case _ =>
    }

    /** Plans one event: action first, then the status; reports whether the entry handler runs. */
    method Plan(e: ClientEvent) returns (runs: bool)
      requires !ActPanics(Snapshot(), e) && !ActHangs(Snapshot(), e)
      modifies this
      ensures Applied(Snapshot(), runs) == Apply(old(Snapshot()), e)
    {
      if IsFinal(status) {
        return false;
      }
      var target := Target(status, e);
      if target == Dropped {
        return false;
      }
      RunAction(e);
      runs := Move(target);
    }

    /** Changes the status after the action. */
    method Move(t: Transition) returns (runs: bool)
      requires t != Dropped
      modifies this`status
      ensures forall before :: Applied(Snapshot(), runs) == Planned(before, old(Snapshot()), t)
    {
      if t.To? {
        status := t.status;
      }
      runs := t != JustRecord;
    }
  }

  /** The initial deal state of `Client.Retrieve`. */
  function NewDeal(params: Params, totalFunds: int): ClientDeal {
    ClientDeal(params, totalFunds, New, None, None, None, false, false, false, 0, 0,
               params.paymentInterval, 0, 0, 0)
  }
}
