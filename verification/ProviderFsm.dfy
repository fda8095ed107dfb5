/**
 The retrieval provider's event table, event actions, entry handlers and request
 validation (retrievalmarket/impl/providerstates and impl/requestvalidation).
 */
module ProviderFsm {
  import opened Wrappers
  import opened Intervals
  import opened Billing
  import opened Deals

  /** `ProviderDealState`: the provider's view of a deal. */
  datatype ProviderDeal = ProviderDeal(
    params: Params,
    status: DealStatus,
    channelID: Option<Id>,
    fundsReceived: int)

  datatype ProviderEvent =
    | Open
    | DealAccepted(channel: Id)
    | UnsealError
    | UnsealComplete
    | BlockSent
    | PaymentRequested
    | LastPaymentRequested
    | SaveVoucherFailed
    | PartialPaymentReceived(amount: int)
    | PaymentReceived(amount: int)
    | ProcessPayment
    | Complete
    | CleanupComplete
    | CancelComplete
    | DataTransferError
    | MultiStoreError
    | ClientCancelled

  // ---------------------------------------------------------------- event table and actions

  predicate NeedsFunds(s: DealStatus) {
    s.FundsNeededUnseal? || s.FundsNeeded? || s.FundsNeededLastPayment?
  }

  /** `ProviderFinalityStates`. */
  predicate IsFinal(s: DealStatus) {
    s.Errored? || s.Completed? || s.Cancelled?
  }

  /** `ProviderEvents`: where an event leads from a status. */
  function Target(s: DealStatus, e: ProviderEvent): Transition {
    match e
    case Open => if s.New? then NoChange else Dropped
    case DealAccepted(_) =>
      if s.FundsNeededUnseal? then NoChange
      else if s.New? then To(Unsealing)
      else Dropped
    case UnsealError => if s.Unsealing? then To(Failing) else Dropped
    case UnsealComplete => if s.Unsealing? then To(Unsealed) else Dropped
    case BlockSent =>
      if s.Ongoing? then NoChange
      else if s.Unsealed? then To(Ongoing)
      else Dropped
    case PaymentRequested =>
      if s.Ongoing? || s.Unsealed? then To(FundsNeeded)
      else if s.FundsNeeded? then JustRecord
      else if s.New? then To(FundsNeededUnseal)
      else Dropped
    case LastPaymentRequested => if s.Ongoing? || s.Unsealed? then To(FundsNeededLastPayment) else Dropped
    case SaveVoucherFailed => if NeedsFunds(s) then To(Failing) else Dropped
    case PartialPaymentReceived(_) => if NeedsFunds(s) then NoChange else Dropped
    case PaymentReceived(_) =>
      if s.FundsNeeded? then To(Ongoing)
      else if s.FundsNeededLastPayment? then To(Finalizing)
      else if s.FundsNeededUnseal? then To(Unsealing)
      else if s.BlocksComplete? || s.Ongoing? || s.Finalizing? then JustRecord
      else Dropped
    case ProcessPayment => NoChange
    case Complete => To(Completing)
    case CleanupComplete => if s.Completing? then To(Completed) else Dropped
    case CancelComplete =>
      if s.Cancelling? then To(Cancelled)
      else if s.Failing? then To(Errored)
      else Dropped
    case DataTransferError => To(Errored)
    case MultiStoreError => To(Errored)
    case ClientCancelled => if s.Failing? || s.Cancelling? then JustRecord else To(Cancelling)
  }

  predicate Accepts(s: DealStatus, e: ProviderEvent) {
    !IsFinal(s) && Target(s, e) != Dropped
  }

  function Act(d: ProviderDeal, e: ProviderEvent): ProviderDeal {
    match e
    case Open => d.(fundsReceived := 0)
    case DealAccepted(channel) => d.(channelID := Some(channel))
    case PartialPaymentReceived(amount) => d.(fundsReceived := d.fundsReceived + amount)
    case PaymentReceived(amount) => d.(fundsReceived := d.fundsReceived + amount)
    case _ => d
  }

  /** The deal after one event. */
  function Apply(d: ProviderDeal, e: ProviderEvent): ProviderDeal {
    if !Accepts(d.status, e) then d
    else match Target(d.status, e)
      case To(s) => Act(d, e).(status := s)
      case _ => Act(d, e)
  }

  // ---------------------------------------------------------------- the stored record

  /** The persisted deal record, updated in place by the event actions. */
  class DealRecord {
    const params: Params
    var status: DealStatus
    var channelID: Option<Id>
    var fundsReceived: int

    function Snapshot(): ProviderDeal
      reads this
    {
      ProviderDeal(params, status, channelID, fundsReceived)
    }

    constructor (params: Params)
      ensures Snapshot() == ProviderDeal(params, New, None, 0)
    {
      this.params := params;
      status, channelID, fundsReceived := New, None, 0;
    }

    /** Plans one event: its action first, then the status. */
    method Plan(e: ProviderEvent)
      modifies this
      ensures Snapshot() == Apply(old(Snapshot()), e)
    {
      if IsFinal(status) || Target(status, e) == Dropped {
        return;
      }
      var target := Target(status, e);
      match e {
        case Open => fundsReceived := 0;
        case DealAccepted(channel) => channelID := Some(channel);
        case PartialPaymentReceived(amount) => fundsReceived := fundsReceived + amount;
        case PaymentReceived(amount) => fundsReceived := fundsReceived + amount;
        case _ =>
      }
      if target.To? {
        status := target.status;
      }
    }
  }

  // ---------------------------------------------------------------- vouchers and billing

  /** The last voucher the transfer channel carries. */
  datatype Voucher =
    | Payment(amount: nat)     // cumulative payment voucher
    | Proposal                 // still the deal proposal: nothing paid yet
    | Unreadable

  /** What the provider reads from the data transfer channel. */
  datatype Channel = Channel(queued: uint64, inFinalization: bool, lastVoucher: Voucher)

  /** `ValidationResult` without its message. */
  datatype Validation = Validation(
    accepted: bool,
    forcePause: bool,
    requiresFinalization: bool,
    dataLimit: nat,
    response: Option<DealResponse>)

  /** What `savePayment` learns: the increase over the best voucher on the lane. */
  function Increase(best: nat, amount: nat): nat {
    if amount > best then amount - best else 0
  }

  /** Money newly received according to `processLastVoucher`; None when the voucher cannot be used. */
  function ProcessLastVoucher(best: nat, channel: Channel, saves: bool): Option<nat> {
    match channel.lastVoucher
    case Payment(amount) => if saves then Some(Increase(best, amount)) else None
    case Proposal => Some(0)
    case Unreadable => None
  }

  /** The outcome of `updateFunding`: the result sent to the channel and the events triggered. */
  datatype Funding = Funding(result: Validation, triggered: seq<ProviderEvent>, received: nat)

  /** `updateFunding`: save the last voucher, bill the deal and decide how the transfer goes on. */
  function UpdateFunding(d: ProviderDeal, best: nat, channel: Channel, saves: bool): Funding {
    match ProcessLastVoucher(best, channel, saves)
    case None =>
      Funding(Validation(false, false, false, 0, Some(DealResponse(Errored, 0))),
              if channel.lastVoucher.Payment? then [SaveVoucherFailed] else [], 0)
    case Some(received) =>
      var totalPaid := d.fundsReceived + received;
      FundingFor(d.status, received,
                 OutstandingBalance(d.params, totalPaid, channel.queued, channel.inFinalization),
                 NextInterval(d.params, totalPaid))
  }

  /** The decision once the newly received amount, the balance and the limit are known. */
  function FundingFor(status: DealStatus, received: nat, owed: nat, limit: nat): Funding {
    Funding(
      Validation(true,
                 status.Unsealing? || status.FundsNeededUnseal?,
                 owed > 0 || !status.FundsNeededLastPayment?,
                 limit,
                 FundingResponse(status, owed, received)),
      if owed == 0 then [PaymentReceived(received)]
      else if received > 0 then [PartialPaymentReceived(received)]
      else [],
      received)
  }

  /** With the voucher processed, funding is decided by the balance and the limit of the new total. */
  lemma FundingDecided(d: ProviderDeal, best: nat, channel: Channel, saves: bool, received: nat, owed: nat, limit: nat)
    requires ProcessLastVoucher(best, channel, saves) == Some(received)
    requires owed == OutstandingBalance(d.params, d.fundsReceived + received, channel.queued, channel.inFinalization)
    requires limit == NextInterval(d.params, d.fundsReceived + received)
    ensures UpdateFunding(d, best, channel, saves) == FundingFor(d.status, received, owed, limit)
    ensures owed == 0 ==> d.fundsReceived + received >= d.params.unsealPrice
  {}

  function FundingResponse(status: DealStatus, owed: nat, received: nat): Option<DealResponse> {
    if owed > 0 then
      if received > 0 || !status.FundsNeededUnseal? then Some(DealResponse(status, owed)) else None
    else if status.FundsNeededLastPayment? then Some(DealResponse(Completed, 0))
    else None
  }

  // ---------------------------------------------------------------- request validation

  /** The answer of `validatePull` to an accepted proposal. */
  function ValidatePull(params: Params): Validation {
    Validation(true, true, true, NextInterval(params, 0),
               Some(DealResponse(if params.unsealPrice > 0 then FundsNeededUnseal else Accepted,
                                 OutstandingBalance(params, 0, 0, false))))
  }

  /** `requiresFinalization`. */
  predicate RequiresFinalization(d: ProviderDeal, channel: Channel) {
    (!d.status.FundsNeededLastPayment? && !d.status.Finalizing?) ||
    OutstandingBalance(d.params, d.fundsReceived, channel.queued, channel.inFinalization) > 0
  }

  /** `validateRestart` for a known deal. */
  function ValidateRestart(d: ProviderDeal, channel: Channel): Validation {
    Validation(true,
               d.status.Unsealing? || d.status.FundsNeededUnseal?,
               RequiresFinalization(d, channel),
               NextInterval(d.params, d.fundsReceived),
               None)
  }

  /** `BeginTracking`: the first event of a new deal. */
  function FirstEvent(params: Params): ProviderEvent {
    if params.unsealPrice > 0 then PaymentRequested else Open
  }

  /**
   Restart agreement: once the event that funding triggered is recorded, and while the
   channel is unchanged, validating a restart yields the limit, pause and finalization
   flags that funding issued, in all three funds-needed statuses, paid or not.
   */
  lemma RestartAgreesWithFunding(d: ProviderDeal, best: nat, channel: Channel, saves: bool)
    requires NeedsFunds(d.status) && ProcessLastVoucher(best, channel, saves).Some?
    ensures var f := UpdateFunding(d, best, channel, saves);
            var recorded := if f.triggered == [] then d else Apply(d, f.triggered[0]);
            var restart := ValidateRestart(recorded, channel);
            && |f.triggered| <= 1
            && recorded.fundsReceived == d.fundsReceived + f.received
            && restart.(response := f.result.response) == f.result
  {
    var received := ProcessLastVoucher(best, channel, saves).value;
    var total := d.fundsReceived + received;
    var owed := OutstandingBalance(d.params, total, channel.queued, channel.inFinalization);
    var limit := NextInterval(d.params, total);
    FundingDecided(d, best, channel, saves, received, owed, limit);
    RestartDecision(d, received, owed, limit);
  }

  /** The recorded deal is in the status from which restart decides as funding did. */
  lemma RestartDecision(d: ProviderDeal, received: nat, owed: nat, limit: nat)
    requires NeedsFunds(d.status)
    ensures var f := FundingFor(d.status, received, owed, limit);
            var recorded := if f.triggered == [] then d else Apply(d, f.triggered[0]);
            && recorded.params == d.params && recorded.fundsReceived == d.fundsReceived + received
            && f.result.forcePause == (recorded.status.Unsealing? || recorded.status.FundsNeededUnseal?)
            && f.result.requiresFinalization ==
                 ((!recorded.status.FundsNeededLastPayment? && !recorded.status.Finalizing?) || owed > 0)
  {}

  /** No answer of the provider lifts finalization while a balance is owed. */
  lemma FinalizationLiftedOnlyWhenSettled(d: ProviderDeal, best: nat, channel: Channel, saves: bool)
    ensures ValidatePull(d.params).requiresFinalization
    ensures var f := UpdateFunding(d, best, channel, saves);
            f.result.accepted && !f.result.requiresFinalization ==>
              d.status.FundsNeededLastPayment? &&
              OutstandingBalance(d.params, d.fundsReceived + f.received, channel.queued, channel.inFinalization) == 0
    ensures !ValidateRestart(d, channel).requiresFinalization ==>
              (d.status.FundsNeededLastPayment? || d.status.Finalizing?) &&
              OutstandingBalance(d.params, d.fundsReceived, channel.queued, channel.inFinalization) == 0
  {}
}
