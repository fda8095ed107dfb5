/**
 Deal statuses, provider responses and the state-machine vocabulary shared by the
 retrieval client and the retrieval provider (retrievalmarket/dealstatus.go, types.go).
 */
module Deals {

  /** Channels, lanes and chain messages are opaque identifiers. */
  type Id = nat

  datatype DealStatus =
    | New | Unsealing | Unsealed
    | WaitForAcceptance | WaitForAcceptanceLegacy | RetryLegacy
    | PaymentChannelCreating | PaymentChannelAddingInitialFunds | PaymentChannelAddingFunds
    | PaymentChannelAllocatingLane
    | Accepted | Rejecting | Rejected
    | FundsNeededUnseal | FundsNeeded | FundsNeededLastPayment
    | SendFunds | SendFundsLastPayment
    | Ongoing | BlocksComplete | ClientWaitingForLastBlocks | CheckComplete
    | CheckFunds | InsufficientFunds
    | Finalizing | FinalizingBlockstore | Completing | Completed
    | DealNotFoundCleanup | DealNotFound
    | Failing | Erroring | Errored
    | Cancelling | Cancelled

  /** What the event table says about an event in a given status. */
  datatype Transition =
    | To(status: DealStatus)   // run the action, change status, run the entry handler
    | NoChange                 // run the action, re-run the entry handler
    | JustRecord               // run the action only
    | Dropped                  // no entry in the table: the event is ignored

  /** `DealResponse`, without the deal ID and the message. */
  datatype DealResponse = DealResponse(status: DealStatus, paymentOwed: int)
}
