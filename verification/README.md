# Verified model of the retrieval market and its CAR blockstore

This project models, in Dafny, the parts of go-fil-markets that move money and store data
without any other safeguard than their own arithmetic:

* **The incremental-payment retrieval protocol.** A client pays a provider for data with
  cumulative vouchers, interval by interval. Both sides are event-driven state machines. The
  model has the interval arithmetic with its two 64-bit loops, the bill and the data limit, the
  complete event tables, actions and entry handlers of both machines, the provider's
  validation answers, and runs of each machine and of both together.
* **The CAR-backed blockstore.** An append-only log of length-prefixed sections inside a CARv2
  file, an in-memory index in digest order, deduplication on put, discard, finalize, and resume
  by rescanning the bytes. The file is modelled byte by byte.
* **Two smaller algorithms.** The lookup of pieces through identity CIDs, and the CBOR stream
  that records where blocks lie in a piece.

`dafny verify dfyconfig.toml` checks everything.

## Layout

| file | content |
|---|---|
| `Words`, `Wrappers` | sizes of machine integers, and `Option` |
| `Intervals`, `LoopTermination`, `LoopAgreement`, `Billing` | interval boundaries, the two 64-bit loops, exactly when they end and when they agree, bill, data limit, acceptance of terms |
| `Deals` | statuses and vocabulary shared by the two machines |
| `ClientFsm`, `ClientMachine` | the client's table, actions, handlers, stored record, and its runs |
| `ClientLedger`, `ClientPointers`, `ClientCompletion`, `ClientProgress` | what holds in every client run |
| `ProviderFsm`, `ProviderRuns` | the provider's table, actions, funding, validation, record, and what holds in every run |
| `Exchange` | the message wiring and single payment rounds |
| `JointRuns`, `Lifecycle` | both machines interleaved, and whole deals from proposal to completion |
| `Stalls`, `Stranding`, `Spinning` | runs that come to a halt at the data limit or at the end, and clients that never come to rest |
| `Uvarint`, `Cids`, `CarFormat` | varints, CIDs, sections, the log as bytes, the section scan |
| `CarIndex`, `CarFile`, `CarStore`, `CarRuns`, `CarLoad` | index, file forms and resume, the store class, runs of the store, loading a CAR |
| `IdentityLinks` | links inside identity CIDs and the n-way intersection of pieces |
| `RecordStreams`, `BlockMetadata` | streams of self-delimiting records, and the block-location codec |

## How the code is modelled

* Token amounts are unbounded integers, as in the source. Byte counts, intervals and the two
  boundary loops are 64-bit with wrap-around, everywhere: bill, data limit and the client's
  awaited interval are what the loops return. The signed conversion of a byte count
  (retrievalmarket/types.go:309, client_states.go:158) and the truncation of the number of
  bytes bought are written out.
* A nil token amount is read as zero. A boundary loop that never ends has the result zero, so
  the runs considered go on where the source would hang; no theorem that speaks of limits
  admits such terms.
* Theorems about limits hold for tame terms: the loops do not wrap around on byte counts below
  2^63. `Intervals.SmallIntervalsAreTame` gives a check a caller can make (first interval plus
  twice the increase at most 2^63), and `Billing.BillMatchesLimitExactly` says exactly which
  terms make bill and limit agree. The theorems about money, pointers and completion hold for
  all terms.
* State-machine library: events are handled first in, first out; an event without an entry in
  the table for the status is dropped; final statuses absorb every event; "no change" runs the
  entry handler again and "just record" does not. While a handler runs the deal does not change
  and further events queue up; the events the handler triggers join the end of the queue.
  The provider handles all queued events before an entry handler (retrievalmarket/impl/provider.go:152-154).
  Safety theorems let its handlers run at any moment; theorems that say a state is reached let one
  run only after an event that asks for it.
* Deal records are classes whose fields the actions update; each update is proved against a
  function on snapshots, and runs are stated over snapshots. Answers of the chain, the payment
  channel manager, the transfer module and the stores are arbitrary inputs of a step.
  `SavePaymentVoucher` returns the increase over the best voucher on the lane.
* Joint runs let either machine take any step at any moment. Safety theorems hold for all of
  them, whatever the client is told. Theorems that say a state is reached speak of wired runs:
  the client is handed the provider's own responses, each once and in order, the channel shows
  the provider the client's last voucher and at least the bytes it has received, and the
  provider's handlers run only when due. The other
  events of the transfer layer come at any moment.
* The balanced tree of the index is its in-order sequence, with equal digests in insertion
  order. CIDs, multihashes and varints have their real binary form, with the limits of the
  libraries: varints of at most nine bytes in shortest form, digests of at most 32 MiB, CBOR
  heads in shortest form, and at most 512 bytes for a CID inside CBOR. The encoded CARv1
  header is an opaque nonempty byte string.

## Where code and comments disagree

The model follows the code.

* `Has` and `Get` promise to answer identity CIDs without a lookup (stores/kvcarbs.go:777-778,
  826-827); `isIdentity` always says no (stores/kvcarbs.go:50-63), so identity CIDs are
  ordinary keys.
* The interval loops wrap around. With an interval of 3 and an increase of 2^64 - 1, ten bytes
  are billed as none while three paid bytes let only five through
  (`Billing.BillMissesLimitWhenWrapping`). With 2^62 and 2^63 the loops never end, and no other
  positive lengths do that on byte counts below 2^63 (`LoopTermination.LoopsEndExactly`).
* Once the billed bytes reach 2^63 the bill turns negative and nothing is owed
  (`Billing.BillMissesLimitPastSignedRange`); `Billing.BillMatchesLimitPastSignedRange` says
  exactly when bill and limit still agree.
* A deal that has a price but no funds skips payment-channel setup and then dereferences a
  missing channel (`ClientPointers.UnfundedPricedDealPanics`). `PointerSafetyExact` shows that
  no other deal ever does.
* The client pays for all bytes received, which can be more than it was asked for. The credit
  stays in its request counter, so a later request can leave that counter at or below zero. If
  the payment channel then falls short of the voucher, the check of the funds finds nothing
  missing, the client goes back to waiting for data, and the provider waits for money: the deal
  stalls (`Stalls.DealCanStall`). `Stalls.StallsExactly` says exactly when the next request can do
  that, and `ClientProgress.NeverParkedAtLimit` shows over all runs that no client in the transfer
  that owes what it was asked for, and none that needs funds, is ever idle at its limit.
* A client that is asked for the last payment before its last bytes arrive may pay for the bytes
  counted so far. It then only waits to be told of completion: later bytes and the provider's
  further requests have no entry in the table and are dropped, and the provider waits for the
  rest of the money for ever (`Stranding.DealCanStrand`). `Stranding.StrandsExactly` says exactly
  when the counts that follow the request can do that; otherwise every byte is paid.
* A deal with free bytes that was asked for more than it paid asks itself for payment again and
  again and never comes to rest (`Spinning.FreeDealSpins`).
* The table has no entry for a payment-channel error while initial funds are added or funds are
  checked, although the handlers of both statuses report it: the error is dropped and the deal
  stays there (`Stalls.InitialFundsErrorIsLost`, `Stalls.FundsCheckErrorIsLost`).
  `ClientProgress.RestsOnlyWithNothingToDo` shows that these are the only two such statuses.
* When a CAR stream breaks, `loadCarFast` loses the batch it was filling, which `loadCarSlow`
  would have put; `CarLoad.LoadCarFast` states exactly how many blocks that is.

## Model

| member | source | states |
|---|---|---|
| `Intervals.IntervalLowerBound` | retrievalmarket/types.go:271-281 | whenever the loop ends, it returns the last 64-bit target before the first one beyond the byte count |
| `Intervals.NextIntervalLoop` | retrievalmarket/types.go:337-345 | whenever the loop ends, it returns the first 64-bit target beyond the byte count |
| `LoopTermination.EscapesUnlessCycling` | retrievalmarket/types.go:271-345 | for words of any size n, some round puts the target in the upper half of the range, unless both lengths are zero or they are 2^(n-2) and 2^(n-1) |
| `LoopTermination.LoopsEndExactly` | retrievalmarket/types.go:271-345 | the loops end on every byte count below 2^63 if and only if one of the two lengths is positive and they are not 2^62 and 2^63 |
| `LoopTermination.LoopsCanHang` | retrievalmarket/types.go:271-345 | with lengths 2^62 and 2^63 the loops never end on byte counts from 2^62 on |
| `Intervals.LoopsFindBoundaries` | retrievalmarket/types.go:271-345 | where no boundary wraps around, the loops return the greatest boundary at or before and the least boundary beyond the byte count |
| `Intervals.SmallIntervalsAreTame` | retrievalmarket/types.go:271-345 | a first interval plus twice the increase of at most 2^63 keeps the loops from wrapping around on byte counts below 2^63 |
| `LoopAgreement.LoopsAgreeExactly` | retrievalmarket/types.go:271-345 | on terms whose loops end, they agree on all byte counts below 2^63 if and only if no new maximum of their target rises from below an earlier target |
| `LoopAgreement.RisingIsSteady` | retrievalmarket/types.go:271-345 | a target that does not drop before it leaves the signed range meets that condition |
| `LoopAgreement.TameTermsAgree` | retrievalmarket/types.go:271-345 | the loops agree on all terms on which they do not wrap around |
| `LoopAgreement.ShrinkingIntervalsDisagree` | retrievalmarket/types.go:271-345 | terms on which the loops wrap around and disagree |
| `Intervals.BoundariesEnclose` | retrievalmarket/types.go:271-345 | the two searched boundaries enclose the byte count and no boundary lies strictly between them |
| `Intervals.NextBoundaryMonotone` | retrievalmarket/types.go:271-345 | both searches are monotone in the byte count |
| `Intervals.BilledExactlyBelowLimit` | retrievalmarket/types.go:271-345 | the boundary billed for sent bytes is within the paid bytes if and only if the sent bytes are below the limit the paid bytes unlock |
| `Intervals.BoundaryClosedForm` | retrievalmarket/types.go:337-345 | the k-th boundary is k*P + I*k*(k-1)/2 |
| `Intervals.BoundariesNoLaterThanAsk` | retrievalmarket/impl/provider_environments.go:82-87 | every boundary of a proposal comes no later than the ask's boundary of the same rank if and only if both interval comparisons pass |
| `Billing.ComputeBalance` | retrievalmarket/types.go:285-317 | the bill computed with the loop is the specified balance |
| `Billing.ComputeLimit` | retrievalmarket/types.go:321-335 | the limit computed with the loop is the specified limit |
| `Billing.BalanceIsShortfall` | retrievalmarket/types.go:285-317 | for all terms and fewer than 2^63 sent bytes, the balance is what is missing to the unseal price first, then to the price of the bytes the loop bills |
| `Billing.BillMatchesLimit` | retrievalmarket/types.go:285-345 | on tame terms, in the signed range, nothing is owed outside finalization if and only if unsealing is paid and bytes are free or the sent bytes are below the data limit of the same funds |
| `Billing.BillFollowsLoops` | retrievalmarket/types.go:285-345 | for all terms, bill and limit agree on a pair of values if and only if unsealing is unpaid, bytes are free or the two loops agree on it |
| `Billing.BillMatchesLimitExactly` | retrievalmarket/types.go:285-345 | on priced terms whose loops end, bill and limit agree on all values in the signed range if and only if the loops' target is steady |
| `Billing.BillMissesLimitWhenWrapping` | retrievalmarket/types.go:285-345 | an input on which the loops wrap around and bill and limit disagree |
| `Billing.BillMatchesLimitPastSignedRange` | retrievalmarket/types.go:305-316 | without wrap-around, bill and limit agree if and only if the billed bytes are below 2^63 or the sent bytes are within the limit |
| `Billing.BillMissesLimitPastSignedRange` | retrievalmarket/types.go:305-316 | an input past the signed range on which they disagree |
| `Billing.BillLostPastSignedRange` | retrievalmarket/types.go:305-316 | once the billed bytes reach 2^63 nothing is owed |
| `Billing.SettledInTwoPayments` | retrievalmarket/types.go:285-317 | paying the quoted balance twice settles from any funds, once if unsealing is paid |
| `Billing.SettlingTotalMonotone` | retrievalmarket/types.go:285-317 | funds plus quoted balance never decreases with the funds |
| `Billing.FinalBillIsVoucher` | retrievalmarket/impl/clientstates/client_states.go:157-173 | in finalization the least settling total for n bytes is exactly the voucher the client makes for n bytes |
| `Billing.LimitOfCovered` | retrievalmarket/types.go:321-335 | on tame terms the data limit is the first boundary beyond the whole bytes the funds cover |
| `Billing.VoucherCovers` | retrievalmarket/impl/clientstates/client_fsm.go:304-307 | a voucher for n bytes covers exactly n bytes |
| `Billing.UnpaidBytesWithinOneInterval` | retrievalmarket/types.go:285-345 | on tame terms, limit and settled bytes exceed the paid bytes by at most the length of the interval the paid bytes lie in |
| `Billing.AcceptedTermsDominateAsk` | retrievalmarket/impl/provider_environments.go:78-92 | terms pass if and only if every boundary comes no later than the ask's and every byte count costs at least the ask's price |
| `ClientFsm.DealRecord.constructor` | retrievalmarket/impl/client.go:249-266 | the new record is the initial deal |
| `ClientFsm.DealRecord.ActPaymentSent` | retrievalmarket/impl/clientstates/client_fsm.go:271-316 | the in-place update, with its 64-bit loop, is the specified settlement of the ledger |
| `ClientFsm.DealRecord.RunAction` | retrievalmarket/impl/clientstates/client_fsm.go:33-387 | every action updates the record as specified and changes no other field |
| `ClientFsm.DealRecord.Plan` | retrievalmarket/impl/clientstates/client_fsm.go:33-396 | one event moves the record as the table and the actions say, including dropped events and final statuses |
| `ClientFsm.ApplyEffect` | retrievalmarket/impl/clientstates/client_fsm.go:33-387 | apart from the status an event runs its whole action or changes nothing |
| `ClientMachine.TurnEffect` | retrievalmarket/impl/clientstates/client_states.go:87-198 | what one undisturbed event with its handler does to deal, queue and vouchers |
| `ClientMachine.ProcessNext` | retrievalmarket/impl/clientstates/client_fsm.go:33-396 | taking the next event in place on the record is the step of the run |
| `ClientLedger.LedgerConserved` | retrievalmarket/impl/clientstates/client_fsm.go:164-199 | in every run the amount still requested plus the amount spent is the sum of all amounts asked for in accepted events |
| `ClientLedger.PaymentKeepsSound` | retrievalmarket/impl/clientstates/client_fsm.go:280-316 | recording a voucher for received bytes keeps all counters consistent and, on tame terms, the awaited interval at most the boundary after the paid bytes |
| `ClientLedger.HandlerPaysAll` | retrievalmarket/impl/clientstates/client_states.go:137-198 | any voucher a handler makes is for exactly the bytes received and exceeds what was spent |
| `ClientLedger.StepKeepsSafe` | retrievalmarket/impl/clientstates/client_fsm.go:33-387 | every step of the machine keeps counters, queued payments and vouchers consistent |
| `ClientLedger.AlwaysMoneySafe` | retrievalmarket/impl/clientstates/client_states.go:87-198 | that consistency holds at the end of every run |
| `ClientLedger.NeverOverpays` | retrievalmarket/impl/clientstates/client_states.go:137-198 | in every run funds spent and all vouchers are at most the price of the bytes received, vouchers never shrink, and paid bytes are at most received bytes |
| `ClientLedger.SameTerms` | retrievalmarket/impl/clientstates/client_fsm.go:33-387 | no run changes the terms or the funds of a deal |
| `ClientPointers.EventKeepsPointers` | retrievalmarket/impl/clientstates/client_fsm.go:87-153 | every event keeps the pointers its next status needs, and its action finds the ones it dereferences |
| `ClientPointers.HandlerFindsPointers` | retrievalmarket/impl/clientstates/client_states.go:42-223 | every handler finds the pointers it dereferences |
| `ClientPointers.PointersAlwaysSet` | retrievalmarket/impl/clientstates/client_states.go:42-223 | in every run, whatever the terms, the pointers a status needs are set |
| `ClientPointers.NeverPanics` | retrievalmarket/impl/clientstates/client_states.go:42-223 | no run of a deal that is free when unfunded dereferences a nil pointer |
| `ClientPointers.UnfundedPricedDealPanics` | retrievalmarket/impl/clientstates/client_states.go:42-48 | every unfunded deal with a price has a run that dereferences the missing payment channel |
| `ClientPointers.PointerSafetyExact` | retrievalmarket/impl/clientstates/client_states.go:42-223 | all runs are free of nil dereferences if and only if the deal is free when unfunded |
| `ClientPointers.WaitingForFundsOwnsChannel` | retrievalmarket/impl/client.go:313-327 | a reachable deal waiting for funds has the payment channel that the restart call reads, whatever its terms |
| `ClientCompletion.EventKeepsHonest` | retrievalmarket/impl/clientstates/client_fsm.go:164-350 | no event reaches a completing or last-payment status without its reason |
| `ClientCompletion.AlwaysHonest` | retrievalmarket/impl/clientstates/client_states.go:247-266 | in every run, queued verifications included, completion has its reason |
| `ClientCompletion.CompletesHonestly` | retrievalmarket/impl/clientstates/client_fsm.go:319-350 | a reachable completed deal has all its blocks or was asked for a last payment; the last-payment statuses are reached only after that request |
| `ClientProgress.TriggeredEventsRun` | retrievalmarket/impl/clientstates/client_fsm.go:33-387 | what a handler triggers makes a handler run, except exactly a payment-channel error while initial funds are added or funds are checked |
| `ClientProgress.AlwaysAttended` | retrievalmarket/impl/clientstates/client_states.go:33-290 | in every run a deal with something to do has a handler in flight or an event queued that will run one, those two statuses aside |
| `ClientProgress.RestsOnlyWithNothingToDo` | retrievalmarket/impl/clientstates/client_states.go:33-290 | a reachable idle client has nothing to do, or is in one of those two statuses |
| `ClientProgress.NeverParkedAtLimit` | retrievalmarket/impl/clientstates/client_states.go:87-134 | in every run, an idle client in the transfer was asked for no more than it paid, and one that needs funds is below the limit of what it paid, with unsealing paid and all its blocks paid if it has them all; a client that already waits for completion is the subject of `Stranding` |
| `ClientProgress.NothingToAskFor` | retrievalmarket/impl/providerstates/provider_states.go:94-138 | a provider in step with an idle client that needs funds is owed nothing |
| `ProviderFsm.DealRecord.Plan` | retrievalmarket/impl/providerstates/provider_fsm.go:18-116 | one event moves the record as the table and the actions say |
| `ProviderRuns.ConsumeAll` | retrievalmarket/impl/provider.go:152-154 | taking all queued events in place on the record gives the deal of the run |
| `ProviderRuns.ConsumedIsRun` | retrievalmarket/impl/provider.go:152-154 | taking all queued events is a run that empties the queue |
| `ProviderFsm.RestartAgreesWithFunding` | retrievalmarket/impl/requestvalidation/requestvalidation.go:204-229 | once the funding event is recorded, a restart yields the limit, pause and finalization flags that funding issued, in all three funds-needed statuses |
| `ProviderFsm.RestartDecision` | retrievalmarket/impl/providerstates/provider_states.go:94-138 | the recorded status is one from which restart decides as funding did, paid or partially paid |
| `ProviderFsm.FinalizationLiftedOnlyWhenSettled` | retrievalmarket/impl/requestvalidation/requestvalidation.go:170-229 | no answer lifts finalization while a balance is owed |
| `ProviderRuns.FundingIsSound` | retrievalmarket/impl/providerstates/provider_states.go:80-174 | funding triggers at most one event, whose amount is what was newly received |
| `ProviderRuns.FundingIsBilled` | retrievalmarket/impl/providerstates/provider_states.go:94-138 | full payment is announced only for a settled bill and the limit issued is the one the total buys |
| `ProviderRuns.StepKeepsSound` | retrievalmarket/impl/providerstates/provider_fsm.go:18-116 | every step keeps queue, ledger and paid work consistent |
| `ProviderRuns.AlwaysSound` | retrievalmarket/impl/providerstates/provider_states.go:36-144 | that consistency holds at the end of every run |
| `ProviderRuns.NeverWorksUnpaid` | retrievalmarket/impl/providerstates/provider_fsm.go:30-81 | in every run unsealing, serving and finalizing have the unseal price received, and finalizing has the bill for the queued bytes paid in full |
| `ProviderRuns.LedgerMatchesLane` | retrievalmarket/impl/providerstates/provider_fsm.go:64-81 | in every run funds received are the sum of recorded payments and, on a live deal, equal the best voucher on the lane less what is queued |
| `ProviderRuns.LimitMatchesVoucher` | retrievalmarket/impl/providerstates/provider_states.go:94-138 | on tame terms, with no transfer error queued and fewer than 2^63 bytes paid, the data limit in force on a live deal is the boundary its best voucher buys, at most one interval beyond the paid bytes |
| `Exchange.ClientPaysAtLimit` | retrievalmarket/impl/clientstates/client_states.go:98-198 | a client that has received everything up to the limit decides to pay and makes the voucher for all of it |
| `Exchange.ProviderAsksAtLimit` | retrievalmarket/impl/providerstates/provider_states.go:94-138 | a provider at its limit asks for a positive balance, and the client reads the answer as a payment request for it |
| `Exchange.VoucherUnlocks` | retrievalmarket/types.go:285-345 | for all terms, a voucher for all queued bytes settles the bill, in or out of finalization, and if the loop ends lifts the limit beyond them |
| `Exchange.ProviderTakesVoucher` | retrievalmarket/impl/providerstates/provider_states.go:80-174 | the provider records that voucher in full and answers accordingly |
| `Exchange.ClientRound` | retrievalmarket/impl/clientstates/client_fsm.go:164-316 | the three turns from the request to the recorded payment |
| `Exchange.NoPaymentStall` | retrievalmarket/impl/dtutils/dtutils.go:93-112 | from any reachable idle client in step with a provider at its limit, one round of both machines pays for every byte, resumes the provider beyond the queued bytes and leaves both ledgers in step, with the client idle again unless more had been asked for |
| `Exchange.LastPaymentTurns` | retrievalmarket/impl/clientstates/client_fsm.go:164-178 | the client's turns from the last request to waiting for completion |
| `Exchange.ProviderAsksLast` | retrievalmarket/impl/providerstates/provider_states.go:94-138 | in finalization the provider asks for exactly what is missing to the price of every byte |
| `Exchange.LastRoundSettles` | retrievalmarket/impl/providerstates/provider_states.go:80-144 | if the client has all blocks when it is asked, the last round pays every byte, lifts finalization, reports completion and leaves the client waiting for it; for an earlier request see `Stranding.StrandsExactly` |
| `JointRuns.JointInvariant` | retrievalmarket/impl/providerstates/provider_states.go:146-174 | over every interleaving of both machines, with messages lost, repeated or invented, the provider's lane holds nothing or a voucher of the client's |
| `JointRuns.BookedWithinReceived` | retrievalmarket/impl/clientstates/client_states.go:157-198 | over every interleaving, what the provider has on its lane and books, and what the client has spent, is at most the price of the bytes the client has received |
| `Lifecycle.FundingTurn` | retrievalmarket/impl/providerstates/provider_states.go:59-144 | an event that leaves the provider needing funds bills the deal, sends the response, records the outcome and leaves the provider waiting |
| `Lifecycle.DealOpens` | retrievalmarket/impl/clientstates/client_states.go:33-95 | every funded deal reaches its transfer in a wired run, through proposal, the provider's answer, payment channel, lane and unsealing, with exactly the unseal price paid and no response left undelivered |
| `Lifecycle.PayingRound` | retrievalmarket/impl/dtutils/dtutils.go:93-112 | a wired run at the data limit continues, by the provider's own request, to one where the price of all bytes is paid and both sides serve again |
| `Lifecycle.TransferGoesOn` | retrievalmarket/impl/providerstates/provider_states.go:59-144 | a wired run continues through any number of stops at the limit, with exactly the price of all bytes paid at each |
| `Lifecycle.LastPayment` | retrievalmarket/impl/providerstates/provider_states.go:94-138 | with all blocks received and bytes unpaid, the provider's last request in a wired run leads to both ledgers holding the price of every byte and the report of completion on its way; for an earlier request see `Stranding.PaysAll` and `Stranding.Strands` |
| `Lifecycle.NothingOwed` | retrievalmarket/impl/requestvalidation/requestvalidation.go:221-229 | with every byte paid already, the provider finalizes without a further voucher and reports completion |
| `Lifecycle.DealCompletes` | retrievalmarket/impl/clientstates/client_states.go:247-280 | from any running transfer with all bytes arrived a wired run completes the deal on both sides |
| `Lifecycle.WholeDeal` | retrievalmarket/impl/clientstates/client_fsm.go:33-387 | for any priced tame terms, nonzero funds, stops and final size, a wired run completes the deal on both sides with exactly the price of every byte on both ledgers, exactly the listed vouchers, and every response delivered |
| `Stalls.ShortfallStalls` | retrievalmarket/impl/clientstates/client_states.go:137-223 | from any running transfer at its limit whose client, the next request counted, was asked for no more than it paid, a wired path with a voucher shortfall leads to a stall: the request taken and unpaid, nothing on its way, no handler due, both sides idle and in step, money owed |
| `Stalls.StalledInCredit` | retrievalmarket/impl/clientstates/client_states.go:87-95 | every stalled client was asked for no more than it paid |
| `Stalls.StallsExactly` | retrievalmarket/impl/clientstates/client_states.go:87-223 | a running transfer at its limit can stall on the next request if and only if that request does not ask for more, in all, than the client has paid |
| `Stalls.OvershootStalls` | retrievalmarket/impl/clientstates/client_states.go:87-95 | deals that overshoot their first limit far enough reach such a stall |
| `Stalls.DealCanStall` | retrievalmarket/impl/clientstates/client_states.go:203-223 | intervals of ten bytes with stops at nineteen and twenty-nine do |
| `Stalls.InitialFundsErrorIsLost` | retrievalmarket/impl/clientstates/client_fsm.go:79-84 | every funded deal has a run that stays in adding initial funds with nothing queued |
| `Stalls.FundsCheckErrorIsLost` | retrievalmarket/impl/clientstates/client_fsm.go:79-84 | every funded deal with a price has a run that stays in checking funds with nothing queued |
| `Stranding.DroppedTurn` | retrievalmarket/impl/clientstates/client_fsm.go:164-230 | a client that waits for completion drops progress, the last block and requests, and nothing of it changes |
| `Stranding.LastCourse` | retrievalmarket/impl/clientstates/client_states.go:98-198 | for every list of progress counts after the last request, the client pays for exactly the first count beyond what is paid and not below the awaited interval, or for every byte if there is none, and then waits for completion |
| `Stranding.ShortExactly` | retrievalmarket/impl/clientstates/client_states.go:98-134 | some list of counts makes the client pay for fewer bytes than there are if and only if bytes are missing when it is asked, more than one byte is unpaid, and the awaited interval is below the total |
| `Stranding.OtherwisePaysAll` | retrievalmarket/impl/clientstates/client_states.go:98-134 | in every other case it pays for every byte, whatever the counts |
| `Stranding.Strands` | retrievalmarket/impl/clientstates/client_fsm.go:271-316 | if it pays for fewer, a wired path leads to a stranded deal: every byte received, every response taken, the client waiting for completion, the provider idle with money owed, both ledgers at what was paid |
| `Stranding.PaysAll` | retrievalmarket/impl/providerstates/provider_states.go:94-138 | if it pays for all, a wired path leads to both ledgers holding the price of every byte and the report of completion on its way |
| `Stranding.StrandsExactly` | retrievalmarket/impl/clientstates/client_fsm.go:164-316 | a transfer that begins to finalize can be stranded by the counts that follow if and only if bytes are missing, more than one byte is unpaid, and the awaited interval is below the total |
| `Stranding.LagStrands` | retrievalmarket/impl/clientstates/client_fsm.go:309-313 | a stop beyond the first boundary, whose payment advances the awaited interval by only one, and a last request that finds a few more bytes counted strand a deal |
| `Stranding.DealCanStrand` | retrievalmarket/impl/clientstates/client_fsm.go:271-279 | intervals of ten bytes, a stop at thirty-five and a last request with thirty-six of thirty-eight bytes counted do, below the data limit |
| `Spinning.FreeDealSpins` | retrievalmarket/impl/clientstates/client_states.go:87-173 | a deal with free bytes, asked for more than it paid, is back where it was after every three turns, without a voucher |
| `Spinning.PricedDealRests` | retrievalmarket/impl/clientstates/client_states.go:87-198 | a priced deal with a willing node that asks itself for payment is idle after four turns |
| `Uvarint.ReadUndoesPut` | stores/kvcarbs.go:223-241 | a length prefix below 2^63 reads back, at any position |
| `Cids.ReadUndoesEncode` | stores/kvcarbs.go:177-189 | a CID reads back from its bytes wherever it stands and whatever follows |
| `Cids.EncodeInjective` | stores/kvcarbs.go:1254-1278 | equal CID bytes mean equal CIDs |
| `CarFormat.LdReadUndoesWrite` | stores/kvcarbs.go:191-241 | for nonempty sections under 2^56 bytes reading undoes writing and consumes exactly the section's size |
| `CarFormat.SectionReadsBack` | stores/kvcarbs.go:177-189 | a block's section reads back as its CID and data |
| `CarFormat.SectionReadsInPlace` | stores/kvcarbs.go:1497-1531 | length and CID of a section read in place, and where the next one starts |
| `CarFormat.RecordPointsAtSection` | stores/kvcarbs.go:1548-1597 | every record points at its block's section, and sections are adjacent |
| `CarFormat.ScanFindsLog` | stores/kvcarbs.go:1497-1531 | scanning a payload finds the whole log in put order, and ends at its end |
| `CarIndex.BuildIndexSorted` | stores/kvcarbs.go:1103-1131 | the index is in digest order |
| `CarIndex.IndexFindsFirst` | stores/kvcarbs.go:1129-1173 | looking up a CID in the index finds the record inserted first for it |
| `CarIndex.FindStretch` | stores/kvcarbs.go:1151-1173 | the ascent visits precisely the records with the digest |
| `CarIndex.StretchHoldsKey` | stores/kvcarbs.go:1151-1173 | that stretch contains every record of a CID with the digest |
| `CarIndex.HasExactCID` | stores/kvcarbs.go:1254-1278 | true if and only if the index holds a record of this very CID |
| `CarFile.HeaderReadsBack` | stores/kvcarbs.go:1615-1649 | data offset and size read back from the header written |
| `CarFile.FinalizeKeepsPayload` | stores/kvcarbs.go:1615-1649 | finalizing leaves every payload byte and produces a finalized file |
| `CarFile.UnfinalizeRestores` | stores/kvcarbs.go:1465-1479 | unfinalizing gives back the open file byte for byte, whichever form it was in |
| `CarFile.ResumeRestores` | stores/kvcarbs.go:1410-1533 | resuming the file of any log restores the open file, the writer position and the index of exactly the log's records |
| `CarStore.LookupFindsData` | stores/kvcarbs.go:1548-1597 | the first record of a key is that of the block whose data the log denotes for it |
| `CarStore.ReadWrite.InitWithRoots` | stores/kvcarbs.go:1403-1408 | an empty file becomes the valid store of an empty log |
| `CarStore.ReadWrite.ResumeWithRoots` | stores/kvcarbs.go:1410-1533 | checks, file changes, writer position, index and errors are those specified; a failed check leaves the file alone, and an unreadable section is found only after the index was cut off and the header cleared |
| `CarStore.ReadWrite.Reopen` | stores/kvcarbs.go:1410-1533 | resuming the file of a log, open or finalized, brings back a valid store of that log |
| `CarStore.ReadWrite.PutMany` | stores/kvcarbs.go:1548-1597 | file, writer position and index keep holding exactly the log, which grows as specified; a closed store refuses and changes nothing |
| `CarStore.ReadWrite.PutBlock` | stores/kvcarbs.go:1555-1595 | one block is refused, skipped as a duplicate or appended |
| `CarStore.ReadWrite.WriteSection` | stores/kvcarbs.go:191-212 | three writes append exactly the block's section |
| `CarStore.ReadWrite.Has` | stores/kvcarbs.go:779-824 | true if and only if the denoted map has the key; a closed store says so |
| `CarStore.ReadWrite.Get` | stores/kvcarbs.go:828-877 | the data the denoted map has for the key, or not found |
| `CarStore.ReadWrite.GetSize` | stores/kvcarbs.go:880-935 | the length of the data `Get` returns, or not found |
| `CarStore.ReadWrite.Lookup` | stores/kvcarbs.go:1151-1173 | finds a key exactly when it is denoted, at the section that holds its data |
| `CarStore.ReadWrite.AllKeys` | stores/kvcarbs.go:960-1042 | lists the CID of every block in put order |
| `CarStore.ReadWrite.Discard` | stores/kvcarbs.go:1604-1610 | closes the store and touches nothing else |
| `CarStore.ReadWrite.Finalize` | stores/kvcarbs.go:1615-1649 | leaves a finalized file with the same payload and a closed store; a closed store is left alone |
| `CarStore.FindNamed` | stores/kvcarbs.go:797-816 | the callback stops at the first section whose CID is the key |
| `CarStore.Rescan` | stores/kvcarbs.go:1497-1531 | the relative-seek loop finds what the section scan finds, with the index built from it |
| `CarStore.ListKeys` | stores/kvcarbs.go:994-1040 | the absolute-seek loop finds the same CIDs in the same order |
| `CarStore.IndexContains` | stores/kvcarbs.go:1578-1594 | the index knows a CID if and only if the log contains it |
| `CarRuns.FirstWriteWins` | stores/kvcarbs.go:1348-1649 | over every run of puts, discards, finalizations and reopenings the store denotes the first write of every CID put while open |
| `CarRuns.NeverForgets` | stores/kvcarbs.go:1348-1649 | no continuation of a run changes or loses what it stored |
| `CarRuns.NoCidTwice` | stores/kvcarbs.go:1578-1594 | without duplicate puts no CID occurs twice in the log of any run |
| `CarRuns.Open` | stores/kvcarbs.go:1348-1401 | opening starts a valid empty store on an empty file and resumes any other file of a log |
| `CarRuns.Step` | stores/kvcarbs.go:1348-1649 | one operation keeps store, file and specification in agreement |
| `CarRuns.RunStore` | stores/kvcarbs.go:1348-1649 | after any sequence of operations the store holds exactly the specified blocks, in memory and on disk |
| `CarRuns.GetAfterRun` | stores/kvcarbs.go:828-877 | after any sequence of operations, `Get` answers from the first write of every CID put while open, and a closed store says so |
| `CarLoad.LoadCarSlow` | stores/kvcarbs.go:541-555 | puts exactly the blocks of the stream up to its end or first error |
| `CarLoad.LoadCarFast` | stores/kvcarbs.go:514-539 | the batches are exactly the blocks of the stream less those of an unfinished batch at an error, and all of them if and only if there are none such |
| `CarLoad.BrokenStreamLosesBlock` | stores/kvcarbs.go:514-555 | a broken stream of which slow loading puts a block and fast loading none |
| `CarLoad.PutAllInParts` | stores/kvcarbs.go:1548-1597 | putting a list is putting its parts one after the other |
| `CarLoad.BatchesRefineBlocks` | stores/kvcarbs.go:514-555 | a store cannot tell batches from their concatenation, at every flush position |
| `IdentityLinks.AddNew` | retrievalmarket/impl/provider_pieces.go:138-150 | appends precisely the CIDs that are new, in order and without duplicates |
| `IdentityLinks.LinksFromIdentityCid` | retrievalmarket/impl/provider_pieces.go:99-157 | succeeds if and only if the CID is usable, with a duplicate-free list of at most 32 non-identity CIDs that are exactly those nested in it, in the order first met |
| `IdentityLinks.CollectLinks` | retrievalmarket/impl/provider_pieces.go:126-151 | collects exactly the leaves of a list of links, or fails because of one of them |
| `IdentityLinks.Intersect` | retrievalmarket/impl/provider_pieces.go:76-87 | exactly the pieces in both lists |
| `IdentityLinks.CommonPieces` | retrievalmarket/impl/provider_pieces.go:63-93 | exactly the pieces that contain every link, despite the early exit, and exactly when it fails |
| `IdentityLinks.CommonPiecesFromIdentityCid` | retrievalmarket/impl/provider_pieces.go:57-94 | exactly the pieces that contain every CID nested in an identity CID; it fails if and only if the CID is unusable or some link has no answer while the links before it share a piece |
| `BlockMetadata.HeadReadsBack` | storagemarket/impl/blockrecorder/blockrecorder_cbor_gen.go:87-116 | a CBOR head of any 64-bit value reads back and consumes only its own bytes |
| `BlockMetadata.RecordReadsBack` | storagemarket/impl/blockrecorder/blockrecorder_cbor_gen.go:23-120 | a record reads back, whatever follows it |
| `BlockMetadata.UnmarshalStable` | storagemarket/impl/blockrecorder/blockrecorder_cbor_gen.go:57-120 | what was read from a stream is read from any longer stream |
| `BlockMetadata.ReadBlockMetadata` | storagemarket/impl/blockrecorder/blockrecorder.go:40-55 | the loop returns every record of the stream, or an error |
| `BlockMetadata.RecordsRoundTrip` | storagemarket/impl/blockrecorder/blockrecorder.go:29-55 | any recorded sequence is read back exactly |
| `BlockMetadata.CutRecordsDetected` | storagemarket/impl/blockrecorder/blockrecorder.go:40-55 | a stream cut between records reads as the records before the cut, and a stream cut anywhere else is an error |
| `BlockMetadata.LocatesData` | storagemarket/impl/blockrecorder/blockrecorder.go:29-37 | the recorded offset and size are where the block's data lies in the CAR |
| `BlockMetadata.Recorder.OnNewCarBlock` | storagemarket/impl/blockrecorder/blockrecorder.go:29-37 | appends exactly one record, with the block's location |
| `RecordStreams.ReadAll` | storagemarket/impl/blockrecorder/blockrecorder.go:40-55 | the reading loop returns what reading record after record gives |
| `RecordStreams.Codec.TruncationDetected` | storagemarket/impl/blockrecorder/blockrecorder.go:40-55 | for every reader that does not look ahead, exactly the cuts between records read without an error |

## Left out

- Networking, streams, retries, publishing of events, logging, contexts and timeouts.
- Process crashes: a client or provider that restarts with a persisted deal and a lost event queue.
- Exchange.NoPaymentStall: follows one undisturbed round; what other interleavings can lead to is stated by `ClientProgress.NeverParkedAtLimit`, over all runs. `Lifecycle` chains undisturbed rounds into whole deals.
- Exchange.LastRoundSettles: starts with all blocks received and some of the price missing; a last request that arrives earlier is the subject of `Stranding`.
- Lifecycle.LastPayment: starts with all blocks received, likewise.
- Stranding.StrandsExactly: takes each event with all it leads to before the next; a count or block that arrives while a payment is being sent is covered by the safety theorems only.
- Error messages and the error fields of deals.
- Byte counters at or beyond 2^63: the client's runs take the transfer layer's counter to stay below, where the code's signed conversion is the identity.
- Intervals.IntervalLowerBound: nothing is stated for byte counts on which the loop never ends.
- Intervals.NextIntervalLoop: nothing is stated for byte counts on which the loop never ends.
- ClientFsm.DealRecord.ActPaymentSent: nothing is stated when the boundary loop it enters never ends.
- `validatePull`'s rejections (wrong CID, selector, ask lookup, decision logic) and `updateFunding`'s text messages.
- CarStore.ReadWrite.ResumeWithRoots: the source accepts the same roots in another order (stores/kvcarbs.go:564-586); here the encoded header must be the same.
- Resuming a file whose last section is cut short: the scan does not notice it, and the store documents that it expects complete sections.
- The store with multihash lookup (`UseWholeCIDs(false)`), CARv1 input and `OpenReadOnly`: the repository opens its stores otherwise (stores/filestore.go:43-48).
- The bytes of the flattened index: `Finalize` writes an arbitrary byte string after the payload.
- CarFile.HeaderReadsBack: only the two fields that resuming uses are read back, and the library's own range checks on the header are not modelled.
- CarStore.ReadWrite.Finalize: the file must be smaller than 2^64 bytes, the range of the header's size field.
- Locks and concurrent readers of a store.
- Choosing a piece among several (`getBestPieceInfoMatch`) and sector queries.
- IdentityLinks.LinksFromIdentityCid: the multicodec decoding of a nested block is a given list of links.
- The storage market's state machines, the ask store, the piece store, migrations and legacy streams: the first are not part of this model, the rest copy fields or wrap maps.
