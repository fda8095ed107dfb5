/**
 What a deal owes and how much data a payment unlocks (retrievalmarket/types.go), and
 the provider's acceptance test for proposed terms (provider_environments.go).

 Tokens are unbounded integers, as in the source.  Byte counts are 64-bit and the bill
 passes through a signed 64-bit conversion, which the model keeps.
 */
module Billing {
  import opened Words
  import opened Intervals
  import opened LoopTermination
  import opened LoopAgreement
  import opened Wrappers

  /** `Params.OutstandingBalance`: what is still owed for `sent` bytes. */
  function OutstandingBalance(p: Params, fundsReceived: int, sent: uint64, inFinalization: bool): (owed: nat)
    ensures fundsReceived < p.unsealPrice ==> owed == p.unsealPrice - fundsReceived
  {
    if fundsReceived < p.unsealPrice then
      p.unsealPrice - fundsReceived
    else if p.pricePerByte == 0 then
      0
    else
      var transferPayment := fundsReceived - p.unsealPrice;
      var minimumBytesToPay := if inFinalization then sent else LowerLoop(p, sent);
      var totalPaymentRequired := AsInt64(minimumBytesToPay) * p.pricePerByte;
      var owed := totalPaymentRequired - transferPayment;
      if owed < 0 then 0 else owed
  }

  /** Whole bytes a payment total covers once unsealing is paid; zero while it is not. */
  function BytesCovered(p: Params, funds: int): nat
    requires p.pricePerByte > 0
  {
    var bytes := BytesPaid(p, funds);
    if bytes > 0 then bytes else 0
  }

  function BytesPaid(p: Params, funds: int): int
    requires p.pricePerByte > 0
  {
    (funds - p.unsealPrice) / p.pricePerByte
  }

  /** The covered bytes as a 64-bit number. */
  function Bought(p: Params, funds: int): uint64
    requires p.pricePerByte > 0
  {
    BytesCovered(p, funds) % UINT64_SIZE
  }

  /** `Params.NextInterval`: how many bytes may be transferred on these funds. */
  function NextInterval(p: Params, fundsReceived: int): uint64 {
    if p.pricePerByte == 0 then 0
    else NextLoop(p, Bought(p, fundsReceived))
  }

  /** The bill as the source computes it, with its loop. */
  method ComputeBalance(p: Params, fundsReceived: int, sent: uint64, inFinalization: bool) returns (owed: nat)
    requires fundsReceived >= p.unsealPrice && p.pricePerByte > 0 && !inFinalization ==> Stop(p, sent).Some?
    ensures owed == OutstandingBalance(p, fundsReceived, sent, inFinalization)
  {
    if fundsReceived < p.unsealPrice {
      return p.unsealPrice - fundsReceived;
    }
    if p.pricePerByte == 0 {
      return 0;
    }
    var transferPayment := fundsReceived - p.unsealPrice;
    var minimumBytesToPay := sent;
    if !inFinalization {
      minimumBytesToPay := IntervalLowerBound(p, sent);
    }
    var totalPaymentRequired := AsInt64(minimumBytesToPay) * p.pricePerByte;
    var rest := totalPaymentRequired - transferPayment;
    return if rest < 0 then 0 else rest;
  }

  /** The data limit as the source computes it, with its loop. */
  method ComputeLimit(p: Params, fundsReceived: int) returns (limit: uint64)
    requires p.pricePerByte > 0 ==> Stop(p, Bought(p, fundsReceived)).Some?
    ensures limit == NextInterval(p, fundsReceived)
  {
    if p.pricePerByte == 0 {
      return 0;
    }
    var currentInterval: uint64 := 0;
    var bytesPaid := BytesPaid(p, fundsReceived);
    if bytesPaid > 0 {
      currentInterval := bytesPaid % UINT64_SIZE;
    }
    assert currentInterval == Bought(p, fundsReceived);
    limit := NextIntervalLoop(p, currentInterval);
  }

  /** The cumulative price of `bytes` bytes, which is the amount of the client's voucher. */
  function VoucherAmount(p: Params, bytes: nat): nat {
    bytes * p.pricePerByte + p.unsealPrice
  }

  /** The funds buy a byte count in the signed range. */
  predicate CoverageFits(p: Params, funds: int) {
    p.pricePerByte > 0 ==> BytesCovered(p, funds) < INT64_LIMIT
  }

  /** The loops can be relied on: bytes are free, or no loop wraps around in the signed range. */
  predicate Sensible(p: Params) {
    p.pricePerByte > 0 ==> Tame(p)
  }

  // ---------------------------------------------------------------- arithmetic of prices

  /** A payment covers `bytes` bytes exactly when it reaches their voucher amount. */
  lemma CoveredIffPaid(p: Params, funds: int, bytes: nat)
    requires p.pricePerByte > 0 && funds >= p.unsealPrice
    ensures bytes <= BytesCovered(p, funds) <==> VoucherAmount(p, bytes) <= funds
  {
    DivisionBound(funds - p.unsealPrice, p.pricePerByte, bytes);
  }

  lemma DivisionBound(a: nat, d: nat, n: nat)
    requires d > 0
    ensures a / d >= 0
    ensures n <= a / d <==> n * d <= a
  {
    var q, r := a / d, a % d;
    assert a == q * d + r && 0 <= r < d;
    if n <= q {
      Scale(n, q, d);
    } else {
      Scale(q + 1, n, d);
      assert (q + 1) * d == q * d + d;
    }
  }

  /** A voucher for whole bytes covers exactly those bytes. */
  lemma VoucherCovers(p: Params, bytes: nat)
    requires p.pricePerByte > 0
    ensures BytesCovered(p, VoucherAmount(p, bytes)) == bytes
  {
    var funds := VoucherAmount(p, bytes);
    CoveredIffPaid(p, funds, bytes);
    CoveredIffPaid(p, funds, bytes + 1);
    assert (bytes + 1) * p.pricePerByte == bytes * p.pricePerByte + p.pricePerByte;
  }

  lemma VoucherMonotone(p: Params, a: nat, b: nat)
    requires a <= b
    ensures VoucherAmount(p, a) <= VoucherAmount(p, b)
    ensures a < b && p.pricePerByte > 0 ==> VoucherAmount(p, a) < VoucherAmount(p, b)
  {
    Scale(a, b, p.pricePerByte);
    if a < b && p.pricePerByte > 0 {
      Scale(a + 1, b, p.pricePerByte);
      assert (a + 1) * p.pricePerByte == a * p.pricePerByte + p.pricePerByte;
    }
  }

  // ---------------------------------------------------------------- the bill

  /** Bytes the bill asks for: what its loop returns, or every byte in finalization. */
  function BilledBytes(p: Params, sent: uint64, inFinalization: bool): (r: nat)
    requires p.pricePerByte > 0
    ensures r <= sent
  {
    if inFinalization then sent else LowerLoop(p, sent)
  }

  /**
   In the signed range, the balance is what is missing to the unseal price first, and
   to the voucher amount of the billed bytes after that.
   */
  lemma BalanceIsShortfall(p: Params, funds: int, sent: uint64, inFinalization: bool)
    requires sent < INT64_LIMIT
    ensures funds < p.unsealPrice ==> OutstandingBalance(p, funds, sent, inFinalization) == p.unsealPrice - funds
    ensures funds >= p.unsealPrice && p.pricePerByte == 0 ==> OutstandingBalance(p, funds, sent, inFinalization) == 0
    ensures funds >= p.unsealPrice && p.pricePerByte > 0 ==>
              var bill := VoucherAmount(p, BilledBytes(p, sent, inFinalization));
              OutstandingBalance(p, funds, sent, inFinalization) == if bill <= funds then 0 else bill - funds
  {}

  /** Nothing is owed outside finalization exactly when unsealing is paid and the limit is not reached. */
  predicate BillFitsLimit(p: Params, funds: int, sent: uint64) {
    OutstandingBalance(p, funds, sent, false) == 0 <==>
    funds >= p.unsealPrice && (p.pricePerByte == 0 || sent < NextInterval(p, funds))
  }

  /** In the signed range, bill and limit agree on a pair of values exactly when the two loops do. */
  lemma BillFollowsLoops(p: Params, funds: int, sent: uint64)
    requires sent < INT64_LIMIT && CoverageFits(p, funds)
    ensures BillFitsLimit(p, funds, sent) <==>
            funds < p.unsealPrice || p.pricePerByte == 0 || AgreeOn(p, sent, BytesCovered(p, funds))
  {
    BalanceIsShortfall(p, funds, sent, false);
    if funds >= p.unsealPrice && p.pricePerByte > 0 {
      CoveredIffPaid(p, funds, LowerLoop(p, sent));
      NoWrap(0, BytesCovered(p, funds));
    }
  }

  /**
   Bill and data limit agree in the signed range, although the two sides walk the boundaries
   with different loops, for all terms whose loops do not wrap around there.
   */
  lemma BillMatchesLimit(p: Params, funds: int, sent: uint64)
    requires Sensible(p) && sent < INT64_LIMIT && CoverageFits(p, funds)
    ensures BillFitsLimit(p, funds, sent)
  {
    BillFollowsLoops(p, funds, sent);
    if p.pricePerByte > 0 {
      TameTermsAgree(p);
    }
  }

  /**
   Exactly which priced terms have this property: those whose loops' target, whenever it
   reaches a new maximum, was at the old maximum just before.
   */
  lemma BillMatchesLimitExactly(p: Params)
    requires p.pricePerByte > 0 && Ends(p)
    ensures (forall funds: int, sent: uint64 ::
               sent < INT64_LIMIT && CoverageFits(p, funds) ==> BillFitsLimit(p, funds, sent)) <==>
            Steady(p)
  {
    LoopsAgreeExactly(p);
    if LoopsAgree(p) {
      forall funds: int, sent: uint64 | sent < INT64_LIMIT && CoverageFits(p, funds)
        ensures BillFitsLimit(p, funds, sent)
      {
        BillFollowsLoops(p, funds, sent);
      }
    } else {
      var sent: uint64, paid: uint64 :| sent < INT64_LIMIT && paid < INT64_LIMIT && !AgreeOn(p, sent, paid);
      var funds := VoucherAmount(p, paid);
      Scale(0, paid, p.pricePerByte);
      VoucherCovers(p, paid);
      BillFollowsLoops(p, funds, sent);
      assert !BillFitsLimit(p, funds, sent);
    }
  }

  /** On terms with a shrinking interval, ten bytes are free although three paid bytes only buy five. */
  lemma BillMissesLimitWhenWrapping()
    ensures OutstandingBalance(SHRINKING, 3, 10, false) == 0 && NextInterval(SHRINKING, 3) == 5
    ensures OutstandingBalance(SHRINKING, 0, 10, false) == 0
    ensures !BillFitsLimit(SHRINKING, 3, 10)
  {
    ShrinkingIntervalsDisagree();
    VoucherCovers(SHRINKING, 3);
  }

  lemma LimitOfCovered(p: Params, funds: int)
    requires p.pricePerByte > 0 && Tame(p) && CoverageFits(p, funds)
    ensures NextInterval(p, funds) == NextBoundary(p, BytesCovered(p, funds))
  {
    NoWrap(0, BytesCovered(p, funds));
    TameLoops(p, BytesCovered(p, funds));
  }

  /**
   Beyond the signed range: where neither loop wraps around, bill and limit agree exactly if
   the billed bytes are in the signed range or the bytes sent are within the limit anyway.
   */
  lemma BillMatchesLimitPastSignedRange(p: Params, funds: int, sent: uint64)
    requires p.pricePerByte > 0 && funds >= p.unsealPrice
    requires LoopFits(p, sent) && LoopFits(p, BytesCovered(p, funds))
    ensures BillFitsLimit(p, funds, sent) <==> LowerBoundary(p, sent) < INT64_LIMIT || sent < NextInterval(p, funds)
  {
    var paid := BytesCovered(p, funds);
    BoundariesEnclose(p, paid, 0);
    NoWrap(0, paid);
    LoopsFindBoundaries(p, sent);
    LoopsFindBoundaries(p, paid);
    BilledExactlyBelowLimit(p, sent, paid);
    if LowerBoundary(p, sent) < INT64_LIMIT {
      CoveredIffPaid(p, funds, LowerBoundary(p, sent));
    } else {
      BillLostPastSignedRange(p, funds, sent, false);
    }
  }

  /** The signed conversion turns a bill for 2^63 bytes or more negative: nothing is owed, whatever the funds. */
  lemma BillLostPastSignedRange(p: Params, funds: int, sent: uint64, inFinalization: bool)
    requires p.pricePerByte > 0 && funds >= p.unsealPrice
    requires BilledBytes(p, sent, inFinalization) >= INT64_LIMIT
    ensures OutstandingBalance(p, funds, sent, inFinalization) == 0
  {
    NegativeBill(AsInt64(BilledBytes(p, sent, inFinalization)), p.pricePerByte);
  }

  lemma NegativeBill(billed: int, price: nat)
    requires billed < 0
    ensures billed * price <= 0
  {
    Scale(0, -billed, price);
    assert billed * price == -((-billed) * price);
  }

  /** Intervals of 2^62 bytes: two of them sent, none paid, nothing owed. */
  lemma BillMissesLimitPastSignedRange()
    ensures var p := Params(1, INT64_LIMIT / 2, 0, 0);
            OutstandingBalance(p, 0, INT64_LIMIT, false) == 0 && NextInterval(p, 0) == INT64_LIMIT / 2
  {
    var p := Params(1, INT64_LIMIT / 2, 0, 0);
    assert p.Boundary(1) == INT64_LIMIT / 2;
    assert p.Boundary(2) == INT64_LIMIT;
    assert p.Boundary(3) == INT64_LIMIT / 2 * 3;
    SearchFinds(p, INT64_LIMIT, 0, 3);
    SearchFinds(p, 0, 0, 1);
    BillLostPastSignedRange(p, 0, INT64_LIMIT, false);
  }

  /** Paying the quoted balance, and then once more what is quoted, settles from any funds. */
  lemma SettledInTwoPayments(p: Params, funds: int, sent: uint64, inFinalization: bool)
    requires sent < INT64_LIMIT
    ensures var once := funds + OutstandingBalance(p, funds, sent, inFinalization);
            var twice := once + OutstandingBalance(p, once, sent, inFinalization);
            OutstandingBalance(p, twice, sent, inFinalization) == 0
    ensures funds >= p.unsealPrice ==>
              OutstandingBalance(p, funds + OutstandingBalance(p, funds, sent, inFinalization), sent, inFinalization) == 0
  {
    var once := funds + OutstandingBalance(p, funds, sent, inFinalization);
    BalanceIsShortfall(p, funds, sent, inFinalization);
    BalanceIsShortfall(p, once, sent, inFinalization);
    BalanceIsShortfall(p, once + OutstandingBalance(p, once, sent, inFinalization), sent, inFinalization);
  }

  /** A client that has paid more is never asked to end up with a smaller total. */
  lemma SettlingTotalMonotone(p: Params, funds: int, more: int, sent: uint64, inFinalization: bool)
    requires sent < INT64_LIMIT && funds <= more
    ensures funds + OutstandingBalance(p, funds, sent, inFinalization)
         <= more + OutstandingBalance(p, more, sent, inFinalization)
    ensures OutstandingBalance(p, funds, sent, inFinalization) == 0 ==>
            OutstandingBalance(p, more, sent, inFinalization) == 0
  {
    BalanceIsShortfall(p, funds, sent, inFinalization);
    BalanceIsShortfall(p, more, sent, inFinalization);
  }

  /** In finalization the least settling total for `sent` bytes is the voucher for `sent` bytes. */
  lemma FinalBillIsVoucher(p: Params, funds: int, sent: uint64)
    requires sent < INT64_LIMIT
    ensures OutstandingBalance(p, funds, sent, true) == 0 <==> funds >= VoucherAmount(p, sent)
  {
    BalanceIsShortfall(p, funds, sent, true);
    Scale(0, sent, p.pricePerByte);
  }

  /**
   Bounded exposure: while nothing is owed, the bytes sent beyond those paid for are
   fewer than one payment interval, the one the paid byte count lies in.
   */
  lemma UnpaidBytesWithinOneInterval(p: Params, funds: int, sent: uint64)
    requires p.pricePerByte > 0 && Tame(p) && sent < INT64_LIMIT && CoverageFits(p, funds)
    ensures var paid := BytesCovered(p, funds);
            NextInterval(p, funds) - paid <= p.IntervalSize(IntervalOf(p, paid))
    ensures OutstandingBalance(p, funds, sent, false) == 0 ==>
            sent - BytesCovered(p, funds) < p.IntervalSize(IntervalOf(p, BytesCovered(p, funds)))
  {
    BillMatchesLimit(p, funds, sent);
    LimitOfCovered(p, funds);
    BoundariesEnclose(p, BytesCovered(p, funds), 0);
  }

  // ---------------------------------------------------------------- accepting terms

  datatype TermsError = PriceTooLow | IntervalTooLarge | IncreaseTooLarge | UnsealPriceTooSmall

  /** `CheckDealParams`: compares proposed terms with the provider's ask, in the source's order. */
  function CheckDealParams(ask: Params, askHasUnsealPrice: bool, p: Params): Option<TermsError> {
    if p.pricePerByte < ask.pricePerByte then Some(PriceTooLow)
    else if p.paymentInterval > ask.paymentInterval then Some(IntervalTooLarge)
    else if p.paymentIntervalIncrease > ask.paymentIntervalIncrease then Some(IncreaseTooLarge)
    else if askHasUnsealPrice && p.unsealPrice < ask.unsealPrice then Some(UnsealPriceTooSmall)
    else None
  }

  /**
   What acceptance guarantees, and all it takes: every boundary comes no later than the
   ask's and every byte count costs at least what the ask would charge for it.
   */
  lemma AcceptedTermsDominateAsk(ask: Params, askHasUnsealPrice: bool, p: Params)
    requires !askHasUnsealPrice ==> ask.unsealPrice == 0
    ensures CheckDealParams(ask, askHasUnsealPrice, p) == None <==>
            (forall k: nat :: p.Boundary(k) <= ask.Boundary(k)) &&
            (forall bytes: nat :: VoucherAmount(p, bytes) >= VoucherAmount(ask, bytes))
  {
    BoundariesNoLaterThanAsk(p, ask);
    PricesDominate(ask, p);
  }

  lemma PricesDominate(ask: Params, p: Params)
    ensures (forall bytes: nat :: VoucherAmount(p, bytes) >= VoucherAmount(ask, bytes)) <==>
            p.unsealPrice >= ask.unsealPrice && p.pricePerByte >= ask.pricePerByte
  {
    if p.unsealPrice < ask.unsealPrice {
      assert VoucherAmount(p, 0) < VoucherAmount(ask, 0);
    } else if p.pricePerByte < ask.pricePerByte {
      var bytes := p.unsealPrice - ask.unsealPrice + 1;
      ScaleDifference(ask.pricePerByte, p.pricePerByte, bytes);
      assert VoucherAmount(p, bytes) < VoucherAmount(ask, bytes);
    } else {
      forall bytes: nat ensures VoucherAmount(p, bytes) >= VoucherAmount(ask, bytes) {
        Scale(ask.pricePerByte, p.pricePerByte, bytes);
      }
    }
  }
}
