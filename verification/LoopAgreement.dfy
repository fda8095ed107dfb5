/**
 Exactly when the source's two 64-bit boundary loops agree with each other: the bill's loop
 never asks for more than was paid while the limit's loop still lets data through, and the
 other way round.
 */
module LoopAgreement {
  import opened Words
  import opened Wrappers
  import opened Intervals
  import opened LoopTermination

  /** The bill for `sent` bytes is within `paid` bytes exactly when the limit lets `sent` bytes through. */
  predicate AgreeOn(p: Params, sent: uint64, paid: uint64) {
    LowerLoop(p, sent) <= paid <==> sent < NextLoop(p, paid)
  }

  /** The loops agree on all byte counts in the signed range. */
  ghost predicate LoopsAgree(p: Params) {
    forall sent: uint64, paid: uint64 :: sent < INT64_LIMIT && paid < INT64_LIMIT ==> AgreeOn(p, sent, paid)
  }

  /** Round `i` sets a new maximum, and everything before it is in the signed range. */
  ghost predicate Peak(p: Params, i: nat) {
    0 < i < PERIOD && forall m :: 0 <= m < i ==> p.Wrapped(m) < p.Wrapped(i) && p.Wrapped(m) < INT64_LIMIT
  }

  /** Whenever the loops' target sets a new maximum, it was at the old maximum just before. */
  ghost predicate Steady(p: Params) {
    forall i: nat, m: nat :: Peak(p, i) && m < i ==> p.Wrapped(m) <= p.Wrapped(i - 1)
  }

  /** The loops stop at a peak. */
  lemma StopIsPeak(p: Params, x: uint64) returns (k: nat)
    requires x < INT64_LIMIT && Stop(p, x).Some?
    ensures Stop(p, x) == Some(k) && k > 0 && Peak(p, k)
    ensures LowerLoop(p, x) == p.Wrapped(k - 1) && NextLoop(p, x) == p.Wrapped(k) > x
    ensures forall m :: 0 <= m < k ==> p.Wrapped(m) <= x
  {
    SearchFound(p, x, 0);
    k := Stop(p, x).value;
    forall m | 0 <= m < k ensures p.Wrapped(m) <= x {
      SearchSkips(p, x, 0, m);
    }
  }

  /** A target beyond `x` is not before the stop. */
  lemma StopNoLater(p: Params, x: uint64, k: nat)
    requires k < PERIOD && p.Wrapped(k) > x
    ensures Stop(p, x).Some? && Stop(p, x).value <= k
  {
    if Stop(p, x).None? || k < Stop(p, x).value {
      SearchSkips(p, x, 0, k);
    }
  }

  lemma StopsBelow(p: Params, x: uint64, y: uint64)
    requires x <= y && Stop(p, y).Some?
    ensures Stop(p, x).Some?
  {
    SearchFound(p, y, 0);
    StopNoLater(p, x, Stop(p, y).value);
  }

  /** Data within the limit of a payment is never billed beyond it, wrapped or not. */
  lemma WithinLimitIsPaid(p: Params, sent: uint64, paid: uint64)
    requires sent < INT64_LIMIT && paid < INT64_LIMIT && Stop(p, paid).Some? && sent < NextLoop(p, paid)
    ensures LowerLoop(p, sent) <= paid
  {
    var k := StopIsPeak(p, paid);
    StopNoLater(p, sent, k);
    var j := StopIsPeak(p, sent);
  }

  /** With steady targets, data that is paid for is within the limit. */
  lemma PaidIsWithinLimit(p: Params, sent: uint64, paid: uint64)
    requires sent < INT64_LIMIT && paid < INT64_LIMIT && Stop(p, sent).Some? && Stop(p, paid).Some?
    requires Steady(p) && LowerLoop(p, sent) <= paid
    ensures sent < NextLoop(p, paid)
  {
    var j := StopIsPeak(p, sent);
    var k := StopIsPeak(p, paid);
  }

  lemma {:induction false} Highest(p: Params, i: nat) returns (m: nat)
    requires i > 0
    ensures m < i && forall j :: 0 <= j < i ==> p.Wrapped(j) <= p.Wrapped(m)
  {
    m := 0;
    if i > 1 {
      m := Highest(p, i - 1);
      if p.Wrapped(i - 1) > p.Wrapped(m) {
        m := i - 1;
      }
    }
  }

  /** A peak that rises from below the old maximum sets the loops at odds. */
  lemma UnsteadyDisagrees(p: Params, i: nat, m: nat) returns (sent: uint64, paid: uint64)
    requires Peak(p, i) && m < i && p.Wrapped(m) > p.Wrapped(i - 1)
    ensures sent < INT64_LIMIT && paid < INT64_LIMIT
    ensures !AgreeOn(p, sent, paid)
  {
    var top := Highest(p, i);
    sent, paid := p.Wrapped(top), p.Wrapped(i - 1);
    SearchFinds(p, sent, 0, i);
    StopNoLater(p, paid, top);
  }

  /**
   The two loops agree on every pair of byte counts in the signed range if and only if no
   new maximum of their common target rises from below an earlier target.
   */
  lemma LoopsAgreeExactly(p: Params)
    requires Ends(p)
    ensures LoopsAgree(p) <==> Steady(p)
  {
    EndsInRange(p);
    if Steady(p) {
      forall sent: uint64, paid: uint64 | sent < INT64_LIMIT && paid < INT64_LIMIT ensures AgreeOn(p, sent, paid) {
        SteadyAgrees(p, sent, paid);
      }
    } else {
      var i: nat, m: nat :| Peak(p, i) && m < i && p.Wrapped(m) > p.Wrapped(i - 1);
      var sent, paid := UnsteadyDisagrees(p, i, m);
    }
  }

  lemma SteadyAgrees(p: Params, sent: uint64, paid: uint64)
    requires Stop(p, INT64_LIMIT - 1).Some? && Steady(p) && sent < INT64_LIMIT && paid < INT64_LIMIT
    ensures AgreeOn(p, sent, paid)
  {
    StopsBelow(p, sent, INT64_LIMIT - 1);
    StopsBelow(p, paid, INT64_LIMIT - 1);
    if LowerLoop(p, sent) <= paid {
      PaidIsWithinLimit(p, sent, paid);
    } else if sent < NextLoop(p, paid) {
      WithinLimitIsPaid(p, sent, paid);
    }
  }

  /** The target does not drop before it first leaves the signed range. */
  ghost predicate Rising(p: Params) {
    forall k: nat :: Low(p, k) ==> p.Wrapped(k) <= p.Wrapped(k + 1)
  }

  /** All targets up to this round are in the signed range. */
  ghost predicate Low(p: Params, k: nat) {
    forall m: nat :: m <= k ==> p.Wrapped(m) < INT64_LIMIT
  }

  /** A simpler condition that is enough: a target that only rises is steady. */
  lemma RisingIsSteady(p: Params)
    requires Rising(p)
    ensures Steady(p)
  {
    forall i: nat, m: nat | Peak(p, i) && m < i ensures p.Wrapped(m) <= p.Wrapped(i - 1) {
      RisesTo(p, m, i - 1);
    }
  }

  lemma {:induction false} RisesTo(p: Params, m: nat, k: nat)
    requires Rising(p) && m <= k && Low(p, k)
    ensures p.Wrapped(m) <= p.Wrapped(k)
    decreases k - m
  {
    if m < k {
      assert Low(p, k - 1);
      RisesTo(p, m, k - 1);
    }
  }

  /** Terms whose loops do not wrap around in the signed range agree. */
  lemma TameTermsAgree(p: Params)
    requires Tame(p)
    ensures Stop(p, INT64_LIMIT - 1).Some? && LoopsAgree(p)
  {
    TameLoops(p, INT64_LIMIT - 1);
    forall sent: uint64, paid: uint64 | sent < INT64_LIMIT && paid < INT64_LIMIT ensures AgreeOn(p, sent, paid) {
      TameLoops(p, sent);
      TameLoops(p, paid);
      BilledExactlyBelowLimit(p, sent, paid);
    }
  }

  // ---------------------------------------------------------------- terms that wrap around

  /** An increase one short of 2^64 takes a byte off the interval in every round. */
  const SHRINKING := Params(1, 3, UINT64_SIZE - 1, 0)

  /** Its targets go up to six, back to zero and then beyond every byte count in the signed range. */
  lemma ShrinkingTargets()
    ensures SHRINKING.Wrapped(0) == 0 && SHRINKING.Wrapped(1) == 3 && SHRINKING.Wrapped(2) == 5
    ensures SHRINKING.Wrapped(3) == 6 && SHRINKING.Wrapped(4) == 6 && SHRINKING.Wrapped(5) == 5
    ensures SHRINKING.Wrapped(6) == 3 && SHRINKING.Wrapped(7) == 0 && SHRINKING.Wrapped(8) == UINT64_SIZE - 4
  {
    var p := SHRINKING;
    assert p.Boundary(1) == 3;
    assert p.Boundary(2) == UINT64_SIZE + 5;
    assert p.Boundary(3) == 3 * UINT64_SIZE + 6;
    assert p.Boundary(4) == 6 * UINT64_SIZE + 6;
    assert p.Boundary(5) == 10 * UINT64_SIZE + 5;
    assert p.Boundary(6) == 15 * UINT64_SIZE + 3;
    assert p.Boundary(7) == 21 * UINT64_SIZE;
    assert p.Boundary(8) == 28 * UINT64_SIZE - 4;
  }

  /** On those terms ten bytes are billed as none, while three paid bytes only let five through. */
  lemma ShrinkingIntervalsDisagree()
    ensures LowerLoop(SHRINKING, 10) == 0 && NextLoop(SHRINKING, 3) == 5
    ensures !Tame(SHRINKING) && !LoopsAgree(SHRINKING)
  {
    var p := SHRINKING;
    ShrinkingTargets();
    SearchFinds(p, 10, 0, 8);
    SearchFinds(p, 3, 0, 2);
    assert !AgreeOn(p, 10, 3);
    if Tame(p) {
      TameTermsAgree(p);
    }
  }
}
