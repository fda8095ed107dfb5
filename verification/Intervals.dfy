/**
 Deal parameters and payment-interval arithmetic of the retrieval market
 (retrievalmarket/types.go).

 A deal is paid in growing intervals.  Interval boundaries start at zero and the
 k-th interval is `paymentInterval + k * paymentIntervalIncrease` bytes long.  The
 source walks these boundaries with two separate 64-bit loops: one is meant to return
 the last boundary at or before a byte count, the other the first boundary beyond it.
 Without wrap-around they do.
 */
module Intervals {
  import opened Words
  import opened Wrappers

  type uint64 = x: nat | x < UINT64_SIZE

  /** The priced part of `Params`; a nil token amount is read as zero. */
  datatype Params = Params(
    pricePerByte: nat,
    paymentInterval: uint64,
    paymentIntervalIncrease: uint64,
    unsealPrice: nat)
  {
    /** Boundaries go beyond any byte count exactly when one of the two lengths is positive. */
    predicate Grows() {
      paymentInterval > 0 || paymentIntervalIncrease > 0
    }

    /** Length of the k-th payment interval. */
    function IntervalSize(k: nat): nat {
      paymentInterval + k * paymentIntervalIncrease
    }

    /** The k-th interval boundary. */
    function Boundary(k: nat): nat {
      if k == 0 then 0 else Boundary(k - 1) + IntervalSize(k - 1)
    }

    /** The k-th value of the loops' 64-bit target. */
    function Wrapped(k: nat): uint64 {
      Boundary(k) % UINT64_SIZE
    }
  }

  /** Go's conversion of a uint64 to int64. */
  function AsInt64(x: uint64): (r: int)
    ensures x < INT64_LIMIT ==> r == x
    ensures x >= INT64_LIMIT ==> r < 0
  {
    if x < INT64_LIMIT then x else x - UINT64_SIZE
  }

  /** Go's wrapping addition of two uint64 values. */
  function Add64(a: uint64, b: uint64): uint64 {
    (a + b) % UINT64_SIZE
  }

  // ---------------------------------------------------------------- boundaries

  /** The last interval whose lower boundary is at or before `x`, searching from interval `k`. */
  function IntervalFrom(p: Params, x: nat, k: nat): (r: nat)
    requires p.Grows() && p.Boundary(k) <= x
    ensures p.Boundary(r) <= x < p.Boundary(r + 1)
    decreases x - p.Boundary(k), if p.IntervalSize(k) == 0 then 1 else 0
  {
    if x < p.Boundary(k + 1) then k else
      ZeroOnlyFirst(p, k + 1);
      IntervalFrom(p, x, k + 1)
  }

  /** Only the very first interval can be empty. */
  lemma ZeroOnlyFirst(p: Params, k: nat)
    requires p.Grows() && k > 0
    ensures p.IntervalSize(k) > 0
  {
    if p.paymentIntervalIncrease > 0 {
      assert k * p.paymentIntervalIncrease >= 1 * p.paymentIntervalIncrease;
    }
  }

  /** The interval that contains byte position `x`. */
  function IntervalOf(p: Params, x: nat): nat
    requires p.Grows()
  {
    IntervalFrom(p, x, 0)
  }

  /** Last boundary at or before `x`: what the bill's loop is meant to find. */
  function LowerBoundary(p: Params, x: nat): nat
    requires p.Grows()
  {
    p.Boundary(IntervalOf(p, x))
  }

  /** First boundary beyond `x`: what the data limit's loop is meant to find. */
  function NextBoundary(p: Params, x: nat): nat
    requires p.Grows()
  {
    p.Boundary(IntervalOf(p, x) + 1)
  }

  lemma {:induction false} BoundaryMonotone(p: Params, j: nat, k: nat)
    requires j <= k
    ensures p.Boundary(j) <= p.Boundary(k)
    decreases k - j
  {
    if j < k {
      BoundaryMonotone(p, j, k - 1);
    }
  }

  /** The two searched boundaries enclose `x` and no boundary lies strictly between them. */
  lemma BoundariesEnclose(p: Params, x: nat, k: nat)
    requires p.Grows()
    ensures LowerBoundary(p, x) <= x < NextBoundary(p, x)
    ensures p.Boundary(k) <= x ==> p.Boundary(k) <= LowerBoundary(p, x)
    ensures p.Boundary(k) > x ==> p.Boundary(k) >= NextBoundary(p, x)
  {
    var i := IntervalOf(p, x);
    if k <= i {
      BoundaryMonotone(p, k, i);
    } else {
      BoundaryMonotone(p, i + 1, k);
    }
  }

  lemma NextBoundaryMonotone(p: Params, x: nat, y: nat)
    requires p.Grows() && x <= y
    ensures LowerBoundary(p, x) <= LowerBoundary(p, y)
    ensures NextBoundary(p, x) <= NextBoundary(p, y)
  {
    BoundariesEnclose(p, y, IntervalOf(p, x));
    BoundariesEnclose(p, x, IntervalOf(p, y) + 1);
  }

  /**
   The heart of the protocol: the boundary billed for `sent` bytes is covered by `paid`
   bytes exactly when `sent` is still below the limit unlocked by `paid` bytes.
   */
  lemma BilledExactlyBelowLimit(p: Params, sent: nat, paid: nat)
    requires p.Grows()
    ensures LowerBoundary(p, sent) <= paid <==> sent < NextBoundary(p, paid)
  {
    BoundariesEnclose(p, paid, IntervalOf(p, sent));
    BoundariesEnclose(p, sent, IntervalOf(p, paid) + 1);
    BoundariesEnclose(p, sent, IntervalOf(p, sent));
    BoundariesEnclose(p, paid, IntervalOf(p, paid));
  }

  /** Closed form of the boundaries: B_k = k*P + I*k*(k-1)/2. */
  lemma {:induction false} BoundaryClosedForm(p: Params, k: nat)
    ensures 2 * p.Boundary(k) == 2 * k * p.paymentInterval + p.paymentIntervalIncrease * (k * (k - 1))
  {
    if k > 0 {
      BoundaryClosedForm(p, k - 1);
      ClosedFormStep(p.paymentInterval, p.paymentIntervalIncrease, k - 1);
    }
  }

  lemma ClosedFormStep(interval: nat, increase: nat, j: nat)
    ensures 2 * j * interval + increase * (j * (j - 1)) + 2 * (interval + j * increase)
         == 2 * (j + 1) * interval + increase * ((j + 1) * j)
  {
    assert 2 * (j + 1) * interval == 2 * j * interval + 2 * interval by { Distribute(2 * j, 2, interval); }
    assert (j + 1) * j == j * (j - 1) + 2 * j by { Distribute(j - 1, 2, j); }
    assert increase * (j * (j - 1) + 2 * j) == increase * (j * (j - 1)) + increase * (2 * j) by {
      Distribute(j * (j - 1), 2 * j, increase);
    }
    assert increase * (2 * j) == 2 * (j * increase);
  }

  lemma Scale(a: nat, b: nat, d: nat)
    requires a <= b
    ensures a * d <= b * d
  {}

  // ---------------------------------------------------------------- the two loops

  /** The targets repeat after this many rounds: 2^65. */
  const PERIOD: nat := 0x2_0000_0000_0000_0000

  /** The first round, from `k` on, whose 64-bit target is beyond `x`; None if there is none in a period. */
  function Search(p: Params, x: uint64, k: nat): (r: Option<nat>)
    requires k <= PERIOD
    decreases PERIOD - k
  {
    if k == PERIOD then None
    else if p.Wrapped(k) > x then Some(k)
    else Search(p, x, k + 1)
  }

  /** The round in which both loops stop. */
  function Stop(p: Params, x: uint64): Option<nat> {
    Search(p, x, 0)
  }

  lemma {:induction false} SearchFound(p: Params, x: uint64, k: nat)
    requires k <= PERIOD && Search(p, x, k).Some?
    ensures var stop := Search(p, x, k).value;
            k <= stop < PERIOD && p.Wrapped(stop) > x && (stop > k ==> p.Wrapped(stop - 1) <= x)
    decreases PERIOD - k
  {
    if p.Wrapped(k) <= x {
      SearchFound(p, x, k + 1);
    }
  }

  /** What the bill's loop returns; a loop that never stops has no result, and zero stands for it. */
  function LowerLoop(p: Params, x: uint64): (r: uint64)
    ensures r <= x
  {
    match Stop(p, x)
    case Some(k) => SearchFound(p, x, 0); if k == 0 then 0 else p.Wrapped(k - 1)
    case None => 0
  }

  /** What the data limit's loop returns. */
  function NextLoop(p: Params, x: uint64): (r: uint64)
    ensures Stop(p, x).Some? ==> r > x
  {
    match Stop(p, x)
    case Some(k) => SearchFound(p, x, 0); p.Wrapped(k)
    case None => 0
  }

  lemma {:induction false} SearchSkips(p: Params, x: uint64, k: nat, j: nat)
    requires k <= j < PERIOD && (Search(p, x, k).Some? ==> j < Search(p, x, k).value)
    ensures p.Wrapped(j) <= x
    decreases j - k
  {
    if k < j {
      SearchSkips(p, x, k + 1, j);
    }
  }

  lemma {:induction false} SearchFinds(p: Params, x: uint64, k: nat, stop: nat)
    requires k <= stop < PERIOD && p.Wrapped(stop) > x && forall j :: k <= j < stop ==> p.Wrapped(j) <= x
    ensures Search(p, x, k) == Some(stop)
    decreases stop - k
  {
    if k < stop {
      SearchFinds(p, x, k + 1, stop);
    }
  }

  /** Rounds one period apart have targets a multiple of 2^64 apart. */
  lemma {:induction false} BoundaryPeriod(p: Params, k: nat) returns (turns: nat)
    ensures p.Boundary(k + PERIOD) == p.Boundary(k) + turns * UINT64_SIZE
  {
    turns := 2 * p.paymentInterval + p.paymentIntervalIncrease * (2 * k + PERIOD - 1);
    BoundaryClosedForm(p, k);
    BoundaryClosedForm(p, k + PERIOD);
    PeriodArithmetic(p.paymentInterval, p.paymentIntervalIncrease, k);
  }

  lemma PeriodArithmetic(interval: nat, increase: nat, k: nat)
    ensures 2 * (k + PERIOD) * interval + increase * ((k + PERIOD) * (k + PERIOD - 1))
         == 2 * k * interval + increase * (k * (k - 1)) + (2 * interval + increase * (2 * k + PERIOD - 1)) * (2 * UINT64_SIZE)
  {
    assert (k + PERIOD) * (k + PERIOD - 1) == k * (k - 1) + PERIOD * (2 * k + PERIOD - 1);
    Distribute(k * (k - 1), PERIOD * (2 * k + PERIOD - 1), increase);
    assert increase * (PERIOD * (2 * k + PERIOD - 1)) == increase * (2 * k + PERIOD - 1) * PERIOD;
  }

  lemma WrappedPeriod(p: Params, k: nat)
    ensures p.Wrapped(k + PERIOD) == p.Wrapped(k)
  {
    var turns := BoundaryPeriod(p, k);
    WholeTurns(p.Boundary(k), turns);
  }

  lemma {:induction false} WholeTurns(a: nat, turns: nat)
    ensures (a + turns * UINT64_SIZE) % UINT64_SIZE == a % UINT64_SIZE
  {
    if turns > 0 {
      WholeTurns(a, turns - 1);
      assert a + turns * UINT64_SIZE == (a + (turns - 1) * UINT64_SIZE) + UINT64_SIZE;
    }
  }

  /** The loops stop if and only if some target is ever beyond the byte count. */
  lemma StopsExactly(p: Params, x: uint64)
    ensures Stop(p, x).Some? <==> exists k: nat :: p.Wrapped(k) > x
  {
    if Stop(p, x).Some? {
      SearchFound(p, x, 0);
    } else {
      forall k: nat ensures p.Wrapped(k) <= x {
        NeverBeyond(p, x, k);
      }
    }
  }

  lemma {:induction false} NeverBeyond(p: Params, x: uint64, k: nat)
    requires Stop(p, x).None?
    ensures p.Wrapped(k) <= x
  {
    if k < PERIOD {
      SearchSkips(p, x, 0, k);
    } else {
      var j := k - PERIOD;
      NeverBeyond(p, x, j);
      assert p.Wrapped(j + PERIOD) == p.Wrapped(j) by { WrappedPeriod(p, j); }
      assert j + PERIOD == k;
    }
  }

  /** One round of 64-bit additions. */
  lemma LoopStep(p: Params, k: nat, target: uint64, size: uint64)
    requires target == p.Wrapped(k) && size == p.IntervalSize(k) % UINT64_SIZE
    ensures Add64(target, size) == p.Wrapped(k + 1)
    ensures Add64(size, p.paymentIntervalIncrease) == p.IntervalSize(k + 1) % UINT64_SIZE
  {
    ModAdd(p.Boundary(k), p.IntervalSize(k) % UINT64_SIZE);
    ModAdd(p.IntervalSize(k), p.Boundary(k));
    SizeSucc(p, k);
    ModAdd(p.IntervalSize(k), p.paymentIntervalIncrease);
  }

  lemma ModAdd(a: nat, b: nat)
    ensures (a % UINT64_SIZE + b) % UINT64_SIZE == (a + b) % UINT64_SIZE
  {}

  lemma NoWrap(a: nat, b: nat)
    requires a + b < UINT64_SIZE
    ensures (a + b) % UINT64_SIZE == a + b && b % UINT64_SIZE == b
  {}

  lemma SizeSucc(p: Params, k: nat)
    ensures p.IntervalSize(k + 1) == p.IntervalSize(k) + p.paymentIntervalIncrease
  {
    assert (k + 1) * p.paymentIntervalIncrease == k * p.paymentIntervalIncrease + p.paymentIntervalIncrease;
  }

  /** A round whose target is not beyond `x` comes before the stop. */
  lemma BeforeStop(p: Params, x: uint64, k: nat)
    requires Stop(p, x).Some? && k <= Stop(p, x).value
    ensures p.Wrapped(k) <= x <==> k < Stop(p, x).value
  {
    SearchFound(p, x, 0);
    if k < Stop(p, x).value {
      SearchSkips(p, x, 0, k);
    }
  }

  /** The loops' variables at the start of round `k`, at most `left` rounds before the stop. */
  ghost predicate InRound(p: Params, x: uint64, k: nat, left: nat, target: uint64, size: uint64) {
    && Stop(p, x) == Some(k + left)
    && target == p.Wrapped(k) && size == p.IntervalSize(k) % UINT64_SIZE
  }

  lemma FirstRound(p: Params, x: uint64)
    requires Stop(p, x).Some?
    ensures InRound(p, x, 0, Stop(p, x).value, 0, p.paymentInterval)
  {
    assert p.Boundary(0) == 0;
    assert p.IntervalSize(0) == p.paymentInterval;
    NoWrap(0, p.paymentInterval);
  }

  lemma NextRound(p: Params, x: uint64, k: nat, left: nat, target: uint64, size: uint64)
    requires InRound(p, x, k, left, target, size) && target <= x
    ensures left > 0
    ensures InRound(p, x, k + 1, left - 1, Add64(target, size), Add64(size, p.paymentIntervalIncrease))
    ensures left == 1 ==> target == LowerLoop(p, x)
  {
    BeforeStop(p, x, k);
    LoopStep(p, k, target, size);
  }

  lemma LastRound(p: Params, x: uint64, k: nat, left: nat, target: uint64, size: uint64)
    requires InRound(p, x, k, left, target, size) && target > x
    ensures left == 0 && target == NextLoop(p, x)
  {
    BeforeStop(p, x, k);
  }

  /** `Params.IntervalLowerBound`, for every byte count on which the source's loop ends. */
  method IntervalLowerBound(p: Params, currentInterval: uint64) returns (lowerBound: uint64)
    requires Stop(p, currentInterval).Some?
    ensures lowerBound == LowerLoop(p, currentInterval)
  {
    var intervalSize := p.paymentInterval;
    lowerBound := 0;
    var target: uint64 := 0;
    ghost var k, left := 0, Stop(p, currentInterval).value;
    FirstRound(p, currentInterval);
    while target <= currentInterval
      invariant InRound(p, currentInterval, k, left, target, intervalSize)
      invariant left == 0 ==> lowerBound == LowerLoop(p, currentInterval)
      decreases left
    {
      NextRound(p, currentInterval, k, left, target, intervalSize);
      lowerBound := target;
      target := Add64(target, intervalSize);
      intervalSize := Add64(intervalSize, p.paymentIntervalIncrease);
      k, left := k + 1, left - 1;
    }
    LastRound(p, currentInterval, k, left, target, intervalSize);
  }

  /** `Params.nextInterval`, for every byte count on which the source's loop ends. */
  method NextIntervalLoop(p: Params, currentInterval: uint64) returns (nextInterval: uint64)
    requires Stop(p, currentInterval).Some?
    ensures nextInterval == NextLoop(p, currentInterval)
  {
    var intervalSize := p.paymentInterval;
    nextInterval := 0;
    ghost var k, left := 0, Stop(p, currentInterval).value;
    FirstRound(p, currentInterval);
    while nextInterval <= currentInterval
      invariant InRound(p, currentInterval, k, left, nextInterval, intervalSize)
      decreases left
    {
      NextRound(p, currentInterval, k, left, nextInterval, intervalSize);
      nextInterval := Add64(nextInterval, intervalSize);
      intervalSize := Add64(intervalSize, p.paymentIntervalIncrease);
      k, left := k + 1, left - 1;
    }
    LastRound(p, currentInterval, k, left, nextInterval, intervalSize);
  }

  // ---------------------------------------------------------------- loops without wrap-around

  /** No boundary up to the one beyond `x` leaves the 64-bit range. */
  predicate LoopFits(p: Params, x: nat) {
    p.Grows() && NextBoundary(p, x) < UINT64_SIZE
  }

  /** Where no boundary wraps around, the loops find the boundaries they are meant to find. */
  lemma LoopsFindBoundaries(p: Params, x: uint64)
    requires LoopFits(p, x)
    ensures Stop(p, x).Some? && LowerLoop(p, x) == LowerBoundary(p, x) && NextLoop(p, x) == NextBoundary(p, x)
  {
    var i := IntervalOf(p, x);
    BoundaryAtLeast(p, i);
    forall j | 0 <= j <= i + 1 ensures p.Wrapped(j) == p.Boundary(j) && (j <= i ==> p.Boundary(j) <= x) {
      BoundaryMonotone(p, j, i + 1);
      if j <= i {
        BoundaryMonotone(p, j, i);
      }
      NoWrap(0, p.Boundary(j));
    }
    SearchFinds(p, x, 0, i + 1);
  }

  /** After the first interval, boundaries grow by at least one. */
  lemma {:induction false} BoundaryAtLeast(p: Params, k: nat)
    requires p.Grows()
    ensures p.Boundary(k) >= k - 1
  {
    if k > 1 {
      BoundaryAtLeast(p, k - 1);
      ZeroOnlyFirst(p, k - 1);
    }
  }

  lemma LoopFitsBelow(p: Params, x: nat, y: nat)
    requires x <= y && LoopFits(p, y)
    ensures LoopFits(p, x)
  {
    NextBoundaryMonotone(p, x, y);
  }

  /** The loops never wrap around on a byte count in the signed range. */
  predicate Tame(p: Params) {
    LoopFits(p, INT64_LIMIT - 1)
  }

  lemma TameLoops(p: Params, x: uint64)
    requires Tame(p) && x < INT64_LIMIT
    ensures Stop(p, x).Some? && LowerLoop(p, x) == LowerBoundary(p, x) && NextLoop(p, x) == NextBoundary(p, x)
  {
    LoopFitsBelow(p, x, INT64_LIMIT - 1);
    LoopsFindBoundaries(p, x);
  }

  /** A check that a caller can make: intervals of up to 2^63 bytes in the first three rounds are tame. */
  lemma SmallIntervalsAreTame(p: Params)
    requires p.Grows() && p.paymentInterval + 2 * p.paymentIntervalIncrease <= INT64_LIMIT
    ensures Tame(p)
  {
    var i := IntervalOf(p, INT64_LIMIT - 1);
    if i <= 2 {
      Scale(i, 2, p.paymentIntervalIncrease);
    } else {
      BoundaryClosedForm(p, i);
      LaterSizeWithinBoundary(p.paymentInterval, p.paymentIntervalIncrease, i);
    }
  }

  lemma LaterSizeWithinBoundary(interval: nat, increase: nat, i: nat)
    requires i >= 3
    ensures 2 * (interval + i * increase) <= 2 * i * interval + increase * (i * (i - 1))
  {
    Scale(2, 2 * i, interval);
    Scale(2, i - 1, i);
    Scale(2 * i, i * (i - 1), increase);
  }

  /**
   The acceptance test's two interval comparisons are exactly what it takes for every
   boundary of a proposal to lie at or before the ask's boundary of the same rank.
   */
  lemma BoundariesNoLaterThanAsk(p: Params, ask: Params)
    ensures (forall k: nat :: p.Boundary(k) <= ask.Boundary(k)) <==>
            (p.paymentInterval <= ask.paymentInterval && p.paymentIntervalIncrease <= ask.paymentIntervalIncrease)
  {
    if p.paymentInterval <= ask.paymentInterval && p.paymentIntervalIncrease <= ask.paymentIntervalIncrease {
      forall k: nat ensures p.Boundary(k) <= ask.Boundary(k) {
        SmallerIntervalsEarlierBoundaries(p, ask, k);
      }
    } else if p.paymentInterval > ask.paymentInterval {
      assert p.Boundary(1) == p.Boundary(0) + p.IntervalSize(0);
      assert ask.Boundary(1) == ask.Boundary(0) + ask.IntervalSize(0);
      assert p.Boundary(1) > ask.Boundary(1);
    } else {
      LargerIncreaseOvertakes(p, ask);
    }
  }

  lemma {:induction false} SmallerIntervalsEarlierBoundaries(p: Params, ask: Params, k: nat)
    requires p.paymentInterval <= ask.paymentInterval
    requires p.paymentIntervalIncrease <= ask.paymentIntervalIncrease
    ensures p.Boundary(k) <= ask.Boundary(k)
  {
    if k > 0 {
      SmallerIntervalsEarlierBoundaries(p, ask, k - 1);
      Scale(p.paymentIntervalIncrease, ask.paymentIntervalIncrease, k - 1);
    }
  }

  /** A larger increase eventually outruns any head start of the ask. */
  lemma LargerIncreaseOvertakes(p: Params, ask: Params)
    requires p.paymentInterval <= ask.paymentInterval
    requires p.paymentIntervalIncrease > ask.paymentIntervalIncrease
    ensures exists k: nat :: p.Boundary(k) > ask.Boundary(k)
  {
    var d := ask.paymentInterval - p.paymentInterval;
    var k := 2 * d + 2;
    BoundaryClosedForm(p, k);
    BoundaryClosedForm(ask, k);
    Overtake(p.paymentInterval, p.paymentIntervalIncrease, ask.paymentIntervalIncrease, d, k);
  }

  lemma Overtake(interval: nat, increase: nat, increase': nat, d: nat, k: nat)
    requires increase > increase' && k == 2 * d + 2
    ensures 2 * k * interval + increase * (k * (k - 1)) > 2 * k * (interval + d) + increase' * (k * (k - 1))
  {
    assert 2 * k * (interval + d) == 2 * k * interval + 2 * k * d by { Distribute(interval, d, 2 * k); }
    assert k * (k - 1) == k * (2 * d) + k by { Distribute(2 * d, 1, k); }
    ScaleDifference(increase, increase', k * (k - 1));
  }

  lemma Distribute(a: int, b: int, m: int)
    ensures m * (a + b) == m * a + m * b
    ensures (a + b) * m == a * m + b * m
  {}

  lemma ScaleDifference(a: int, b: int, m: nat)
    requires a > b
    ensures a * m >= b * m + m
  {
    var e := a - b - 1;
    Distribute(b, e + 1, m);
    Distribute(e, 1, m);
    assert e * m >= 0;
  }
}
