/**
 Exactly when the source's boundary loops end.  Their target runs through the boundaries in
 64-bit arithmetic, so it can keep returning to values that are not beyond the byte count.
 The proof works for words of any size: either some round puts the target in the upper half
 of the range, or both lengths are even and a word of one bit less tells.
 */
module LoopTermination {
  import opened Words
  import opened Intervals

  function Pow2(n: nat): (r: nat)
    ensures r > 0
  {
    if n == 0 then 1 else 2 * Pow2(n - 1)
  }

  /** The target of round `k` on a machine with `n`-bit words. */
  function Target(p: Params, n: nat, k: nat): nat {
    p.Boundary(k) % Pow2(n)
  }

  // ---------------------------------------------------------------- arithmetic

  lemma Remainder(m: nat, turns: nat, rest: nat)
    requires rest < m
    ensures (m * turns + rest) % m == rest
  {
    var a := m * turns + rest;
    var q, r := a / m, a % m;
    assert a == m * q + r;
    if turns > q {
      AtLeastOne(m, turns, q);
    } else if turns < q {
      AtLeastOne(m, q, turns);
    }
  }

  lemma AtLeastOne(m: nat, more: nat, less: nat)
    requires more > less
    ensures m * more >= m * less + m
  {
    Scale(less + 1, more, m);
    Distribute(less, 1, m);
  }

  /** An odd multiple of half the range is half the range. */
  lemma HalfTurn(n: nat, odd: nat)
    requires n >= 1 && odd % 2 == 1
    ensures (Pow2(n - 1) * odd) % Pow2(n) == Pow2(n - 1)
  {
    var half, q := Pow2(n - 1), odd / 2;
    assert half * odd == Pow2(n) * q + half;
    Remainder(Pow2(n), q, half);
  }

  /** Two numbers an odd multiple of half the range apart are not both in the lower half. */
  lemma HalfApart(n: nat, a: nat, odd: nat)
    requires n >= 1 && odd % 2 == 1
    ensures a % Pow2(n) >= Pow2(n - 1) || (a + Pow2(n - 1) * odd) % Pow2(n) >= Pow2(n - 1)
  {
    var half, m := Pow2(n - 1), Pow2(n);
    var q, r, t := a / m, a % m, odd / 2;
    if r < half {
      assert half * odd == m * t + half;
      assert a + half * odd == m * (q + t) + (r + half) by { Distribute(q, t, m); }
      Remainder(m, q + t, r + half);
    }
  }

  // ---------------------------------------------------------------- one word size

  /** The target of some round is in the upper half of the range. */
  ghost predicate Escapes(p: Params, n: nat)
    requires n >= 1
  {
    exists k: nat :: Target(p, n, k) >= Pow2(n - 1)
  }

  /** Advancing `steps` rounds from round `k`, with an even increase. */
  lemma Advance(p: Params, j: nat, k: nat, steps: nat)
    requires p.paymentIntervalIncrease == 2 * j && steps >= 1
    ensures p.Boundary(k + steps) == p.Boundary(k) + steps * (p.paymentInterval + j * (2 * k + steps - 1))
  {
    BoundaryClosedForm(p, k);
    BoundaryClosedForm(p, k + steps);
    AdvanceArithmetic(p.paymentInterval, j, k, steps);
  }

  lemma AdvanceArithmetic(interval: nat, j: nat, k: nat, steps: nat)
    requires steps >= 1
    ensures 2 * (k + steps) * interval + 2 * j * ((k + steps) * (k + steps - 1))
         == 2 * k * interval + 2 * j * (k * (k - 1)) + 2 * (steps * (interval + j * (2 * k + steps - 1)))
  {
    var u := 2 * k + steps - 1;
    SquareStep(k, steps);
    Distribute(k * (k - 1), steps * u, 2 * j);
    Distribute(2 * k, 2 * steps, interval);
    Distribute(interval, j * u, steps);
    Swap(j, steps, u);
  }

  lemma SquareStep(k: nat, steps: nat)
    requires steps >= 1
    ensures (k + steps) * (k + steps - 1) == k * (k - 1) + steps * (2 * k + steps - 1)
  {
    Distribute(k, steps, k + steps - 1);
    Distribute(k - 1, steps, k);
    Distribute(k, k + steps - 1, steps);
  }

  lemma Swap(a: nat, b: nat, c: nat)
    ensures 2 * a * (b * c) == 2 * (b * (a * c))
  {
    assert a * (b * c) == b * (a * c);
    assert 2 * a * (b * c) == 2 * (a * (b * c));
  }

  lemma OddProduct(a: nat, b: nat)
    requires b % 2 == 1
    ensures (a * b) % 2 == a % 2
  {
    var d := b / 2;
    assert b == 2 * d + 1;
    Distribute(2 * d, 1, a);
    assert a * (2 * d) == 2 * (a * d);
  }

  /** An odd increase: round 2^n is half the range. */
  lemma OddIncreaseEscapes(p: Params, n: nat)
    requires n >= 1 && p.paymentIntervalIncrease % 2 == 1
    ensures Escapes(p, n)
  {
    var m := Pow2(n);
    var odd := OddFactor(2 * p.paymentInterval, p.paymentIntervalIncrease, m);
    FullTurn(p, Pow2(n - 1), m, odd);
    HalfTurn(n, odd);
    assert Target(p, n, m) == Pow2(n - 1);
  }

  lemma FullTurn(p: Params, half: nat, m: nat, odd: nat)
    requires m == 2 * half && half > 0 && odd == 2 * p.paymentInterval + p.paymentIntervalIncrease * (m - 1)
    ensures p.Boundary(m) == half * odd
  {
    BoundaryClosedForm(p, m);
    FullTurnArithmetic(p.paymentInterval, p.paymentIntervalIncrease, half, m, odd);
  }

  lemma FullTurnArithmetic(interval: nat, increase: nat, half: nat, m: nat, odd: nat)
    requires m == 2 * half && half > 0 && odd == 2 * interval + increase * (m - 1)
    ensures 2 * m * interval + increase * (m * (m - 1)) == 2 * (half * odd)
  {
    Distribute(2 * interval, increase * (m - 1), m);
    assert increase * (m * (m - 1)) == m * (increase * (m - 1));
    assert m * (2 * interval) == 2 * m * interval;
    assert m * odd == 2 * (half * odd);
  }

  /** An increase of 2j with interval and j of different parity: round 2^(n-1) is half the range. */
  lemma MixedEscapes(p: Params, n: nat, j: nat)
    requires n >= 2 && p.paymentIntervalIncrease == 2 * j && (p.paymentInterval + j) % 2 == 1
    ensures Escapes(p, n)
  {
    var half := Pow2(n - 1);
    assert half == 2 * Pow2(n - 2);
    var odd := OddFactor(p.paymentInterval, j, half);
    AdvanceFromStart(p, j, half, odd);
    HalfTurn(n, odd);
    assert Target(p, n, half) == half;
  }

  lemma OddFactor(interval: nat, j: nat, half: nat) returns (odd: nat)
    requires half % 2 == 0 && half > 0 && (interval + j) % 2 == 1
    ensures odd == interval + j * (half - 1) && odd % 2 == 1
  {
    var product := j * (half - 1);
    OddProduct(j, half - 1);
    SameParity(interval, product, j);
    odd := interval + product;
  }

  lemma SameParity(a: nat, b: nat, c: nat)
    requires b % 2 == c % 2
    ensures (a + b) % 2 == (a + c) % 2
  {}

  lemma AdvanceFromStart(p: Params, j: nat, steps: nat, factor: nat)
    requires p.paymentIntervalIncrease == 2 * j && steps >= 1 && factor == p.paymentInterval + j * (steps - 1)
    ensures p.Boundary(steps) == steps * factor
  {
    Advance(p, j, 0, steps);
    assert 2 * 0 + steps - 1 == steps - 1;
  }

  /** Both odd, in words of at least three bits: two rounds 2^(n-2) apart are half the range apart. */
  lemma BothOddEscape(p: Params, n: nat, j: nat)
    requires n >= 3 && p.paymentIntervalIncrease == 2 * j && p.paymentInterval % 2 == 1 && j % 2 == 1
    ensures Escapes(p, n)
  {
    var quarter := Pow2(n - 2);
    assert Pow2(n - 1) == 2 * quarter && quarter == 2 * Pow2(n - 3);
    var k, odd := OddShift(p.paymentInterval, j, quarter);
    QuarterTurn(p, j, k, quarter, odd);
    HalfApart(n, p.Boundary(k), odd);
    assert Target(p, n, k) >= Pow2(n - 1) || Target(p, n, k + quarter) >= Pow2(n - 1);
  }

  /** One of the first two rounds advances by an odd number of halves. */
  lemma OddShift(interval: nat, j: nat, quarter: nat) returns (k: nat, odd: nat)
    requires interval % 2 == 1 && j % 2 == 1 && quarter % 2 == 0 && quarter > 0
    ensures odd % 2 == 1 && interval + j * (2 * k + quarter - 1) == 2 * odd
  {
    var c := HalfSum(interval, j, quarter);
    if c % 2 == 1 {
      k, odd := 0, c;
      assert 2 * k + quarter - 1 == quarter - 1;
    } else {
      k, odd := 1, c + j;
      NextShift(j, quarter);
    }
  }

  lemma HalfSum(interval: nat, j: nat, quarter: nat) returns (c: nat)
    requires interval % 2 == 1 && j % 2 == 1 && quarter % 2 == 0 && quarter > 0
    ensures interval + j * (quarter - 1) == 2 * c
  {
    var product := j * (quarter - 1);
    OddProduct(j, quarter - 1);
    SameParity(interval, product, j);
    c := (interval + product) / 2;
  }

  lemma NextShift(j: nat, quarter: nat)
    requires quarter > 0
    ensures j * (2 * 1 + quarter - 1) == j * (quarter - 1) + 2 * j
  {
    Distribute(quarter - 1, 2, j);
  }

  lemma QuarterTurn(p: Params, j: nat, k: nat, quarter: nat, odd: nat)
    requires p.paymentIntervalIncrease == 2 * j && quarter >= 1
    requires p.paymentInterval + j * (2 * k + quarter - 1) == 2 * odd
    ensures p.Boundary(k + quarter) == p.Boundary(k) + (2 * quarter) * odd
  {
    Advance(p, j, k, quarter);
    TwiceFactor(quarter, odd);
  }

  lemma TwiceFactor(a: nat, b: nat)
    ensures a * (2 * b) == (2 * a) * b
  {}

  // ---------------------------------------------------------------- one bit less

  function Halved(p: Params): Params {
    p.(paymentInterval := p.paymentInterval / 2, paymentIntervalIncrease := p.paymentIntervalIncrease / 2)
  }

  lemma {:induction false} HalvedBoundary(p: Params, k: nat)
    requires p.paymentInterval % 2 == 0 && p.paymentIntervalIncrease % 2 == 0
    ensures p.Boundary(k) == 2 * Halved(p).Boundary(k)
  {
    if k > 0 {
      HalvedBoundary(p, k - 1);
      assert p.IntervalSize(k - 1) == 2 * Halved(p).IntervalSize(k - 1) by {
        TwiceProduct(k - 1, p.paymentIntervalIncrease / 2);
      }
    }
  }

  lemma TwiceProduct(k: nat, i: nat)
    ensures k * (2 * i) == 2 * (k * i)
  {}

  lemma HalvedEscapes(p: Params, n: nat)
    requires n >= 2 && p.paymentInterval % 2 == 0 && p.paymentIntervalIncrease % 2 == 0 && Escapes(Halved(p), n - 1)
    ensures Escapes(p, n)
  {
    var k: nat :| Target(Halved(p), n - 1, k) >= Pow2(n - 2);
    HalvedBoundary(p, k);
    DoubledRemainder(Halved(p).Boundary(k), Pow2(n - 1));
    assert Target(p, n, k) >= Pow2(n - 1);
  }

  lemma DoubledRemainder(a: nat, m: nat)
    requires m > 0
    ensures (2 * a) % (2 * m) == 2 * (a % m)
  {
    var q, r := a / m, a % m;
    assert 2 * a == (2 * m) * q + 2 * r;
    Remainder(2 * m, q, 2 * r);
  }

  /** The one pair of positive lengths that stays in the lower half. */
  predicate Cycles(p: Params, n: nat) {
    n >= 2 && p.paymentInterval == Pow2(n - 2) && p.paymentIntervalIncrease == Pow2(n - 1)
  }

  lemma {:induction false} EscapesUnlessCycling(p: Params, n: nat)
    requires n >= 1 && p.Grows() && p.paymentInterval < Pow2(n) && p.paymentIntervalIncrease < Pow2(n) && !Cycles(p, n)
    ensures Escapes(p, n)
    decreases n
  {
    var j := p.paymentIntervalIncrease / 2;
    if p.paymentIntervalIncrease % 2 == 1 {
      OddIncreaseEscapes(p, n);
    } else if n == 1 {
      FirstBoundaryEscapes(p, n);
    } else if (p.paymentInterval + j) % 2 == 1 {
      MixedEscapes(p, n, j);
    } else if p.paymentInterval % 2 == 1 {
      if n >= 3 {
        BothOddEscape(p, n, j);
      } else {
        FirstBoundaryEscapes(p, n);
      }
    } else {
      EscapesUnlessCycling(Halved(p), n - 1);
      HalvedEscapes(p, n);
    }
  }

  /** An interval in the upper half is itself such a target. */
  lemma FirstBoundaryEscapes(p: Params, n: nat)
    requires n >= 1 && Pow2(n - 1) <= p.paymentInterval < Pow2(n)
    ensures Escapes(p, n)
  {
    assert p.Boundary(1) == p.Boundary(0) + p.IntervalSize(0) == p.paymentInterval;
    Remainder(Pow2(n), 0, p.paymentInterval);
    assert Target(p, n, 1) == p.paymentInterval;
  }

  // ---------------------------------------------------------------- 64-bit words

  /** The exception: two intervals that together make 2^64. */
  predicate Cycling(p: Params) {
    p.paymentInterval == UINT64_SIZE / 4 && p.paymentIntervalIncrease == UINT64_SIZE / 2
  }

  /** A check of the two lengths alone. */
  predicate Ends(p: Params) {
    p.Grows() && !Cycling(p)
  }

  lemma Words64()
    ensures Pow2(62) == INT64_LIMIT / 2 && Pow2(63) == INT64_LIMIT && Pow2(64) == UINT64_SIZE
  {
    assert Pow2(8) == 0x100;
    assert Pow2(16) == 0x1_0000;
    assert Pow2(24) == 0x100_0000;
    assert Pow2(32) == 0x1_0000_0000;
    assert Pow2(40) == 0x100_0000_0000;
    assert Pow2(48) == 0x1_0000_0000_0000;
    assert Pow2(56) == 0x100_0000_0000_0000;
  }

  /** The target of some round is beyond every byte count in the signed range, unless the lengths cycle. */
  lemma EndsInRange(p: Params)
    requires Ends(p)
    ensures Stop(p, INT64_LIMIT - 1).Some?
  {
    Words64();
    EscapesUnlessCycling(p, 64);
    var k: nat :| Target(p, 64, k) >= Pow2(63);
    assert p.Wrapped(k) == Target(p, 64, k);
    StopsExactly(p, INT64_LIMIT - 1);
  }

  /** The targets of the exception alternate between zero and 2^62. */
  lemma {:induction false} CyclingTargets(p: Params, k: nat)
    requires Cycling(p)
    ensures p.Wrapped(2 * k) == 0 && p.Wrapped(2 * k + 1) == UINT64_SIZE / 4
  {
    if k == 0 {
      assert p.Boundary(0) == 0;
    } else {
      CyclingTargets(p, k - 1);
      CyclingPair(p, k - 1, 2 * k - 2);
    }
    CyclingPair(p, k, 2 * k);
  }

  lemma CyclingPair(p: Params, k: nat, even: nat)
    requires Cycling(p) && even == 2 * k && p.Wrapped(even) == 0
    ensures p.Wrapped(even + 1) == UINT64_SIZE / 4 && p.Wrapped(even + 2) == 0
  {
    CyclingSizes(p, k);
    Cycle(p, even, 0, UINT64_SIZE / 4, UINT64_SIZE / 4);
    Cycle(p, even + 1, UINT64_SIZE / 4, UINT64_SIZE / 4 * 3, 0);
  }

  lemma Cycle(p: Params, k: nat, target: uint64, size: uint64, next: uint64)
    requires p.Wrapped(k) == target && p.IntervalSize(k) % UINT64_SIZE == size && Add64(target, size) == next
    ensures p.Wrapped(k + 1) == next
  {
    LoopStep(p, k, target, size);
  }

  lemma CyclingSizes(p: Params, k: nat)
    requires Cycling(p)
    ensures p.IntervalSize(2 * k) % UINT64_SIZE == UINT64_SIZE / 4
    ensures p.IntervalSize(2 * k + 1) % UINT64_SIZE == UINT64_SIZE / 4 * 3
  {
    assert p.IntervalSize(2 * k) == UINT64_SIZE / 4 + k * UINT64_SIZE;
    assert p.IntervalSize(2 * k + 1) == UINT64_SIZE / 4 * 3 + k * UINT64_SIZE;
    WholeTurns(UINT64_SIZE / 4, k);
    WholeTurns(UINT64_SIZE / 4 * 3, k);
  }

  /** Positive lengths are not enough for the loops to end, even on byte counts in the signed range. */
  lemma LoopsCanHang(p: Params, x: uint64)
    requires Cycling(p) && x >= UINT64_SIZE / 4
    ensures p.Grows() && Stop(p, x).None?
  {
    forall k: nat ensures p.Wrapped(k) <= x {
      CyclingTargets(p, k / 2);
      assert k == 2 * (k / 2) || k == 2 * (k / 2) + 1;
    }
    StopsExactly(p, x);
  }

  /** Two lengths of zero leave the target at zero. */
  lemma {:induction false} FlatBoundary(p: Params, k: nat)
    requires !p.Grows()
    ensures p.Boundary(k) == 0
  {
    if k > 0 {
      FlatBoundary(p, k - 1);
      assert p.IntervalSize(k - 1) == 0;
    }
  }

  /**
   The loops end on every byte count in the signed range if and only if one of the two lengths
   is positive and they are not 2^62 and 2^63.
   */
  lemma LoopsEndExactly(p: Params)
    ensures Stop(p, INT64_LIMIT - 1).Some? <==> Ends(p)
  {
    if Ends(p) {
      EndsInRange(p);
    } else if p.Grows() {
      LoopsCanHang(p, INT64_LIMIT - 1);
    } else {
      forall k: nat ensures p.Wrapped(k) == 0 {
        FlatBoundary(p, k);
      }
      StopsExactly(p, INT64_LIMIT - 1);
    }
  }
}
