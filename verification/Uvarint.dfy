/**
 Bytes, reads at a position, and the unsigned varint code that prefixes every CAR section
 (github.com/multiformats/go-varint, used by stores/kvcarbs.go).
 */
module Uvarint {
  import opened Words

  type byte = b: nat | b < 256
  type Bytes = seq<byte>

  /** The result of reading at a position: a value, a clean end of input, or any other error. */
  datatype Read<+T> = Got(value: T, next: nat) | Eof | Bad

  /** `s` holds `x` at position `pos`. */
  predicate At(s: Bytes, pos: nat, x: Bytes) {
    pos + |x| <= |s| && s[pos..pos + |x|] == x
  }

  lemma AtParts(s: Bytes, pos: nat, a: Bytes, b: Bytes)
    ensures At(s, pos, a + b) <==> At(s, pos, a) && At(s, pos + |a|, b)
  {
    if At(s, pos, a + b) {
      assert s[pos..pos + |a|] == s[pos..pos + |a + b|][..|a|];
      assert s[pos + |a|..pos + |a| + |b|] == s[pos..pos + |a + b|][|a|..];
    }
    if At(s, pos, a) && At(s, pos + |a|, b) {
      assert s[pos..pos + |a + b|] == s[pos..pos + |a|] + s[pos + |a|..pos + |a| + |b|];
    }
  }

  lemma AtThree(s: Bytes, pos: nat, a: Bytes, b: Bytes, c: Bytes)
    ensures At(s, pos, a + (b + c)) <==> At(s, pos, a) && At(s, pos + |a|, b) && At(s, pos + |a| + |b|, c)
  {
    AtParts(s, pos, a, b + c);
    AtParts(s, pos + |a|, b, c);
  }

  lemma AtFirst(s: Bytes, pos: nat, x: Bytes)
    requires At(s, pos, x) && x != []
    ensures pos < |s| && s[pos] == x[0]
  {
    assert s[pos..pos + |x|][0] == s[pos];
  }

  lemma AtMiddle(a: Bytes, x: Bytes, b: Bytes)
    ensures At(a + x + b, |a|, x)
  {}

  /** The values that fit `k` bytes are those below this. */
  function Pow256(k: nat): nat {
    if k == 0 then 1 else 256 * Pow256(k - 1)
  }

  lemma PowersOf256()
    ensures Pow256(1) == 0x100 && Pow256(2) == 0x1_0000 && Pow256(4) == 0x1_0000_0000 && Pow256(8) == UINT64_SIZE
  {
    assert Pow256(2) == 0x1_0000;
    assert Pow256(4) == 0x1_0000_0000;
    assert Pow256(6) == 0x1_0000_0000_0000;
  }

  // ---------------------------------------------------------------- the code

  /** The longest varint the reader accepts: nine bytes carry 63 bits. */
  const MAX_LENGTH: nat := 9

  function PutUvarint(n: nat): (r: Bytes)
    ensures |r| >= 1
  {
    if n < 128 then [n] else [128 + n % 128] + PutUvarint(n / 128)
  }

  function ReadUvarint(s: Bytes, pos: nat): Read<nat> {
    ReadUvarintFrom(s, pos, 0)
  }

  /** Reads on from the k-th byte of a varint; the encoding must be minimal. */
  function ReadUvarintFrom(s: Bytes, pos: nat, k: nat): (r: Read<nat>)
    requires k < MAX_LENGTH
    ensures r.Got? ==> pos < r.next <= |s|
    decreases MAX_LENGTH - k
  {
    if pos >= |s| then (if k == 0 then Eof else Bad)
    else if s[pos] >= 128 then
      if k == MAX_LENGTH - 1 then Bad
      else match ReadUvarintFrom(s, pos + 1, k + 1)
        case Got(v, next) => Got(s[pos] - 128 + 128 * v, next)
        case _ => Bad
    else if s[pos] == 0 && k > 0 then Bad
    else Got(s[pos], pos + 1)
  }

  function Pow128(m: nat): nat {
    if m == 0 then 1 else 128 * Pow128(m - 1)
  }

  /** Values below 128^m take at most m bytes. */
  lemma {:induction false} UvarintSize(n: nat, m: nat)
    requires m >= 1 && n < Pow128(m)
    ensures |PutUvarint(n)| <= m
  {
    if n >= 128 {
      assert n < 128 * Pow128(m - 1);
      assert n / 128 < Pow128(m - 1);
      UvarintSize(n / 128, m - 1);
    }
  }

  lemma {:induction false} ReadUndoesPutFrom(s: Bytes, pos: nat, k: nat, n: nat)
    requires At(s, pos, PutUvarint(n)) && k + |PutUvarint(n)| <= MAX_LENGTH && (k > 0 ==> n > 0)
    ensures k < MAX_LENGTH && ReadUvarintFrom(s, pos, k) == Got(n, pos + |PutUvarint(n)|)
    decreases n
  {
    if n < 128 {
      AtFirst(s, pos, [n]);
    } else {
      var first, rest := 128 + n % 128, PutUvarint(n / 128);
      AtParts(s, pos, [first], rest);
      AtFirst(s, pos, [first]);
      ReadUndoesPutFrom(s, pos + 1, k + 1, n / 128);
    }
  }

  const LIMIT56: nat := 0x100_0000_0000_0000

  lemma Powers()
    ensures Pow128(8) == LIMIT56 && Pow128(9) == INT64_LIMIT
  {
    assert Pow128(1) == 128;
    assert Pow128(2) == 0x4000;
    assert Pow128(3) == 0x20_0000;
    assert Pow128(4) == 0x1000_0000;
    assert Pow128(5) == 0x8_0000_0000;
    assert Pow128(6) == 0x400_0000_0000;
    assert Pow128(7) == 0x2_0000_0000_0000;
    assert Pow128(8) == LIMIT56;
  }

  /** Reading back what was put gives the value and the position after it. */
  lemma ReadUndoesPut(s: Bytes, pos: nat, n: nat)
    requires At(s, pos, PutUvarint(n)) && n < INT64_LIMIT
    ensures ReadUvarint(s, pos) == Got(n, pos + |PutUvarint(n)|)
  {
    Powers();
    UvarintSize(n, 9);
    ReadUndoesPutFrom(s, pos, 0, n);
  }
}
