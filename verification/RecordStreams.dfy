/**
 Streams of self-delimiting records: records are written one after the other and read back
 until the stream ends. Everything here holds for any reader that does not look past the
 record it reads.
 */
module RecordStreams {
  import opened Wrappers
  import opened Uvarint

  datatype Codec<!T> = Codec(put: T -> Bytes, get: (Bytes, nat) -> Read<T>)
  {
    /** Reading moves on, stays inside the stream, and ends cleanly only at its end. */
    ghost predicate Advances() {
      forall s, pos: nat :: (get(s, pos).Got? ==> pos < get(s, pos).next <= |s|) && (get(s, pos).Eof? <==> pos >= |s|)
    }

    /** What was read from a stream is read from any longer stream. */
    ghost predicate Stable() {
      forall s, t, pos: nat :: get(s, pos).Got? ==> get(s + t, pos) == get(s, pos)
    }

    /** A record reads back wherever it lies. */
    ghost predicate ReadsBack(x: T) {
      put(x) != [] && forall s, pos: nat :: At(s, pos, put(x)) ==> get(s, pos) == Got(x, pos + |put(x)|)
    }

    ghost predicate AllReadBack(xs: seq<T>) {
      forall i :: 0 <= i < |xs| ==> ReadsBack(xs[i])
    }

    function PutAll(xs: seq<T>): Bytes {
      if xs == [] then [] else put(xs[0]) + PutAll(xs[1..])
    }

    /** All records from a position to the end of the stream; None on any error. */
    function GetAll(s: Bytes, pos: nat): Option<seq<T>>
      requires Advances()
      decreases if pos < |s| then |s| - pos else 0
    {
      match get(s, pos)
      case Eof => Some([])
      case Bad => None
      case Got(x, next) => Prepend([x], GetAll(s, next))
    }

    /** The records that fill exactly the first `n` bytes, if `n` is a record boundary. */
    function CutAt(xs: seq<T>, n: nat): (r: Option<seq<T>>)
      ensures r.Some? ==> r.value <= xs && |PutAll(r.value)| == n
    {
      if n == 0 then Some([])
      else if xs == [] || n < |put(xs[0])| then None
      else
        var rest := CutAt(xs[1..], n - |put(xs[0])|);
        assert rest.Some? ==> ([xs[0]] + rest.value)[1..] == rest.value;
        Prepend([xs[0]], rest)
    }

    lemma {:induction false} PutAllAppend(xs: seq<T>, x: T)
      ensures PutAll(xs + [x]) == PutAll(xs) + put(x)
    {
      if xs == [] {
        assert ([] + [x])[1..] == [];
      } else {
        PutAllAppend(xs[1..], x);
        assert (xs + [x])[1..] == xs[1..] + [x];
        assert (xs + [x])[0] == xs[0];
      }
    }

    /** A record cut short is an error, never a clean end. */
    lemma CutRecordIsBad(s: Bytes, pos: nat, x: T)
      requires Advances() && Stable() && ReadsBack(x) && pos < |s| && s[pos..] < put(x)
      ensures get(s, pos) == Bad
    {
      if get(s, pos).Got? {
        Rejoin(s, pos, put(x));
      }
    }

    /**
     Reading what is left of a cut stream: on a record boundary the records before it are
     read back, anywhere else the result is an error and never a shorter list.
     */
    lemma {:induction false} CutStream(s: Bytes, pos: nat, xs: seq<T>)
      requires Advances() && Stable() && AllReadBack(xs) && pos <= |s| && s[pos..] <= PutAll(xs)
      ensures GetAll(s, pos) == CutAt(xs, |s| - pos)
      decreases |xs|
    {
      if xs != [] && pos < |s| {
        var first, rest := put(xs[0]), PutAll(xs[1..]);
        assert ReadsBack(xs[0]);
        if |s| - pos < |first| {
          ShorterPart(s[pos..], first, rest);
          CutRecordIsBad(s, pos, xs[0]);
        } else {
          FirstPart(s, pos, first, rest);
          CutStream(s, pos + |first|, xs[1..]);
        }
      }
    }

    lemma CutReads(xs: seq<T>, n: nat)
      requires Advances() && Stable() && AllReadBack(xs) && n <= |PutAll(xs)|
      ensures GetAll(PutAll(xs)[..n], 0) == CutAt(xs, n)
    {
      var s := PutAll(xs)[..n];
      assert s[0..] == s;
      CutStream(s, 0, xs);
    }

    /** A boundary is recognized wherever it is. */
    lemma {:induction false} CutAtBoundary(xs: seq<T>, k: nat)
      requires k <= |xs| && forall i :: 0 <= i < |xs| ==> put(xs[i]) != []
      ensures CutAt(xs, |PutAll(xs[..k])|) == Some(xs[..k])
    {
      if k > 0 {
        var rest := xs[1..];
        assert xs[..k][1..] == rest[..k - 1];
        assert PutAll(xs[..k]) == put(xs[0]) + PutAll(rest[..k - 1]);
        CutAtBoundary(rest, k - 1);
        assert [xs[0]] + rest[..k - 1] == xs[..k];
      }
    }

    /**
     A stream cut after `n` bytes reads as the first `k` records when those fill exactly `n`
     bytes, and as an error when no number of records does.
     */
    lemma TruncationDetected(xs: seq<T>, n: nat)
      requires Advances() && Stable() && AllReadBack(xs) && n <= |PutAll(xs)|
      ensures forall k :: 0 <= k <= |xs| && |PutAll(xs[..k])| == n ==> GetAll(PutAll(xs)[..n], 0) == Some(xs[..k])
      ensures (forall k :: 0 <= k <= |xs| ==> |PutAll(xs[..k])| != n) ==> GetAll(PutAll(xs)[..n], 0) == None
    {
      CutReads(xs, n);
      forall k | 0 <= k <= |xs| && |PutAll(xs[..k])| == n
        ensures CutAt(xs, n) == Some(xs[..k])
      {
        CutAtBoundary(xs, k);
      }
      if CutAt(xs, n).Some? {
        var k := |CutAt(xs, n).value|;
        assert xs[..k] == CutAt(xs, n).value;
        assert |PutAll(xs[..k])| == n;
      }
    }

    /** Every recorded sequence is read back exactly. */
    lemma RoundTrip(xs: seq<T>)
      requires Advances() && Stable() && AllReadBack(xs)
      ensures GetAll(PutAll(xs), 0) == Some(xs)
    {
      assert PutAll(xs)[..|PutAll(xs)|] == PutAll(xs);
      assert xs[..|xs|] == xs;
      TruncationDetected(xs, |PutAll(xs)|);
    }
  }

  function Prepend<T>(before: seq<T>, rest: Option<seq<T>>): Option<seq<T>> {
    match rest case Some(xs) => Some(before + xs) case None => None
  }

  lemma PrependTwice<T>(a: seq<T>, b: seq<T>, rest: Option<seq<T>>)
    ensures Prepend(a, Prepend(b, rest)) == Prepend(a + b, rest)
  {
    if rest.Some? {
      assert a + (b + rest.value) == a + b + rest.value;
    }
  }

  /** Reads records until the stream ends. */
  method ReadAll<T>(codec: Codec<T>, input: Bytes) returns (all: Option<seq<T>>)
    requires codec.Advances()
    ensures all == codec.GetAll(input, 0)
  {
    var found: seq<T> := [];
    var pos := 0;
    ghost var want := codec.GetAll(input, 0);
    assert want.Some? ==> [] + want.value == want.value;
    while true
      invariant want == Prepend(found, codec.GetAll(input, pos))
      decreases if pos < |input| then |input| - pos else 0
    {
      var next := codec.get(input, pos);
      if !next.Got? {
        assert found + [] == found;
        return if next.Eof? then Some(found) else None;
      }
      PrependTwice(found, [next.value], codec.GetAll(input, next.next));
      found := found + [next.value];
      pos := next.next;
    }
  }

  // Facts about cutting sequences.

  lemma Rejoin(s: Bytes, pos: nat, r: Bytes)
    requires pos <= |s| && s[pos..] <= r
    ensures At(s + r[|s| - pos..], pos, r)
  {
    var t := r[|s| - pos..];
    assert (s + t)[pos..pos + |r|] == s[pos..] + t;
  }

  lemma ShorterPart(cut: Bytes, first: Bytes, rest: Bytes)
    requires cut <= first + rest && |cut| < |first|
    ensures cut < first
  {
    assert cut == (first + rest)[..|cut|] == first[..|cut|];
  }

  lemma FirstPart(s: Bytes, pos: nat, first: Bytes, rest: Bytes)
    requires pos <= |s| && s[pos..] <= first + rest && |first| <= |s| - pos
    ensures At(s, pos, first) && s[pos + |first|..] <= rest
  {
    var cut := s[pos..];
    assert s[pos..pos + |first|] == cut[..|first|] == (first + rest)[..|first|];
    assert s[pos + |first|..] == cut[|first|..];
    assert cut == (first + rest)[..|cut|];
    assert cut[|first|..] == rest[..|cut| - |first|];
  }
}
