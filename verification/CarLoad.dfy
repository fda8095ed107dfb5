/**
 Loading a CAR stream into a store, in batches or block by block (stores/kvcarbs.go).
 */
module CarLoad {
  import opened Wrappers
  import opened CarFormat
  import opened CarStore

  /** What `CarReader.Next` yields; after the listed results the stream is at its end. */
  datatype Next = Read(block: Block) | EndOfStream | Broken

  const BATCH: nat := 1000

  function At(stream: seq<Next>, i: nat): Next {
    if i < |stream| then stream[i] else EndOfStream
  }

  /** The blocks of a stream up to its end or its first error. */
  function BlocksFrom(stream: seq<Next>, i: nat): seq<Block>
    decreases if i < |stream| then |stream| - i else 0
  {
    if At(stream, i).Read? then [At(stream, i).block] + BlocksFrom(stream, i + 1) else []
  }

  /** The stream ends without an error. */
  predicate CleanFrom(stream: seq<Next>, i: nat)
    decreases if i < |stream| then |stream| - i else 0
  {
    if At(stream, i).Read? then CleanFrom(stream, i + 1) else At(stream, i).EndOfStream?
  }

  function Flatten(batches: seq<seq<Block>>): seq<Block> {
    if batches == [] then [] else Flatten(batches[..|batches| - 1]) + batches[|batches| - 1]
  }

  lemma FlattenAppend(batches: seq<seq<Block>>, batch: seq<Block>)
    ensures Flatten(batches + [batch]) == Flatten(batches) + batch
  {
    assert (batches + [batch])[..|batches + [batch]| - 1] == batches;
  }

  /** `loadCarSlow`: one put per block. */
  method LoadCarSlow(stream: seq<Next>) returns (puts: seq<Block>, ok: bool)
    ensures puts == BlocksFrom(stream, 0) && ok == CleanFrom(stream, 0)
  {
    puts := [];
    var i := 0;
    while At(stream, i).Read?
      invariant puts + BlocksFrom(stream, i) == BlocksFrom(stream, 0)
      invariant CleanFrom(stream, i) == CleanFrom(stream, 0)
      decreases if i < |stream| then |stream| - i else 0
    {
      assert puts + ([At(stream, i).block] + BlocksFrom(stream, i + 1))
          == (puts + [At(stream, i).block]) + BlocksFrom(stream, i + 1);
      puts := puts + [At(stream, i).block];
      i := i + 1;
    }
    ok := At(stream, i).EndOfStream?;
  }

  /** How many blocks of a stream the batches leave out: after an error, those of the unfinished batch. */
  function LostCount(stream: seq<Next>): nat {
    if CleanFrom(stream, 0) then 0 else |BlocksFrom(stream, 0)| % (BATCH + 1)
  }

  /**
   `loadCarFast`: puts in batches.  The batches together are the blocks of the stream, less
   exactly the last `LostCount` of them, so they are all blocks if and only if nothing is lost.
   */
  method LoadCarFast(stream: seq<Next>) returns (batches: seq<seq<Block>>, ok: bool)
    ensures ok == CleanFrom(stream, 0)
    ensures var blocks := BlocksFrom(stream, 0);
            && LostCount(stream) <= |blocks|
            && Flatten(batches) == blocks[..|blocks| - LostCount(stream)]
            && (Flatten(batches) == blocks <==> LostCount(stream) == 0)
    ensures forall i :: 0 <= i < |batches| ==> 0 < |batches[i]| <= BATCH + 1
  {
    batches := [];
    var buf: seq<Block> := [];
    ghost var blocks := BlocksFrom(stream, 0);
    var i := 0;
    while At(stream, i).Read?
      invariant Flatten(batches) + buf + BlocksFrom(stream, i) == blocks
      invariant CleanFrom(stream, i) == CleanFrom(stream, 0)
      invariant |buf| <= BATCH && |Flatten(batches)| % (BATCH + 1) == 0
      invariant forall j :: 0 <= j < |batches| ==> 0 < |batches[j]| <= BATCH + 1
      decreases if i < |stream| then |stream| - i else 0
    {
      assert Flatten(batches) + buf + ([At(stream, i).block] + BlocksFrom(stream, i + 1))
          == Flatten(batches) + (buf + [At(stream, i).block]) + BlocksFrom(stream, i + 1);
      buf := buf + [At(stream, i).block];
      i := i + 1;
      if |buf| > BATCH {
        FlattenAppend(batches, buf);
        WholeBatches(|Flatten(batches)|, BATCH + 1);
        batches := batches + [buf];
        buf := [];
        assert Flatten(batches) + [] == Flatten(batches);
      }
    }
    ok := At(stream, i).EndOfStream?;
    assert Flatten(batches) + buf == blocks;
    WholeBatches(|Flatten(batches)|, |buf|);
    if ok && |buf| > 0 {
      FlattenAppend(batches, buf);
      batches := batches + [buf];
    }
  }

  lemma WholeBatches(whole: nat, more: nat)
    requires whole % (BATCH + 1) == 0 && more <= BATCH + 1
    ensures (whole + more) % (BATCH + 1) == if more == BATCH + 1 then 0 else more
  {}

  /** A stream that breaks after one block: block by block it is put, in batches it is not. */
  lemma BrokenStreamLosesBlock(b: Block)
    ensures var stream := [Read(b), Broken];
            BlocksFrom(stream, 0) == [b] && LostCount(stream) == 1
  {
    var stream := [Read(b), Broken];
    assert BlocksFrom(stream, 1) == [] && !CleanFrom(stream, 1);
  }

  // ---------------------------------------------------------------- effect on a store

  /** Putting a list is putting its parts one after the other. */
  lemma {:induction false} PutAllInParts(log: seq<Block>, a: seq<Block>, b: seq<Block>, opts: Options)
    ensures var first := PutAll(log, a, opts);
            PutAll(log, a + b, opts) == if first.error.Some? then first else PutAll(first.log, b, opts)
    decreases |a|
  {
    if a == [] {
      assert a + b == b;
    } else {
      assert (a + b)[1..] == a[1..] + b;
      PutAllInParts(PutStep(log, a[0], opts).log, a[1..], b, opts);
    }
  }

  /** Putting batches one after the other, stopping at the first error. */
  function PutBatches(log: seq<Block>, batches: seq<seq<Block>>, opts: Options): Put {
    if batches == [] then Put(log, None)
    else
      var before := PutBatches(log, batches[..|batches| - 1], opts);
      if before.error.Some? then before else PutAll(before.log, batches[|batches| - 1], opts)
  }

  /** A store cannot tell batches from their concatenation: fast loading refines slow loading. */
  lemma {:induction false} BatchesRefineBlocks(log: seq<Block>, batches: seq<seq<Block>>, opts: Options)
    ensures PutBatches(log, batches, opts) == PutAll(log, Flatten(batches), opts)
  {
    if batches != [] {
      var init := batches[..|batches| - 1];
      BatchesRefineBlocks(log, init, opts);
      PutAllInParts(log, Flatten(init), batches[|batches| - 1], opts);
    }
  }
}
