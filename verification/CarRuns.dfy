/**
 Whole runs of the CAR blockstore: puts, discards, finalizations and reopenings in any
 order.  On disk and in memory the store always stands for one first-write-wins map of
 everything put while it was open.
 */
module CarRuns {
  import opened Words
  import opened Uvarint
  import opened Cids
  import opened CarFormat
  import opened CarFile
  import opened CarStore

  datatype Op =
    | PutMany(blocks: seq<Block>)
    | Discard
    | Finalize(index: Bytes, indexPadding: nat)
    | Reopen

  /** What a run leaves: the blocks in the file, and whether the store is open. */
  datatype Session = Session(log: seq<Block>, open: bool)

  function Perform(s: Session, op: Op, opts: Options): Session {
    match op
    case PutMany(blocks) => if s.open then s.(log := PutAll(s.log, blocks, opts).log) else s
    case Discard => s.(open := false)
    case Finalize(_, _) => s.(open := false)
    case Reopen => s.(open := true)
  }

  /** The session after a run that starts with a fresh file. */
  function RunOps(ops: seq<Op>, opts: Options): Session {
    if ops == [] then Session([], true)
    else Perform(RunOps(ops[..|ops| - 1], opts), ops[|ops| - 1], opts)
  }

  // ---------------------------------------------------------------- first write wins

  /** Keep what is there, add what is new. */
  function Merge(m: map<Cid, Bytes>, blocks: seq<Block>): map<Cid, Bytes> {
    if blocks == [] then m
    else
      var m', b := Merge(m, blocks[..|blocks| - 1]), blocks[|blocks| - 1];
      if b.cid in m' then m' else m'[b.cid := b.data]
  }

  /** The blocks `PutMany` gets to before a CID that is too large. */
  function Taken(blocks: seq<Block>, opts: Options): seq<Block> {
    if blocks == [] || |blocks[0].cid.Encode()| > opts.maxIndexCidSize then []
    else [blocks[0]] + Taken(blocks[1..], opts)
  }

  /** Everything put successfully while the store was open, in order. */
  function TakenInRun(ops: seq<Op>, opts: Options): seq<Block> {
    if ops == [] then []
    else
      var before, op := ops[..|ops| - 1], ops[|ops| - 1];
      TakenInRun(before, opts) +
      if op.PutMany? && RunOps(before, opts).open then Taken(op.blocks, opts) else []
  }

  lemma {:induction false} MergeAppend(m: map<Cid, Bytes>, a: seq<Block>, b: seq<Block>)
    ensures Merge(m, a + b) == Merge(Merge(m, a), b)
  {
    if b == [] {
      assert a + b == a;
    } else {
      var init := b[..|b| - 1];
      MergeAppend(m, a, init);
      assert (a + b)[..|a + b| - 1] == a + init;
    }
  }

  lemma MergeOne(m: map<Cid, Bytes>, b: Block)
    ensures Merge(m, [b]) == if b.cid in m then m else m[b.cid := b.data]
  {
    assert [b][..0] == [];
  }

  /** Putting merges exactly the blocks taken, duplicates or not. */
  lemma {:induction false} PutAllMerges(log: seq<Block>, blocks: seq<Block>, opts: Options)
    ensures Denotes(PutAll(log, blocks, opts).log) == Merge(Denotes(log), Taken(blocks, opts))
    decreases |blocks|
  {
    if blocks != [] && |blocks[0].cid.Encode()| <= opts.maxIndexCidSize {
      var b, rest := blocks[0], blocks[1..];
      var log' := PutStep(log, b, opts).log;
      DenotesAppend(log, b);
      DenotesDomain(log, b.cid);
      MergeOne(Denotes(log), b);
      assert Denotes(log') == Merge(Denotes(log), [b]);
      PutAllMerges(log', rest, opts);
      MergeAppend(Denotes(log), [b], Taken(rest, opts));
    }
  }

  /** Over every run the store denotes the first write of every CID ever put. */
  lemma {:induction false} FirstWriteWins(ops: seq<Op>, opts: Options)
    ensures Denotes(RunOps(ops, opts).log) == Merge(map[], TakenInRun(ops, opts))
  {
    if ops != [] {
      var before, op := ops[..|ops| - 1], ops[|ops| - 1];
      FirstWriteWins(before, opts);
      var s := RunOps(before, opts);
      if op.PutMany? && s.open {
        PutAllMerges(s.log, op.blocks, opts);
        MergeAppend(map[], TakenInRun(before, opts), Taken(op.blocks, opts));
      } else {
        assert TakenInRun(ops, opts) == TakenInRun(before, opts);
      }
    }
  }

  lemma {:induction false} MergeKeeps(m: map<Cid, Bytes>, blocks: seq<Block>, key: Cid)
    requires key in m
    ensures key in Merge(m, blocks) && Merge(m, blocks)[key] == m[key]
  {
    if blocks != [] {
      MergeKeeps(m, blocks[..|blocks| - 1], key);
    }
  }

  lemma {:induction false} TakenInRunGrows(ops: seq<Op>, more: seq<Op>, opts: Options)
    ensures TakenInRun(ops, opts) <= TakenInRun(ops + more, opts)
  {
    if more == [] {
      assert ops + more == ops;
    } else {
      TakenInRunGrows(ops, more[..|more| - 1], opts);
      assert (ops + more)[..|ops + more| - 1] == ops + more[..|more| - 1];
    }
  }

  /** What a run has stored, no continuation changes or forgets, across closing and reopening. */
  lemma NeverForgets(ops: seq<Op>, more: seq<Op>, opts: Options, key: Cid)
    requires key in Denotes(RunOps(ops, opts).log)
    ensures key in Denotes(RunOps(ops + more, opts).log)
    ensures Denotes(RunOps(ops + more, opts).log)[key] == Denotes(RunOps(ops, opts).log)[key]
  {
    FirstWriteWins(ops, opts);
    FirstWriteWins(ops + more, opts);
    TakenInRunGrows(ops, more, opts);
    LongerMergeKeeps(TakenInRun(ops, opts), TakenInRun(ops + more, opts), key);
  }

  lemma LongerMergeKeeps(a: seq<Block>, b: seq<Block>, key: Cid)
    requires a <= b && key in Merge(map[], a)
    ensures key in Merge(map[], b) && Merge(map[], b)[key] == Merge(map[], a)[key]
  {
    assert b == a + b[|a|..];
    MergeAppend(map[], a, b[|a|..]);
    MergeKeeps(Merge(map[], a), b[|a|..], key);
  }

  // ---------------------------------------------------------------- no CID twice

  lemma {:induction false} PutAllKeepsDistinct(log: seq<Block>, blocks: seq<Block>, opts: Options)
    requires Distinct(log) && !opts.allowDuplicatePuts
    ensures Distinct(PutAll(log, blocks, opts).log)
    decreases |blocks|
  {
    if blocks != [] {
      PutAllKeepsDistinct(PutStep(log, blocks[0], opts).log, blocks[1..], opts);
    }
  }

  /** Without duplicate puts, no CID occurs twice in the file of any run. */
  lemma {:induction false} NoCidTwice(ops: seq<Op>, opts: Options)
    requires !opts.allowDuplicatePuts
    ensures Distinct(RunOps(ops, opts).log)
  {
    if ops != [] {
      var before, op := ops[..|ops| - 1], ops[|ops| - 1];
      NoCidTwice(before, opts);
      if op.PutMany? {
        PutAllKeepsDistinct(RunOps(before, opts).log, op.blocks, opts);
      }
    }
  }

  // ---------------------------------------------------------------- the store follows the specification

  /** The file on disk stands for the session: open form, or finalized form once closed. */
  predicate OnDisk(file: Bytes, dataOffset: nat, header: Bytes, s: Session)
    requires dataOffset >= PRAGMA_SIZE + HEADER_SIZE
  {
    file == OpenFile(dataOffset, Payload(header, s.log)) ||
    (!s.open && FinalFile(file, dataOffset, Payload(header, s.log)))
  }

  /** Only storable blocks are put, and no file on the way outgrows its 64-bit size field. */
  ghost predicate Feasible(ops: seq<Op>, dataOffset: nat, header: Bytes, opts: Options)
    requires dataOffset >= PRAGMA_SIZE + HEADER_SIZE
  {
    && (forall i :: 0 <= i < |ops| && ops[i].PutMany? ==> AllStorable(ops[i].blocks))
    && (forall i :: 0 <= i <= |ops| ==>
          dataOffset + |Payload(header, RunOps(ops[..i], opts).log)| < UINT64_SIZE)
  }

  /** The store and the session agree. */
  ghost predicate Agrees(store: ReadWrite, header: Bytes, dataOffset: nat, opts: Options, s: Session)
    reads store
  {
    && store.header == header && store.dataOffset == dataOffset && store.opts == opts
    && store.log == s.log && store.closed == !s.open
    && AllStorable(s.log) && store.Configured()
    && (s.open ==> store.Valid())
    && OnDisk(store.file, dataOffset, header, s)
  }

  /** `OpenReadWrite`: start a fresh file, or resume an existing one that holds `was`. */
  method Open(file: Bytes, header: Bytes, dataPadding: nat, opts: Options, ghost was: seq<Block>) returns (store: ReadWrite)
    requires header != [] && |header| < LIMIT56 && AllStorable(was)
    requires file == [] ==> was == []
    requires var dataOffset := PRAGMA_SIZE + HEADER_SIZE + dataPadding;
             var payload := Payload(header, was);
             file != [] ==> file == OpenFile(dataOffset, payload) || FinalFile(file, dataOffset, payload)
    ensures fresh(store)
    ensures Agrees(store, header, PRAGMA_SIZE + HEADER_SIZE + dataPadding, opts, Session(was, true))
  {
    store := new ReadWrite(file, header, dataPadding, opts);
    if |file| != 0 {
      var error := store.Reopen(was);
    } else {
      store.InitWithRoots();
    }
  }

  /** Carries out one operation on a store that agrees with a session. */
  method Step(store: ReadWrite, op: Op, header: Bytes, dataPadding: nat, opts: Options, characteristics: Bytes,
              ghost s: Session) returns (store': ReadWrite)
    requires Agrees(store, header, PRAGMA_SIZE + HEADER_SIZE + dataPadding, opts, s)
    requires op.PutMany? ==> AllStorable(op.blocks)
    requires |characteristics| == CHARACTERISTICS_SIZE
    requires PRAGMA_SIZE + HEADER_SIZE + dataPadding + |Payload(header, s.log)| < UINT64_SIZE
    modifies store
    ensures store' == store || fresh(store')
    ensures Agrees(store', header, PRAGMA_SIZE + HEADER_SIZE + dataPadding, opts, Perform(s, op, opts))
  {
    store' := store;
    match op
    case PutMany(blocks) =>
      var error := store.PutMany(blocks);
    case Discard =>
      store.Discard();
    case Finalize(index, indexPadding) =>
      var ok := store.Finalize(index, indexPadding, characteristics);
    case Reopen =>
      store' := Open(store.file, header, dataPadding, opts, s.log);
  }

  lemma FeasibleBefore(ops: seq<Op>, dataOffset: nat, header: Bytes, opts: Options)
    requires dataOffset >= PRAGMA_SIZE + HEADER_SIZE && ops != [] && Feasible(ops, dataOffset, header, opts)
    ensures var before, op := ops[..|ops| - 1], ops[|ops| - 1];
            && Feasible(before, dataOffset, header, opts)
            && (op.PutMany? ==> AllStorable(op.blocks))
            && dataOffset + |Payload(header, RunOps(before, opts).log)| < UINT64_SIZE
  {
    var before := ops[..|ops| - 1];
    forall i | 0 <= i <= |before| ensures ops[..i] == before[..i] {}
  }

  /**
   Runs the store on any sequence of operations: it ends with exactly the blocks of the
   specified session, in memory and on disk.
   */
  method RunStore(ops: seq<Op>, header: Bytes, dataPadding: nat, opts: Options, characteristics: Bytes)
    returns (store: ReadWrite)
    requires header != [] && |header| < LIMIT56 && |characteristics| == CHARACTERISTICS_SIZE
    requires Feasible(ops, PRAGMA_SIZE + HEADER_SIZE + dataPadding, header, opts)
    ensures fresh(store)
    ensures Agrees(store, header, PRAGMA_SIZE + HEADER_SIZE + dataPadding, opts, RunOps(ops, opts))
    decreases |ops|
  {
    if ops == [] {
      store := Open([], header, dataPadding, opts, []);
    } else {
      var before, op := ops[..|ops| - 1], ops[|ops| - 1];
      FeasibleBefore(ops, PRAGMA_SIZE + HEADER_SIZE + dataPadding, header, opts);
      store := RunStore(before, header, dataPadding, opts, characteristics);
      store := Step(store, op, header, dataPadding, opts, characteristics, RunOps(before, opts));
    }
  }

  /** What `Get` answers at the end of a run, in terms of the blocks put while the store was open. */
  function Answers(ops: seq<Op>, opts: Options, key: Cid): Answer<Bytes> {
    var stored := Merge(map[], TakenInRun(ops, opts));
    if !RunOps(ops, opts).open then StoreClosed
    else if key in stored then Found(stored[key])
    else NotFound
  }

  /** The refinement in one statement: after any run, `Get` answers from the first write of every CID put. */
  method GetAfterRun(ops: seq<Op>, key: Cid, header: Bytes, dataPadding: nat, opts: Options, characteristics: Bytes)
    returns (data: Answer<Bytes>)
    requires header != [] && |header| < LIMIT56 && |characteristics| == CHARACTERISTICS_SIZE && key.WellFormed()
    requires Feasible(ops, PRAGMA_SIZE + HEADER_SIZE + dataPadding, header, opts)
    ensures data == Answers(ops, opts, key)
  {
    var store := RunStore(ops, header, dataPadding, opts, characteristics);
    FirstWriteWins(ops, opts);
    data := store.Get(key);
  }
}
