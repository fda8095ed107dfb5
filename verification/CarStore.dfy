/**
 The read-write CAR blockstore (stores/kvcarbs.go, `ReadWrite` and `ReadOnly`) in the
 configuration the repository uses: blocks are identified by whole CIDs.

 The store is a file, a writer position and an in-memory index.  A ghost log of the blocks
 written so far says what they must hold, and the store denotes a first-write-wins map.
 */
module CarStore {
  import opened Words
  import opened Wrappers
  import opened Uvarint
  import opened Cids
  import opened CarFormat
  import opened CarIndex
  import opened CarFile

  // ---------------------------------------------------------------- what a log denotes

  /** The map a log denotes: the first block written for a CID counts. */
  function Denotes(log: seq<Block>): map<Cid, Bytes> {
    if log == [] then map[]
    else
      var m, b := Denotes(log[..|log| - 1]), log[|log| - 1];
      if b.cid in m then m else m[b.cid := b.data]
  }

  predicate Contains(log: seq<Block>, c: Cid) {
    exists i :: 0 <= i < |log| && log[i].cid == c
  }

  /** No CID occurs twice. */
  predicate Distinct(log: seq<Block>) {
    forall i, j :: 0 <= i < j < |log| ==> log[i].cid != log[j].cid
  }

  lemma DenotesAppend(log: seq<Block>, b: Block)
    ensures Denotes(log + [b]) == if b.cid in Denotes(log) then Denotes(log) else Denotes(log)[b.cid := b.data]
  {
    assert (log + [b])[..|log + [b]| - 1] == log;
  }

  lemma {:induction false} DenotesDomain(log: seq<Block>, c: Cid)
    ensures c in Denotes(log) <==> Contains(log, c)
  {
    if log != [] {
      var init := log[..|log| - 1];
      DenotesDomain(init, c);
      if Contains(init, c) {
        var i :| 0 <= i < |init| && init[i].cid == c;
        assert log[i].cid == c;
      }
      if Contains(log, c) && log[|log| - 1].cid != c {
        var i :| 0 <= i < |log| && log[i].cid == c;
        assert init[i].cid == c;
      }
    }
  }

  /** A lookup of the records finds the block whose data the log denotes for the key. */
  lemma {:induction false} LookupFindsData(header: Bytes, log: seq<Block>, key: Cid) returns (i: nat)
    ensures First(Records(header, log), key).Some? <==> key in Denotes(log)
    ensures key in Denotes(log) ==>
              i < |log| && log[i] == Block(key, Denotes(log)[key]) &&
              Records(header, log)[i] == First(Records(header, log), key).value
  {
    i := 0;
    if log != [] {
      var init, b := log[..|log| - 1], log[|log| - 1];
      var r := Record(b.cid, |Payload(header, init)|);
      i := LookupFindsData(header, init, key);
      FirstAppend(Records(header, init), r, key);
      assert Records(header, log) == Records(header, init) + [r];
      if key !in Denotes(init) && b.cid == key {
        i := |init|;
      }
    }
  }

  // ---------------------------------------------------------------- options and results

  datatype Options = Options(allowDuplicatePuts: bool, zeroLengthSectionAsEOF: bool, maxIndexCidSize: nat)

  datatype PutError = Closed | CidTooLarge

  /** What a read returns. */
  datatype Answer<T> = Found(value: T) | NotFound | StoreClosed

  /** The log and the outcome after putting blocks one by one. */
  datatype Put = Put(log: seq<Block>, error: Option<PutError>)

  /** One block: refused if its CID is too large, skipped if it is a duplicate, appended otherwise. */
  function PutStep(log: seq<Block>, b: Block, opts: Options): Put {
    if |b.cid.Encode()| > opts.maxIndexCidSize then Put(log, Some(CidTooLarge))
    else if !opts.allowDuplicatePuts && Contains(log, b.cid) then Put(log, None)
    else Put(log + [b], None)
  }

  function PutAll(log: seq<Block>, blocks: seq<Block>, opts: Options): Put
    decreases |blocks|
  {
    if blocks == [] then Put(log, None)
    else
      var p := PutStep(log, blocks[0], opts);
      if p.error.Some? then p else PutAll(p.log, blocks[1..], opts)
  }

  /** File bytes, writer position and index all hold exactly the log. */
  ghost predicate Holds(header: Bytes, dataOffset: nat, log: seq<Block>, file: Bytes, writeAt: nat, idx: seq<Record>)
    requires dataOffset >= PRAGMA_SIZE + HEADER_SIZE
  {
    && AllStorable(log)
    && file == OpenFile(dataOffset, Payload(header, log))
    && writeAt == |file|
    && idx == BuildIndex(Records(header, log))
  }

  // ---------------------------------------------------------------- the store

  class ReadWrite {
    const header: Bytes            // encoded CARv1 header with the roots
    const dataOffset: nat
    const opts: Options
    var file: Bytes
    var writeAt: nat               // absolute offset of the data writer
    var idx: seq<Record>
    var closed: bool
    ghost var log: seq<Block>

    /** The roots header is one the length prefix can carry, and the payload comes after the CARv2 header. */
    predicate Configured() {
      header != [] && |header| < LIMIT56 && dataOffset >= PRAGMA_SIZE + HEADER_SIZE
    }

    ghost predicate Valid()
      reads this
    {
      Configured() && Holds(header, dataOffset, log, file, writeAt, idx)
    }

    constructor (file: Bytes, header: Bytes, dataPadding: nat, opts: Options)
      ensures this.file == file && this.header == header && this.opts == opts && !closed
      ensures dataOffset == PRAGMA_SIZE + HEADER_SIZE + dataPadding && writeAt == dataOffset && idx == [] && log == []
    {
      this.header, this.dataOffset, this.opts := header, PRAGMA_SIZE + HEADER_SIZE + dataPadding, opts;
      this.file, writeAt, idx, closed, log := file, PRAGMA_SIZE + HEADER_SIZE + dataPadding, [], false, [];
    }

    /** The data writer appends at its position. */
    method Write(b: Bytes)
      modifies this`file, this`writeAt
      ensures file == WriteAt(old(file), b, old(writeAt)) && writeAt == old(writeAt) + |b|
    {
      file := WriteAt(file, b, writeAt);
      writeAt := writeAt + |b|;
    }

    /** `initWithRoots` on an empty file. */
    method InitWithRoots()
      requires Configured() && file == [] && writeAt == dataOffset && idx == [] && log == []
      modifies this`file, this`writeAt
      ensures Valid()
    {
      file := WriteAt(file, PRAGMA, 0);
      Write(PutUvarint(|header|));
      Write(header);
      InitialFile(dataOffset, header);
    }

    /** `resumeWithRoots`: the section scan moves relative to the reader's position. */
    method ResumeWithRoots() returns (error: Option<ResumeError>)
      requires writeAt == dataOffset && idx == [] && log == []
      modifies this`file, this`writeAt, this`idx
      ensures match Resume(old(file), dataOffset, header, opts.zeroLengthSectionAsEOF)
              case Failed(e) =>
                && error == Some(e) && writeAt == old(writeAt)
                && file == (if e.UnreadableSection? then Unfinalized(old(file)) else old(file))
              case Ready(f, w, i) => error == None && file == f && writeAt == w && idx == i
    {
      error := CheckResume(file, dataOffset, header);
      if error.Some? {
        return;
      }
      file := Unfinalized(file);
      var clean, end, rebuilt := Rescan(From(file, dataOffset), |Ld(header)|, opts.zeroLengthSectionAsEOF);
      idx := rebuilt;
      if !clean {
        return Some(UnreadableSection);
      }
      writeAt := dataOffset + end;
    }

    /** Resuming the file of a log brings back a store of that log. */
    method Reopen(ghost was: seq<Block>) returns (error: Option<ResumeError>)
      requires Configured() && AllStorable(was) && writeAt == dataOffset && idx == [] && log == []
      requires var payload := Payload(header, was);
               file == OpenFile(dataOffset, payload) || FinalFile(file, dataOffset, payload)
      modifies this
      ensures error == None && Valid() && log == was && closed == old(closed)
    {
      ResumeHolds(file, dataOffset, header, was, opts.zeroLengthSectionAsEOF);
      error := ResumeWithRoots();
      log := was;
    }

    /** `PutMany`: append what is new, section by section. */
    method PutMany(blocks: seq<Block>) returns (error: Option<PutError>)
      requires !closed ==> Valid()
      requires AllStorable(blocks)
      modifies this`file, this`writeAt, this`idx, this`log
      ensures closed ==> error == Some(Closed) && log == old(log) && file == old(file) &&
                         idx == old(idx) && writeAt == old(writeAt)
      ensures !closed ==> Valid() && Put(log, error) == PutAll(old(log), blocks, opts)
    {
      if closed {
        return Some(Closed);
      }
      var i := 0;
      while i < |blocks|
        invariant i <= |blocks|
        invariant Valid()
        invariant PutAll(old(log), blocks, opts) == PutAll(log, blocks[i..], opts)
      {
        assert blocks[i..][0] == blocks[i] && blocks[i..][1..] == blocks[i + 1..];
        error := PutBlock(blocks[i]);
        if error.Some? {
          return;
        }
        i := i + 1;
      }
      return None;
    }

    /** One round of `PutMany`. */
    method PutBlock(b: Block) returns (error: Option<PutError>)
      requires Valid() && b.Storable()
      modifies this`file, this`writeAt, this`idx, this`log
      ensures Valid() && Put(log, error) == PutStep(old(log), b, opts)
    {
      if |b.cid.Encode()| > opts.maxIndexCidSize {
        return Some(CidTooLarge);
      }
      if !opts.allowDuplicatePuts {
        BuildIndexSorted(Records(header, log));
        IndexContains(header, log, b.cid);
        var has := HasExactCID(idx, b.cid);
        if has {
          return None;
        }
      }
      Append(b);
      return None;
    }

    /** Writes one section and indexes it. */
    method Append(b: Block)
      requires Valid() && b.Storable()
      modifies this`file, this`writeAt, this`idx, this`log
      ensures Valid() && log == old(log) + [b]
    {
      AppendHolds(header, dataOffset, log, file, writeAt, idx, b);
      var n := writeAt - dataOffset;
      WriteSection(b);
      idx := Insert(idx, Record(b.cid, n));
      log := log + [b];
    }

    /** `LdWrite` of the CID and the data. */
    method WriteSection(b: Block)
      requires writeAt == |file|
      modifies this`file, this`writeAt
      ensures file == old(file) + b.Section() && writeAt == |file|
    {
      SectionInPieces(file, b);
      Write(PutUvarint(|b.Body()|));
      Write(b.cid.Encode());
      Write(b.data);
    }

    /** `Has`. */
    method Has(key: Cid) returns (has: Answer<bool>)
      requires !closed ==> Valid()
      requires key.WellFormed()
      ensures has == if closed then StoreClosed else Found(key in Denotes(log))
    {
      if closed {
        return StoreClosed;
      }
      var r := Lookup(key);
      has := Found(r.Some?);
    }

    /** `Get`: the data of the block. */
    method Get(key: Cid) returns (data: Answer<Bytes>)
      requires !closed ==> Valid()
      requires key.WellFormed()
      ensures data == if closed then StoreClosed
                      else if key in Denotes(log) then Found(Denotes(log)[key]) else NotFound
    {
      if closed {
        return StoreClosed;
      }
      var r := Lookup(key);
      if r.None? {
        return NotFound;
      }
      SectionReadsBack(From(file, dataOffset), r.value, Block(key, Denotes(log)[key]), opts.zeroLengthSectionAsEOF);
      var node := ReadNode(From(file, dataOffset), r.value, opts.zeroLengthSectionAsEOF);
      data := if node.Got? then Found(node.value.data) else NotFound;
    }

    /** `GetSize`: from the section length alone. */
    method GetSize(key: Cid) returns (size: Answer<int>)
      requires !closed ==> Valid()
      requires key.WellFormed()
      ensures size == if closed then StoreClosed
                      else if key in Denotes(log) then Found(|Denotes(log)[key]|) else NotFound
    {
      if closed {
        return StoreClosed;
      }
      var r := Lookup(key);
      if r.None? {
        return NotFound;
      }
      var payload := From(file, dataOffset);
      ghost var next := SectionReadsInPlace(payload, r.value, Block(key, Denotes(log)[key]));
      var length := ReadUvarint(payload, r.value);
      var c := if length.Got? then ReadCid(payload, length.next) else Bad;
      size := if c.Got? then Found(length.value - (c.next - length.next)) else NotFound;
    }

    /** The walk over the index that Has, Get and GetSize share: the offset of the key's first section. */
    method Lookup(key: Cid) returns (offset: Option<nat>)
      requires Valid() && key.WellFormed()
      ensures offset.Some? <==> key in Denotes(log)
      ensures offset.Some? ==> At(From(file, dataOffset), offset.value, Block(key, Denotes(log)[key]).Section()) &&
                               Block(key, Denotes(log)[key]).Storable()
    {
      ghost var recs := Records(header, log);
      BuildIndexSorted(recs);
      var lo, hi := FindStretch(idx, key.digest);
      forall i | lo <= i < hi ensures Names(Payload(header, log), idx[i]) {
        SectionOfIndexEntry(header, log, idx, i);
      }
      assert From(file, dataOffset) == Payload(header, log);
      offset := FindNamed(From(file, dataOffset), idx[lo..hi], key);
      StretchHoldsKey(idx, key, lo, hi);
      IndexFindsFirst(recs, key);
      ghost var at := LookupFindsData(header, log, key);
      if offset.Some? {
        SectionOfKey(header, log, key);
      }
    }

    /** `AllKeysChan`: the section scan seeks to absolute positions. */
    method AllKeys() returns (keys: Option<seq<Cid>>)
      requires !closed ==> Valid()
      ensures closed <==> keys.None?
      ensures !closed ==> |keys.value| == |log| && forall i :: 0 <= i < |log| ==> keys.value[i] == log[i].cid
    {
      if closed {
        return None;
      }
      var payload := From(file, dataOffset);
      assert payload == Payload(header, log);
      ScanFindsLog(header, log, opts.zeroLengthSectionAsEOF);
      var found := ListKeys(payload, |Ld(header)|, opts.zeroLengthSectionAsEOF);
      forall i | 0 <= i < |log| ensures Records(header, log)[i].cid == log[i].cid {
        RecordsPrefix(header, log, i);
      }
      keys := Some(found);
    }

    /** `Discard`: close without finalizing. */
    method Discard()
      modifies this`closed
      ensures closed
    {
      closed := true;
    }

    /** `Finalize`: write the flattened index and the CARv2 header, and close. */
    method Finalize(index: Bytes, indexPadding: nat, characteristics: Bytes) returns (ok: bool)
      requires !closed ==> Valid()
      requires |characteristics| == CHARACTERISTICS_SIZE && (!closed ==> |file| < UINT64_SIZE)
      modifies this`file, this`closed
      ensures closed && ok == !old(closed)
      ensures old(closed) ==> file == old(file)
      ensures !old(closed) ==> FinalFile(file, dataOffset, Payload(header, log))
    {
      if closed {
        return false;
      }
      var dataSize := writeAt - dataOffset;
      var indexOffset := dataOffset + dataSize + indexPadding;
      FinalizeKeepsPayload(dataOffset, Payload(header, log), characteristics, index, indexOffset);
      file := WriteAt(file, index, indexOffset);
      file := WriteAt(file, HeaderBytes(characteristics, dataOffset, dataSize, indexOffset), PRAGMA_SIZE);
      closed := true;
      return true;
    }
  }

  /** `insertNoReplace`, for an index built from `recs` so far. */
  method InsertNoReplace(idx: seq<Record>, r: Record, ghost recs: seq<Record>) returns (idx': seq<Record>)
    requires idx == BuildIndex(recs)
    ensures idx' == BuildIndex(recs + [r])
  {
    IndexAppend(recs, r);
    idx' := Insert(idx, r);
  }

  /** The section at a record's offset carries the record's CID. */
  predicate Names(payload: Bytes, r: Record) {
    var length := ReadUvarint(payload, r.offset);
    length.Got? && ReadCid(payload, length.next).Got? && ReadCid(payload, length.next).value == r.cid
  }

  /** The callback of `GetAll`: read the CID at each offset and stop at the first exact match. */
  method FindNamed(payload: Bytes, stretch: seq<Record>, key: Cid) returns (offset: Option<nat>)
    requires forall i :: 0 <= i < |stretch| ==> Names(payload, stretch[i])
    ensures offset == match First(stretch, key) case Some(r) => Some(r.offset) case None => None
  {
    var i := 0;
    while i < |stretch|
      invariant i <= |stretch|
      invariant forall j :: 0 <= j < i ==> stretch[j].cid != key
    {
      assert Names(payload, stretch[i]);
      var c := ReadCid(payload, ReadUvarint(payload, stretch[i].offset).next);
      if c.value == key {
        FirstSkips(stretch, key, i);
        return Some(stretch[i].offset);
      }
      i := i + 1;
    }
    FirstSkips(stretch, key, i);
    return None;
  }

  /** The rescan of `resumeWithRoots`: index every section, moving relative to the reader's position. */
  method Rescan(payload: Bytes, start: nat, zeroLenAsEOF: bool) returns (clean: bool, sectionOffset: nat, idx: seq<Record>)
    ensures var scan := ScanFrom(payload, start, zeroLenAsEOF);
            clean == scan.clean && sectionOffset == scan.end && idx == BuildIndex(scan.records)
  {
    sectionOffset, idx := start, [];
    ghost var scan := ScanFrom(payload, start, zeroLenAsEOF);
    ghost var recs: seq<Record> := [];
    assert [] + scan.records == scan.records;
    while true
      invariant idx == BuildIndex(recs)
      invariant Reached(payload, zeroLenAsEOF, scan, recs, sectionOffset)
      decreases if sectionOffset < |payload| then |payload| - sectionOffset else 0
    {
      var head := ReadHead(payload, sectionOffset, zeroLenAsEOF);
      if head.Stop? {
        ScanStops(payload, zeroLenAsEOF, scan, recs, sectionOffset);
        clean := head.clean;
        return;
      }
      var r := Record(head.cid, sectionOffset);
      idx := InsertNoReplace(idx, r, recs);
      ScanAdvances(payload, zeroLenAsEOF, scan, recs, sectionOffset);
      recs := recs + [r];
      var length, n := head.end - head.body, head.cidEnd - head.body;
      sectionOffset := head.cidEnd + length - n;
      assert sectionOffset == head.end;
    }
  }

  /** One section position: `ReadUvarint` for the length, then `CidFromReader`. */
  method ReadHead(payload: Bytes, pos: nat, zeroLenAsEOF: bool) returns (head: Head)
    ensures head == HeadAt(payload, pos, zeroLenAsEOF)
  {
    var length := ReadUvarint(payload, pos);
    if length.Eof? {
      return Stop(true);
    }
    if length.Bad? {
      return Stop(false);
    }
    if length.value == 0 {
      return Stop(zeroLenAsEOF);
    }
    var c := ReadCid(payload, length.next);
    if !c.Got? {
      return Stop(false);
    }
    return Head.Section(c.value, c.next, length.next, length.next + length.value);
  }

  /** The walk of `AllKeysChan`: list the CID of every section, seeking to absolute positions. */
  method ListKeys(payload: Bytes, start: nat, zeroLenAsEOF: bool) returns (keys: seq<Cid>)
    ensures var recs := ScanFrom(payload, start, zeroLenAsEOF).records;
            |keys| == |recs| && forall i :: 0 <= i < |recs| ==> keys[i] == recs[i].cid
  {
    keys := [];
    var pos := start;
    ghost var scan := ScanFrom(payload, start, zeroLenAsEOF);
    ghost var recs: seq<Record> := [];
    assert [] + scan.records == scan.records;
    while true
      invariant |keys| == |recs| && forall i :: 0 <= i < |recs| ==> keys[i] == recs[i].cid
      invariant Reached(payload, zeroLenAsEOF, scan, recs, pos)
      decreases if pos < |payload| then |payload| - pos else 0
    {
      var head := ReadHead(payload, pos, zeroLenAsEOF);
      if head.Stop? {
        ScanStops(payload, zeroLenAsEOF, scan, recs, pos);
        return;
      }
      ScanAdvances(payload, zeroLenAsEOF, scan, recs, pos);
      recs := recs + [Record(head.cid, pos)];
      keys := keys + [head.cid];
      pos := head.end;
    }
  }

  // ---------------------------------------------------------------- facts the store relies on

  /** A scan that has found `recs` so far and goes on at `pos`. */
  ghost predicate Reached(payload: Bytes, zeroLenAsEOF: bool, scan: Scan, recs: seq<Record>, pos: nat) {
    var rest := ScanFrom(payload, pos, zeroLenAsEOF);
    scan == Scan(recs + rest.records, rest.end, rest.clean)
  }

  lemma ScanAdvances(payload: Bytes, zeroLenAsEOF: bool, scan: Scan, recs: seq<Record>, pos: nat)
    requires Reached(payload, zeroLenAsEOF, scan, recs, pos) && HeadAt(payload, pos, zeroLenAsEOF).Section?
    ensures var h := HeadAt(payload, pos, zeroLenAsEOF);
            Reached(payload, zeroLenAsEOF, scan, recs + [Record(h.cid, pos)], h.end)
  {
    var h := HeadAt(payload, pos, zeroLenAsEOF);
    var rest := ScanFrom(payload, h.end, zeroLenAsEOF).records;
    assert recs + ([Record(h.cid, pos)] + rest) == (recs + [Record(h.cid, pos)]) + rest;
  }

  /** Where the scan cannot read another section, it stops. */
  lemma ScanStops(payload: Bytes, zeroLenAsEOF: bool, scan: Scan, recs: seq<Record>, pos: nat)
    requires Reached(payload, zeroLenAsEOF, scan, recs, pos) && HeadAt(payload, pos, zeroLenAsEOF).Stop?
    ensures scan == Scan(recs, pos, HeadAt(payload, pos, zeroLenAsEOF).clean)
  {
    assert recs + [] == recs;
  }

  lemma ResumeHolds(f: Bytes, dataOffset: nat, header: Bytes, log: seq<Block>, zeroLenAsEOF: bool)
    requires dataOffset >= PRAGMA_SIZE + HEADER_SIZE && header != [] && |header| < LIMIT56 && AllStorable(log)
    requires var payload := Payload(header, log);
             f == OpenFile(dataOffset, payload) || FinalFile(f, dataOffset, payload)
    ensures var r := Resume(f, dataOffset, header, zeroLenAsEOF);
            r.Ready? && Holds(header, dataOffset, log, r.file, r.writeAt, r.idx)
  {
    ResumeRestores(f, dataOffset, header, log, zeroLenAsEOF);
  }

  lemma WriteAtEnd(f: Bytes, b: Bytes)
    ensures WriteAt(f, b, |f|) == f + b
  {}

  /** Three writes at the end of a file append a section. */
  lemma SectionInPieces(f: Bytes, b: Block)
    ensures var f1 := WriteAt(f, PutUvarint(|b.Body()|), |f|);
            var f2 := WriteAt(f1, b.cid.Encode(), |f1|);
            WriteAt(f2, b.data, |f2|) == f + b.Section()
  {
    var x, y, z := PutUvarint(|b.Body()|), b.cid.Encode(), b.data;
    WriteAtEnd(f, x);
    WriteAtEnd(f + x, y);
    WriteAtEnd(f + x + y, z);
    assert f + x + y + z == f + (x + (y + z));
  }

  /** Appending a section to the file and its record to the index keeps them in line with the log. */
  lemma AppendHolds(header: Bytes, dataOffset: nat, log: seq<Block>, file: Bytes, writeAt: nat, idx: seq<Record>, b: Block)
    requires dataOffset >= PRAGMA_SIZE + HEADER_SIZE && Holds(header, dataOffset, log, file, writeAt, idx) && b.Storable()
    ensures dataOffset <= writeAt
    ensures Holds(header, dataOffset, log + [b], file + b.Section(), |file + b.Section()|,
                  Insert(idx, Record(b.cid, writeAt - dataOffset)))
  {
    assert OpenFile(dataOffset, Payload(header, log + [b])) == file + b.Section() by {
      PayloadAppend(header, log, b);
      FileAppend(dataOffset, Payload(header, log), b.Section());
    }
    assert BuildIndex(Records(header, log + [b])) == Insert(idx, Record(b.cid, writeAt - dataOffset)) by {
      PayloadAppend(header, log, b);
      IndexAppend(Records(header, log), Record(b.cid, |Payload(header, log)|));
    }
  }

  lemma FileAppend(dataOffset: nat, payload: Bytes, x: Bytes)
    requires dataOffset >= PRAGMA_SIZE + HEADER_SIZE
    ensures OpenFile(dataOffset, payload + x) == OpenFile(dataOffset, payload) + x
  {
    assert Preamble(dataOffset) + (payload + x) == Preamble(dataOffset) + payload + x;
  }

  lemma InitialFile(dataOffset: nat, header: Bytes)
    requires dataOffset >= PRAGMA_SIZE + HEADER_SIZE
    ensures var prefix := PutUvarint(|header|);
            WriteAt(WriteAt(WriteAt([], PRAGMA, 0), prefix, dataOffset), header, dataOffset + |prefix|)
            == OpenFile(dataOffset, Payload(header, []))
  {
    EmptyPayload(header);
    InitialWrites(dataOffset, PutUvarint(|header|), header);
  }

  lemma EmptyPayload(header: Bytes)
    ensures Payload(header, []) == Ld(header)
  {
    ConcatAppend([], Ld(header));
    assert [] + [Ld(header)] == Parts(header, []);
    assert [] + Ld(header) == Ld(header);
  }

  lemma InitialWrites(dataOffset: nat, prefix: Bytes, header: Bytes)
    requires dataOffset >= PRAGMA_SIZE + HEADER_SIZE
    ensures WriteAt(WriteAt(WriteAt([], PRAGMA, 0), prefix, dataOffset), header, dataOffset + |prefix|)
            == OpenFile(dataOffset, prefix + header)
  {
    PadAndWrite(dataOffset, prefix);
    WriteAtEnd(Preamble(dataOffset) + prefix, header);
    FileAppend(dataOffset, prefix, header);
  }

  lemma PadAndWrite(dataOffset: nat, x: Bytes)
    requires dataOffset >= PRAGMA_SIZE + HEADER_SIZE
    ensures WriteAt(WriteAt([], PRAGMA, 0), x, dataOffset) == Preamble(dataOffset) + x
  {
    assert WriteAt([], PRAGMA, 0) == PRAGMA;
  }

  lemma IndexAppend(recs: seq<Record>, r: Record)
    ensures BuildIndex(recs + [r]) == Insert(BuildIndex(recs), r)
  {
    assert (recs + [r])[..|recs + [r]| - 1] == recs;
  }

  /** The index knows a CID exactly when the log contains it. */
  lemma IndexContains(header: Bytes, log: seq<Block>, key: Cid)
    ensures Indexed(BuildIndex(Records(header, log)), key) <==> Contains(log, key)
  {
    var recs := Records(header, log);
    var idx := BuildIndex(recs);
    IndexFindsFirst(recs, key);
    var at := LookupFindsData(header, log, key);
    DenotesDomain(log, key);
    if First(idx, key).Some? {
      FirstIsMember(idx, key);
    }
    if i :| 0 <= i < |idx| && idx[i].cid == key {
      FirstFound(idx, key, i);
    }
  }

  /** Every index entry points at a readable section of its CID. */
  lemma SectionOfIndexEntry(header: Bytes, log: seq<Block>, idx: seq<Record>, i: nat)
    requires AllStorable(log) && idx == BuildIndex(Records(header, log)) && i < |idx|
    ensures Names(Payload(header, log), idx[i])
  {
    BuildIndexKeepsRecords(Records(header, log));
    assert idx[i] in multiset(idx);
    assert idx[i] in Records(header, log);
    var k :| 0 <= k < |log| && Records(header, log)[k] == idx[i];
    RecordPointsAtSection(header, log, k);
    var next := SectionReadsInPlace(Payload(header, log), idx[i].offset, log[k]);
  }

  lemma {:induction false} BuildIndexKeepsRecords(recs: seq<Record>)
    ensures multiset(BuildIndex(recs)) == multiset(recs)
  {
    if recs != [] {
      var init, r := recs[..|recs| - 1], recs[|recs| - 1];
      BuildIndexKeepsRecords(init);
      InsertKeepsRecords(BuildIndex(init), r);
      assert recs == init + [r];
    }
  }

  /** The section found for a key holds the data the log denotes for it. */
  lemma SectionOfKey(header: Bytes, log: seq<Block>, key: Cid)
    requires AllStorable(log) && First(Records(header, log), key).Some?
    ensures key in Denotes(log)
    ensures var b := Block(key, Denotes(log)[key]);
            b.Storable() && At(Payload(header, log), First(Records(header, log), key).value.offset, b.Section())
  {
    var i := LookupFindsData(header, log, key);
    RecordPointsAtSection(header, log, i);
  }
}
