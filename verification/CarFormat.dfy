/**
 The byte layout of a CAR file and the sequential scan over its sections
 (stores/kvcarbs.go; CARv1 specification, "Data"; CARv2 specification, "Header").

 The CBOR encoding of the CARv1 header (its root CIDs and version) is an opaque byte
 string here: two headers match when these bytes do.
 */
module CarFormat {
  import opened Uvarint
  import opened Cids

  /** A stored block; the data need not match the hash in the CID. */
  datatype Block = Block(cid: Cid, data: Bytes)
  {
    /** The bytes of the section after its length prefix. */
    function Body(): Bytes {
      cid.Encode() + data
    }

    /** The section: its length and its body. */
    function Section(): Bytes {
      Ld(Body())
    }

    /** The CID is encodable and the section length fits the writer's eight-byte prefix. */
    predicate Storable() {
      cid.WellFormed() && |Body()| < LIMIT56
    }
  }

  // ---------------------------------------------------------------- sections

  /** `LdWrite` of the given bytes: a length prefix and the bytes. */
  function Ld(body: Bytes): Bytes {
    PutUvarint(|body|) + body
  }

  /** `LdRead` at a position.  A body that is missing altogether reads as a clean end of input. */
  function LdRead(s: Bytes, pos: nat, zeroLenAsEOF: bool): Read<Bytes> {
    match ReadUvarint(s, pos)
    case Eof => Eof
    case Bad => Bad
    case Got(length, next) =>
      if length == 0 && zeroLenAsEOF then Eof
      else if next + length <= |s| then Got(s[next..next + length], next + length)
      else if next == |s| then Eof
      else Bad
  }

  /** `ReadNode` at a position: a section split into its CID and its data. */
  function ReadNode(s: Bytes, pos: nat, zeroLenAsEOF: bool): Read<Block> {
    match LdRead(s, pos, zeroLenAsEOF)
    case Got(body, next) =>
      (match ReadCid(body, 0)
       case Got(c, n) => Got(Block(c, body[n..]), next)
       case _ => Bad)
    case Eof => Eof
    case Bad => Bad
  }

  /** Reading undoes writing, for every nonempty body below 2^56 bytes, and consumes exactly its size. */
  lemma LdReadUndoesWrite(s: Bytes, pos: nat, body: Bytes, zeroLenAsEOF: bool)
    requires body != [] && |body| < LIMIT56 && At(s, pos, Ld(body))
    ensures LdRead(s, pos, zeroLenAsEOF) == Got(body, pos + |Ld(body)|)
    ensures ReadUvarint(s, pos) == Got(|body|, pos + |PutUvarint(|body|)|)
    ensures At(s, pos + |PutUvarint(|body|)|, body)
  {
    var prefix := PutUvarint(|body|);
    AtParts(s, pos, prefix, body);
    ReadUndoesPut(s, pos, |body|);
    LdReadFrom(s, pos, pos + |prefix|, body, zeroLenAsEOF);
  }

  lemma LdReadFrom(s: Bytes, pos: nat, next: nat, body: Bytes, zeroLenAsEOF: bool)
    requires ReadUvarint(s, pos) == Got(|body|, next) && At(s, next, body) && body != []
    ensures LdRead(s, pos, zeroLenAsEOF) == Got(body, next + |body|)
  {}

  /** A body splits back into the CID and the data it was made from. */
  lemma BodySplits(b: Block)
    requires b.cid.WellFormed()
    ensures var n := |b.cid.Encode()|;
            n <= |b.Body()| && ReadCid(b.Body(), 0) == Got(b.cid, n) && b.Body()[n..] == b.data
  {
    var enc := b.cid.Encode();
    AtMiddle([], enc, b.data);
    assert [] + enc + b.data == b.Body();
    ReadUndoesEncode(b.Body(), 0, b.cid);
  }

  /** A section written for a block reads back as that block. */
  lemma SectionReadsBack(s: Bytes, pos: nat, b: Block, zeroLenAsEOF: bool)
    requires b.Storable() && At(s, pos, b.Section())
    ensures ReadNode(s, pos, zeroLenAsEOF) == Got(b, pos + |b.Section()|)
  {
    var body := b.Body();
    BodySplits(b);
    LdReadUndoesWrite(s, pos, body, zeroLenAsEOF);
    NodeFromBody(s, pos, b, body, pos + |Ld(body)|, zeroLenAsEOF);
  }

  lemma NodeFromBody(s: Bytes, pos: nat, b: Block, body: Bytes, next: nat, zeroLenAsEOF: bool)
    requires LdRead(s, pos, zeroLenAsEOF) == Got(body, next)
    requires ReadCid(body, 0).Got? && Block(ReadCid(body, 0).value, body[ReadCid(body, 0).next..]) == b
    ensures ReadNode(s, pos, zeroLenAsEOF) == Got(b, next)
  {}

  /** The same section read in place: its length, its CID, and where the next section starts. */
  lemma SectionReadsInPlace(s: Bytes, pos: nat, b: Block) returns (next: nat)
    requires b.Storable() && At(s, pos, b.Section())
    ensures ReadUvarint(s, pos) == Got(|b.Body()|, next) && |b.Body()| > 0
    ensures ReadCid(s, next) == Got(b.cid, next + |b.cid.Encode()|)
    ensures next + |b.Body()| == pos + |b.Section()|
  {
    var body := b.Body();
    next := pos + |PutUvarint(|body|)|;
    LdReadUndoesWrite(s, pos, body, true);
    CidReadsInPlace(s, next, b);
  }

  lemma CidReadsInPlace(s: Bytes, pos: nat, b: Block)
    requires b.cid.WellFormed() && At(s, pos, b.Body())
    ensures ReadCid(s, pos) == Got(b.cid, pos + |b.cid.Encode()|)
  {
    AtParts(s, pos, b.cid.Encode(), b.data);
    ReadUndoesEncode(s, pos, b.cid);
  }

  // ---------------------------------------------------------------- the log

  function Concat(parts: seq<Bytes>): Bytes {
    if parts == [] then [] else Concat(parts[..|parts| - 1]) + parts[|parts| - 1]
  }

  /** Where the i-th part of a concatenation starts. */
  function StartOf(parts: seq<Bytes>, i: nat): nat
    requires i <= |parts|
  {
    |Concat(parts[..i])|
  }

  lemma {:induction false} PartStandsAtStart(parts: seq<Bytes>, i: nat)
    requires i < |parts|
    ensures At(Concat(parts), StartOf(parts, i), parts[i])
    ensures StartOf(parts, i + 1) == StartOf(parts, i) + |parts[i]|
  {
    var init := parts[..|parts| - 1];
    assert parts[..i + 1][..i] == parts[..i];
    if i < |init| {
      PartStandsAtStart(init, i);
      assert init[..i] == parts[..i];
      var start := StartOf(parts, i);
      assert Concat(parts)[start..start + |parts[i]|] == Concat(init)[start..start + |parts[i]|];
    }
  }

  lemma ConcatAppend(parts: seq<Bytes>, x: Bytes)
    ensures Concat(parts + [x]) == Concat(parts) + x
  {
    assert (parts + [x])[..|parts + [x]| - 1] == parts;
  }

  /** The header section followed by one section per block. */
  function Parts(header: Bytes, log: seq<Block>): (r: seq<Bytes>)
    ensures |r| == |log| + 1
  {
    if log == [] then [Ld(header)] else Parts(header, log[..|log| - 1]) + [log[|log| - 1].Section()]
  }

  /** The CARv1 payload: the header section and the data sections. */
  function Payload(header: Bytes, log: seq<Block>): Bytes {
    Concat(Parts(header, log))
  }

  /** A CID and the payload offset of its section. */
  datatype Record = Record(cid: Cid, offset: nat)

  /** One record per block, in the order the blocks were written. */
  function Records(header: Bytes, log: seq<Block>): (r: seq<Record>)
    ensures |r| == |log|
  {
    if log == [] then []
    else Records(header, log[..|log| - 1]) + [Record(log[|log| - 1].cid, |Payload(header, log[..|log| - 1])|)]
  }

  predicate AllStorable(log: seq<Block>) {
    forall i :: 0 <= i < |log| ==> log[i].Storable()
  }

  /** Appending a block appends its section and its record. */
  lemma PayloadAppend(header: Bytes, log: seq<Block>, b: Block)
    ensures Payload(header, log + [b]) == Payload(header, log) + b.Section()
    ensures Records(header, log + [b]) == Records(header, log) + [Record(b.cid, |Payload(header, log)|)]
  {
    assert (log + [b])[..|log + [b]| - 1] == log;
    ConcatAppend(Parts(header, log), b.Section());
  }

  /** The parts up to the i-th block do not depend on the blocks after it. */
  lemma {:induction false} PartsPrefix(header: Bytes, log: seq<Block>, i: nat)
    requires i <= |log|
    ensures Parts(header, log)[..i + 1] == Parts(header, log[..i])
  {
    if i == |log| {
      assert log[..i] == log;
    } else {
      var init := log[..|log| - 1];
      PartsPrefix(header, init, i);
      assert init[..i] == log[..i];
    }
  }

  /** Nor does its record. */
  lemma {:induction false} RecordsPrefix(header: Bytes, log: seq<Block>, i: nat)
    requires i < |log|
    ensures Records(header, log)[i] == Record(log[i].cid, |Payload(header, log[..i])|)
  {
    var init := log[..|log| - 1];
    if i < |init| {
      RecordsPrefix(header, init, i);
      assert init[..i] == log[..i];
    }
  }

  lemma PartsOfBlock(header: Bytes, log: seq<Block>, i: nat)
    requires i < |log|
    ensures Parts(header, log)[i + 1] == log[i].Section()
    ensures Records(header, log)[i] == Record(log[i].cid, StartOf(Parts(header, log), i + 1))
  {
    RecordsPrefix(header, log, i);
    PartsPrefix(header, log, i);
    PartsPrefix(header, log, i + 1);
    assert log[..i + 1][..i] == log[..i];
    assert Parts(header, log)[i + 1] == Parts(header, log)[..i + 2][i + 1];
  }

  /** Every record points at its block's section, and the next section starts where it ends. */
  lemma RecordPointsAtSection(header: Bytes, log: seq<Block>, i: nat)
    requires i < |log|
    ensures Records(header, log)[i].cid == log[i].cid
    ensures At(Payload(header, log), Records(header, log)[i].offset, log[i].Section())
    ensures Records(header, log)[i].offset + |log[i].Section()|
         == if i + 1 < |log| then Records(header, log)[i + 1].offset else |Payload(header, log)|
  {
    var parts := Parts(header, log);
    PartsOfBlock(header, log, i);
    PartStandsAtStart(parts, i + 1);
    if i + 1 < |log| {
      PartsOfBlock(header, log, i + 1);
    } else {
      assert parts[..|parts|] == parts;
    }
  }

  lemma FirstSectionFollowsHeader(header: Bytes, log: seq<Block>)
    ensures At(Payload(header, log), 0, Ld(header))
    ensures |Ld(header)| == if log != [] then Records(header, log)[0].offset else |Payload(header, log)|
  {
    var parts := Parts(header, log);
    PartStandsAtStart(parts, 0);
    assert parts[..0] == [];
    if log != [] {
      PartsOfBlock(header, log, 0);
      PartsPrefix(header, log, 0);
      assert parts[..1][0] == parts[0];
    } else {
      assert parts[..|parts|] == parts;
    }
  }

  // ---------------------------------------------------------------- scanning

  /** What a sequential scan finds: records, the offset it stopped at, and whether it ended cleanly. */
  datatype Scan = Scan(records: seq<Record>, end: nat, clean: bool)

  /** What stands at a section position: nothing more to read, or a section of a CID. */
  datatype Head =
    | Stop(clean: bool)
    | Section(cid: Cid, cidEnd: nat, body: nat, end: nat)   // where its CID ends, its body starts and the section ends

  /** Reads the length and the CID at a section position. */
  function HeadAt(s: Bytes, pos: nat, zeroLenAsEOF: bool): (h: Head)
    ensures h.Section? ==> pos < h.body <= h.cidEnd <= |s| && h.body < h.end
  {
    match ReadUvarint(s, pos)
    case Eof => Stop(true)
    case Bad => Stop(false)
    case Got(length, next) =>
      if length == 0 then Stop(zeroLenAsEOF)
      else match ReadCid(s, next)
        case Got(c, cidEnd) => Head.Section(c, cidEnd, next, next + length)
        case _ => Stop(false)
  }

  /** The section walk that both `resumeWithRoots` and `AllKeysChan` perform. */
  function ScanFrom(s: Bytes, pos: nat, zeroLenAsEOF: bool): Scan
    decreases if pos < |s| then |s| - pos else 0
  {
    match HeadAt(s, pos, zeroLenAsEOF)
    case Stop(clean) => Scan([], pos, clean)
    case Section(c, _, _, end) =>
      var rest := ScanFrom(s, end, zeroLenAsEOF);
      Scan([Record(c, pos)] + rest.records, rest.end, rest.clean)
  }

  /** A readable section of CID `c` stands at `pos` and ends at `end`. */
  predicate Steps(s: Bytes, pos: nat, c: Cid, end: nat) {
    var h := HeadAt(s, pos, true);
    h.Section? && h.cid == c && h.end == end
  }

  lemma StepsEitherWay(s: Bytes, pos: nat, c: Cid, end: nat, zeroLenAsEOF: bool)
    requires Steps(s, pos, c, end)
    ensures HeadAt(s, pos, zeroLenAsEOF) == HeadAt(s, pos, true)
  {}

  lemma ScanAtEnd(s: Bytes, zeroLenAsEOF: bool)
    ensures ScanFrom(s, |s|, zeroLenAsEOF) == Scan([], |s|, true)
  {}

  lemma ScanOne(s: Bytes, pos: nat, c: Cid, end: nat, zeroLenAsEOF: bool)
    requires Steps(s, pos, c, end)
    ensures var rest := ScanFrom(s, end, zeroLenAsEOF);
            ScanFrom(s, pos, zeroLenAsEOF) == Scan([Record(c, pos)] + rest.records, rest.end, rest.clean)
  {
    StepsEitherWay(s, pos, c, end, zeroLenAsEOF);
  }

  /** The records describe adjacent readable sections that reach to the end of the input. */
  predicate Chained(s: Bytes, recs: seq<Record>) {
    recs == [] ||
    (Steps(s, recs[0].offset, recs[0].cid, FirstOffset(s, recs[1..])) && Chained(s, recs[1..]))
  }

  function FirstOffset(s: Bytes, recs: seq<Record>): nat {
    if recs == [] then |s| else recs[0].offset
  }

  /** The scan follows a chain of sections to the end of the input. */
  lemma {:induction false} ScanFollows(s: Bytes, recs: seq<Record>, zeroLenAsEOF: bool)
    requires Chained(s, recs)
    ensures ScanFrom(s, FirstOffset(s, recs), zeroLenAsEOF) == Scan(recs, |s|, true)
  {
    if recs == [] {
      ScanAtEnd(s, zeroLenAsEOF);
    } else {
      var next := FirstOffset(s, recs[1..]);
      ScanFollows(s, recs[1..], zeroLenAsEOF);
      ScanOne(s, recs[0].offset, recs[0].cid, next, zeroLenAsEOF);
      assert [recs[0]] + recs[1..] == recs;
    }
  }

  lemma {:induction false} RecordsChained(header: Bytes, log: seq<Block>, i: nat)
    requires AllStorable(log) && i <= |log|
    ensures Chained(Payload(header, log), Records(header, log)[i..])
    decreases |log| - i
  {
    if i < |log| {
      var s, recs := Payload(header, log), Records(header, log);
      RecordsChained(header, log, i + 1);
      RecordPointsAtSection(header, log, i);
      var next := SectionReadsInPlace(s, recs[i].offset, log[i]);
      assert recs[i..][1..] == recs[i + 1..];
    }
  }

  /** Scanning a payload after its header finds the whole log, in the order it was written. */
  lemma ScanFindsLog(header: Bytes, log: seq<Block>, zeroLenAsEOF: bool)
    requires AllStorable(log)
    ensures ScanFrom(Payload(header, log), |Ld(header)|, zeroLenAsEOF)
         == Scan(Records(header, log), |Payload(header, log)|, true)
  {
    FirstSectionFollowsHeader(header, log);
    RecordsChained(header, log, 0);
    assert Records(header, log)[0..] == Records(header, log);
    ScanFollows(Payload(header, log), Records(header, log), zeroLenAsEOF);
  }
}
