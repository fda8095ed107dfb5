/**
 The block-location stream a storage client writes while building a CAR
 (storagemarket/impl/blockrecorder): CBOR records, one per block (section 3 of RFC 8949 for
 the heads), written one after the other and read back until the stream ends.
 */
module BlockMetadata {
  import opened Words
  import opened Wrappers
  import opened Uvarint
  import opened Cids
  import opened CarFormat
  import opened RecordStreams

  const UNSIGNED: nat := 0
  const BYTE_STRING: nat := 2
  const ARRAY: nat := 4
  const TAG: nat := 6
  const CID_TAG: nat := 42

  /** Longest byte string the reader accepts for a CID: a zero byte and the CID. */
  const MAX_CID_FIELD: nat := 512

  /** `PieceBlockMetadata`: where a block's data lies in a piece. */
  datatype Metadata = Metadata(cid: Cid, offset: nat, size: nat)
  {
    /** The numbers fit 64 bits and the CID fits the reader's limit. */
    predicate Fits() {
      cid.WellFormed() && |cid.Encode()| + 1 <= MAX_CID_FIELD && offset < UINT64_SIZE && size < UINT64_SIZE
    }
  }

  // ---------------------------------------------------------------- heads

  function BigEndian(n: nat, k: nat): (r: Bytes)
    ensures |r| == k
  {
    if k == 0 then [] else BigEndian(n / 256, k - 1) + [n % 256]
  }

  function Number(b: Bytes): nat {
    if b == [] then 0 else Number(b[..|b| - 1]) * 256 + b[|b| - 1]
  }

  lemma {:induction false} NumberUndoesBigEndian(n: nat, k: nat)
    requires n < Pow256(k)
    ensures Number(BigEndian(n, k)) == n
  {
    if k > 0 {
      NumberUndoesBigEndian(n / 256, k - 1);
      var b := BigEndian(n, k);
      assert b[..|b| - 1] == BigEndian(n / 256, k - 1);
    }
  }

  /** How many bytes follow the first byte of a head for a value. */
  function Width(value: nat): nat {
    if value < 24 then 0
    else if value < 0x100 then 1
    else if value < 0x1_0000 then 2
    else if value < 0x1_0000_0000 then 4
    else 8
  }

  /** The low five bits that announce a width, and the least value that needs that width. */
  function Announced(width: nat): nat {
    if width == 1 then 24 else if width == 2 then 25 else if width == 4 then 26 else 27
  }

  function Least(width: nat): nat {
    if width == 1 then 24 else if width == 2 then 0x100 else if width == 4 then 0x1_0000 else 0x1_0000_0000
  }

  /** `WriteMajorTypeHeader`. */
  function Head(major: nat, value: nat): (r: Bytes)
    requires major < 8
    ensures |r| == 1 + Width(value)
  {
    if value < 24 then [major * 32 + value]
    else [major * 32 + Announced(Width(value))] + BigEndian(value, Width(value))
  }

  datatype MajorValue = MajorValue(major: nat, value: nat)

  /** `ReadHeader`: end of input before the first byte is clean, values must use the shortest form. */
  function ReadHead(s: Bytes, pos: nat): (r: Read<MajorValue>)
    ensures r.Got? ==> pos < r.next <= |s|
    ensures r.Eof? <==> pos >= |s|
  {
    if pos >= |s| then Eof
    else
      var major, low := s[pos] / 32, s[pos] % 32;
      if low < 24 then Got(MajorValue(major, low), pos + 1)
      else if low == 24 then ReadWide(s, pos + 1, major, 1)
      else if low == 25 then ReadWide(s, pos + 1, major, 2)
      else if low == 26 then ReadWide(s, pos + 1, major, 4)
      else if low == 27 then ReadWide(s, pos + 1, major, 8)
      else Bad
  }

  function ReadWide(s: Bytes, pos: nat, major: nat, width: nat): (r: Read<MajorValue>)
    ensures r.Got? ==> r.next == pos + width <= |s|
    ensures !r.Eof?
  {
    if pos + width > |s| then Bad
    else
      var value := Number(s[pos..pos + width]);
      if value < Least(width) then Bad else Got(MajorValue(major, value), pos + width)
  }

  lemma WidthFits(value: nat)
    requires value < UINT64_SIZE
    ensures value >= 24 ==> value < Pow256(Width(value)) && value >= Least(Width(value))
  {
    PowersOf256();
  }

  /** A head reads back as the value written, and only its own bytes are consumed. */
  lemma HeadReadsBack(s: Bytes, pos: nat, major: nat, value: nat)
    requires major < 8 && value < UINT64_SIZE && At(s, pos, Head(major, value))
    ensures ReadHead(s, pos) == Got(MajorValue(major, value), pos + |Head(major, value)|)
  {
    AtFirst(s, pos, Head(major, value));
    if value >= 24 {
      var width := Width(value);
      AtParts(s, pos, [major * 32 + Announced(width)], BigEndian(value, width));
      WidthFits(value);
      NumberUndoesBigEndian(value, width);
      WideReadsBack(s, pos + 1, major, value, width);
      FirstByteSplits(major, Announced(width));
    }
  }

  lemma FirstByteSplits(major: nat, low: nat)
    requires low < 32
    ensures (major * 32 + low) / 32 == major && (major * 32 + low) % 32 == low
  {}

  lemma WideReadsBack(s: Bytes, pos: nat, major: nat, value: nat, width: nat)
    requires At(s, pos, BigEndian(value, width)) && Number(BigEndian(value, width)) == value >= Least(width)
    ensures ReadWide(s, pos, major, width) == Got(MajorValue(major, value), pos + width)
  {}

  // ---------------------------------------------------------------- records

  /** The CID field: tag 42, then a byte string of a zero byte and the CID. */
  function CidField(c: Cid): Bytes {
    Head(TAG, CID_TAG) + (Head(BYTE_STRING, |[0] + c.Encode()|) + ([0] + c.Encode()))
  }

  /** `MarshalCBOR`: an array of three. */
  function Marshal(m: Metadata): (r: Bytes)
    ensures |r| > 0
  {
    Head(ARRAY, 3) + (CidField(m.cid) + (Head(UNSIGNED, m.offset) + Head(UNSIGNED, m.size)))
  }

  /** `ReadCid` of the CBOR library. */
  function ReadCidField(s: Bytes, pos: nat): (r: Read<Cid>)
    ensures r.Got? ==> pos < r.next <= |s|
  {
    var tag := ReadHead(s, pos);
    if tag.Got? && tag.value == MajorValue(TAG, CID_TAG) then ReadCidBytes(s, ReadHead(s, tag.next))
    else Bad
  }

  /** The byte string that a head announces, taken as a CID. */
  function ReadCidBytes(s: Bytes, str: Read<MajorValue>): (r: Read<Cid>)
    ensures r.Got? ==> str.Got? && str.next <= r.next <= |s|
  {
    var buf := TakeString(s, str);
    if buf.Got? then CastCid(buf.value, buf.next) else Bad
  }

  function TakeString(s: Bytes, str: Read<MajorValue>): (r: Read<Bytes>)
    ensures r.Got? ==> str.Got? && str.next <= r.next <= |s|
  {
    if str.Got? && str.value.major == BYTE_STRING && str.value.value <= MAX_CID_FIELD &&
       str.next + str.value.value <= |s|
    then Got(s[str.next..str.next + str.value.value], str.next + str.value.value)
    else Bad
  }

  /** A zero byte followed by exactly one CID. */
  function CastCid(buf: Bytes, next: nat): Read<Cid> {
    if |buf| < 2 || buf[0] != 0 then Bad
    else match ReadCid(buf, 1)
      case Got(c, end) => if end == |buf| then Got(c, next) else Bad
      case _ => Bad
  }

  /** An unsigned field. */
  function ReadNumber(s: Bytes, pos: nat): (r: Read<nat>)
    ensures r.Got? ==> pos < r.next <= |s|
  {
    match ReadHead(s, pos)
    case Got(mv, next) => if mv.major == UNSIGNED then Got(mv.value, next) else Bad
    case _ => Bad
  }

  /** `UnmarshalCBOR`: only an end of input before the record is a clean end. */
  function Unmarshal(s: Bytes, pos: nat): (r: Read<Metadata>)
    ensures r.Got? ==> pos < r.next <= |s|
    ensures r.Eof? <==> pos >= |s|
  {
    match ReadHead(s, pos)
    case Eof => Eof
    case Bad => Bad
    case Got(mv, atCid) => if mv == MajorValue(ARRAY, 3) then ReadFields(s, atCid) else Bad
  }

  function ReadFields(s: Bytes, pos: nat): (r: Read<Metadata>)
    ensures r.Got? ==> pos < r.next <= |s|
    ensures !r.Eof?
  {
    match ReadCidField(s, pos)
    case Got(c, atOffset) =>
      (match ReadNumber(s, atOffset)
       case Got(offset, atSize) =>
         (match ReadNumber(s, atSize)
          case Got(size, next) => Got(Metadata(c, offset, size), next)
          case _ => Bad)
       case _ => Bad)
    case _ => Bad
  }

  lemma CidFieldReadsBack(s: Bytes, pos: nat, c: Cid)
    requires c.WellFormed() && |c.Encode()| + 1 <= MAX_CID_FIELD && At(s, pos, CidField(c))
    ensures ReadCidField(s, pos) == Got(c, pos + |CidField(c)|)
  {
    var buf := [0] + c.Encode();
    var tag, str := Head(TAG, CID_TAG), Head(BYTE_STRING, |buf|);
    var atStr, atBuf := pos + |tag|, pos + |tag| + |str|;
    AtThree(s, pos, tag, str, buf);
    assert ReadHead(s, pos) == Got(MajorValue(TAG, CID_TAG), atStr) by { HeadReadsBack(s, pos, TAG, CID_TAG); }
    assert ReadHead(s, atStr) == Got(MajorValue(BYTE_STRING, |buf|), atBuf) by {
      HeadReadsBack(s, atStr, BYTE_STRING, |buf|);
    }
    CidBytesReadBack(s, atBuf, c, buf);
  }

  lemma CidBytesReadBack(s: Bytes, pos: nat, c: Cid, buf: Bytes)
    requires c.WellFormed() && buf == [0] + c.Encode() && |buf| <= MAX_CID_FIELD && At(s, pos, buf)
    ensures ReadCidBytes(s, Got(MajorValue(BYTE_STRING, |buf|), pos)) == Got(c, pos + |buf|)
  {
    CastReadsBack(c, pos + |buf|);
    StringReadsBack(s, pos, buf);
  }

  lemma StringReadsBack(s: Bytes, pos: nat, buf: Bytes)
    requires |buf| <= MAX_CID_FIELD && At(s, pos, buf)
    ensures TakeString(s, Got(MajorValue(BYTE_STRING, |buf|), pos)) == Got(buf, pos + |buf|)
  {}

  lemma CastReadsBack(c: Cid, next: nat)
    requires c.WellFormed()
    ensures CastCid([0] + c.Encode(), next) == Got(c, next)
  {
    var buf := [0] + c.Encode();
    AtMiddle([0], c.Encode(), []);
    assert [0] + c.Encode() + [] == buf;
    ReadUndoesEncode(buf, 1, c);
  }

  lemma NumberReadsBack(s: Bytes, pos: nat, n: nat)
    requires n < UINT64_SIZE && At(s, pos, Head(UNSIGNED, n))
    ensures ReadNumber(s, pos) == Got(n, pos + |Head(UNSIGNED, n)|)
  {
    HeadReadsBack(s, pos, UNSIGNED, n);
  }

  /** A record reads back, whatever follows it. */
  lemma RecordReadsBack(s: Bytes, pos: nat, m: Metadata)
    requires m.Fits() && At(s, pos, Marshal(m))
    ensures Unmarshal(s, pos) == Got(m, pos + |Marshal(m)|)
  {
    var head, field := Head(ARRAY, 3), CidField(m.cid);
    var numbers := Head(UNSIGNED, m.offset) + Head(UNSIGNED, m.size);
    AtParts(s, pos, head, field + numbers);
    var atCid, end := pos + |head|, pos + |head| + |field + numbers|;
    assert end == pos + |Marshal(m)|;
    assert Unmarshal(s, pos) == ReadFields(s, atCid) by {
      HeadReadsBack(s, pos, ARRAY, 3);
      RecordFrom(s, pos, atCid);
    }
    assert ReadFields(s, atCid) == Got(m, end) by { BodyReadsBack(s, atCid, m, field, numbers); }
  }

  lemma BodyReadsBack(s: Bytes, pos: nat, m: Metadata, field: Bytes, numbers: Bytes)
    requires m.Fits() && field == CidField(m.cid) && numbers == Head(UNSIGNED, m.offset) + Head(UNSIGNED, m.size)
    requires At(s, pos, field + numbers)
    ensures ReadFields(s, pos) == Got(m, pos + |field + numbers|)
  {
    AtParts(s, pos, field, numbers);
    CidFieldReadsBack(s, pos, m.cid);
    FieldsReadBack(s, pos, pos + |field|, m, numbers);
  }

  lemma FieldsReadBack(s: Bytes, atCid: nat, atOffset: nat, m: Metadata, numbers: Bytes)
    requires m.offset < UINT64_SIZE && m.size < UINT64_SIZE
    requires numbers == Head(UNSIGNED, m.offset) + Head(UNSIGNED, m.size) && At(s, atOffset, numbers)
    requires ReadCidField(s, atCid) == Got(m.cid, atOffset)
    ensures ReadFields(s, atCid) == Got(m, atOffset + |numbers|)
  {
    var atSize := NumbersReadBack(s, atOffset, m.offset, m.size, numbers);
    FieldsFrom(s, atCid, atOffset, atSize, atOffset + |numbers|, m);
  }

  lemma NumbersReadBack(s: Bytes, pos: nat, a: nat, b: nat, numbers: Bytes) returns (mid: nat)
    requires a < UINT64_SIZE && b < UINT64_SIZE && numbers == Head(UNSIGNED, a) + Head(UNSIGNED, b) && At(s, pos, numbers)
    ensures ReadNumber(s, pos) == Got(a, mid) && ReadNumber(s, mid) == Got(b, pos + |numbers|)
  {
    mid := pos + |Head(UNSIGNED, a)|;
    AtParts(s, pos, Head(UNSIGNED, a), Head(UNSIGNED, b));
    NumberReadsBack(s, pos, a);
    NumberReadsBack(s, mid, b);
  }

  lemma RecordFrom(s: Bytes, pos: nat, atCid: nat)
    requires ReadHead(s, pos) == Got(MajorValue(ARRAY, 3), atCid)
    ensures Unmarshal(s, pos) == ReadFields(s, atCid)
  {}

  /** The fields are read one after the other. */
  lemma FieldsFrom(s: Bytes, atCid: nat, atOffset: nat, atSize: nat, end: nat, m: Metadata)
    requires ReadCidField(s, atCid) == Got(m.cid, atOffset)
    requires ReadNumber(s, atOffset) == Got(m.offset, atSize)
    requires ReadNumber(s, atSize) == Got(m.size, end)
    ensures ReadFields(s, atCid) == Got(m, end)
  {}

  // ---------------------------------------------------------------- reads do not look ahead

  lemma HeadStable(s: Bytes, t: Bytes, pos: nat)
    requires ReadHead(s, pos).Got?
    ensures ReadHead(s + t, pos) == ReadHead(s, pos)
  {
    var r := ReadHead(s, pos);
    assert (s + t)[pos] == s[pos];
    assert (s + t)[pos + 1..r.next] == s[pos + 1..r.next];
  }

  lemma CidFieldStable(s: Bytes, t: Bytes, pos: nat)
    requires ReadCidField(s, pos).Got?
    ensures ReadCidField(s + t, pos) == ReadCidField(s, pos)
  {
    var atStr := ReadHead(s, pos).next;
    HeadStable(s, t, pos);
    HeadStable(s, t, atStr);
    CidBytesStable(s, t, ReadHead(s, atStr));
  }

  lemma CidBytesStable(s: Bytes, t: Bytes, str: Read<MajorValue>)
    requires ReadCidBytes(s, str).Got?
    ensures ReadCidBytes(s + t, str) == ReadCidBytes(s, str)
  {
    StringStable(s, t, str);
  }

  lemma StringStable(s: Bytes, t: Bytes, str: Read<MajorValue>)
    requires TakeString(s, str).Got?
    ensures TakeString(s + t, str) == TakeString(s, str)
  {
    var end := str.next + str.value.value;
    assert (s + t)[str.next..end] == s[str.next..end];
  }

  lemma NumberStable(s: Bytes, t: Bytes, pos: nat)
    requires ReadNumber(s, pos).Got?
    ensures ReadNumber(s + t, pos) == ReadNumber(s, pos)
  {
    HeadStable(s, t, pos);
  }

  /** What was read from a stream is read from any longer stream. */
  lemma UnmarshalStable(s: Bytes, t: Bytes, pos: nat)
    requires Unmarshal(s, pos).Got?
    ensures Unmarshal(s + t, pos) == Unmarshal(s, pos)
  {
    var atCid := ReadHead(s, pos).next;
    HeadStable(s, t, pos);
    RecordFrom(s + t, pos, atCid);
    FieldsStable(s, t, atCid);
  }

  lemma FieldsStable(s: Bytes, t: Bytes, pos: nat)
    requires ReadFields(s, pos).Got?
    ensures ReadFields(s + t, pos) == ReadFields(s, pos)
  {
    var m, end := ReadFields(s, pos).value, ReadFields(s, pos).next;
    var atOffset := ReadCidField(s, pos).next;
    var atSize := ReadNumber(s, atOffset).next;
    CidFieldStable(s, t, pos);
    NumberStable(s, t, atOffset);
    NumberStable(s, t, atSize);
    FieldsFrom(s + t, pos, atOffset, atSize, end, m);
  }

  // ---------------------------------------------------------------- streams

  function MetadataCodec(): Codec<Metadata> {
    Codec(Marshal, Unmarshal)
  }

  lemma RecordsLawful()
    ensures MetadataCodec().Advances() && MetadataCodec().Stable()
  {
    forall s, t, pos: nat | Unmarshal(s, pos).Got?
      ensures Unmarshal(s + t, pos) == Unmarshal(s, pos)
    {
      UnmarshalStable(s, t, pos);
    }
  }

  predicate AllFit(ms: seq<Metadata>) {
    forall i :: 0 <= i < |ms| ==> ms[i].Fits()
  }

  lemma FittingReadBack(ms: seq<Metadata>)
    requires AllFit(ms)
    ensures MetadataCodec().AllReadBack(ms)
  {
    forall i | 0 <= i < |ms|
      ensures MetadataCodec().ReadsBack(ms[i])
    {
      FitReadsBack(ms[i]);
    }
  }

  lemma FitReadsBack(m: Metadata)
    requires m.Fits()
    ensures MetadataCodec().ReadsBack(m)
  {
    forall s, pos: nat | At(s, pos, Marshal(m))
      ensures Unmarshal(s, pos) == Got(m, pos + |Marshal(m)|)
    {
      RecordReadsBack(s, pos, m);
    }
  }

  /** `ReadBlockMetadata`: every record of the stream, or an error. */
  method ReadBlockMetadata(input: Bytes) returns (metadatas: Option<seq<Metadata>>)
    ensures MetadataCodec().Advances() && metadatas == MetadataCodec().GetAll(input, 0)
  {
    RecordsLawful();
    metadatas := ReadAll(MetadataCodec(), input);
  }

  /** Every recorded sequence is read back exactly. */
  lemma RecordsRoundTrip(ms: seq<Metadata>)
    requires AllFit(ms)
    ensures MetadataCodec().Advances() && MetadataCodec().GetAll(MetadataCodec().PutAll(ms), 0) == Some(ms)
  {
    RecordsLawful();
    FittingReadBack(ms);
    MetadataCodec().RoundTrip(ms);
  }

  /**
   A stream cut after `n` bytes reads as the first `k` records when those fill exactly `n`
   bytes, and as an error when no number of records does.
   */
  lemma CutRecordsDetected(ms: seq<Metadata>, n: nat)
    requires AllFit(ms) && n <= |MetadataCodec().PutAll(ms)|
    ensures MetadataCodec().Advances()
    ensures forall k :: 0 <= k <= |ms| && |MetadataCodec().PutAll(ms[..k])| == n ==>
              MetadataCodec().GetAll(MetadataCodec().PutAll(ms)[..n], 0) == Some(ms[..k])
    ensures (forall k :: 0 <= k <= |ms| ==> |MetadataCodec().PutAll(ms[..k])| != n) ==>
              MetadataCodec().GetAll(MetadataCodec().PutAll(ms)[..n], 0) == None
  {
    RecordsLawful();
    FittingReadBack(ms);
    MetadataCodec().TruncationDetected(ms, n);
  }

  // ---------------------------------------------------------------- recording

  /** What the CAR writer reports for a block: its section's position and size, and its data. */
  datatype Written = Written(cid: Cid, offset: nat, size: nat, data: Bytes)

  /** The location of the data: the last bytes of the section, in 64-bit arithmetic. */
  function Locate(w: Written): Metadata {
    Metadata(w.cid, (w.offset + w.size - |w.data|) % UINT64_SIZE, |w.data| % UINT64_SIZE)
  }

  /** The recorded location is where the data lies in the CAR. */
  lemma LocatesData(car: Bytes, pos: nat, b: Block)
    requires At(car, pos, b.Section()) && |car| < UINT64_SIZE
    ensures var m := Locate(Written(b.cid, pos, |b.Section()|, b.data));
            m.offset + m.size <= |car| && car[m.offset..m.offset + m.size] == b.data
  {
    var front := PutUvarint(|b.Body()|) + b.cid.Encode();
    assert b.Section() == front + b.data;
    DataIsLast(car, pos, b.Section(), front, b.data, Locate(Written(b.cid, pos, |b.Section()|, b.data)));
  }

  lemma DataIsLast(car: Bytes, pos: nat, section: Bytes, front: Bytes, data: Bytes, m: Metadata)
    requires At(car, pos, section) && section == front + data && |car| < UINT64_SIZE
    requires m.offset == (pos + |section| - |data|) % UINT64_SIZE && m.size == |data| % UINT64_SIZE
    ensures m.offset + m.size <= |car| && car[m.offset..m.offset + m.size] == data
  {
    AtParts(car, pos, front, data);
    assert pos + |section| - |data| == pos + |front|;
    assert m.offset == pos + |front| && m.size == |data|;
  }

  /** `RecordEachBlockTo`: a writer to which every block's location is appended. */
  class Recorder {
    var out: Bytes
    ghost var recorded: seq<Metadata>

    ghost predicate Valid()
      reads this
    {
      out == MetadataCodec().PutAll(recorded)
    }

    constructor ()
      ensures Valid() && recorded == []
    {
      out, recorded := [], [];
    }

    method OnNewCarBlock(w: Written)
      requires Valid()
      modifies this
      ensures Valid() && recorded == old(recorded) + [Locate(w)]
    {
      MetadataCodec().PutAllAppend(recorded, Locate(w));
      out := out + Marshal(Locate(w));
      recorded := recorded + [Locate(w)];
    }
  }
}
