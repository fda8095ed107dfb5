/**
 The CARv2 file around a payload: pragma, fixed-size header, padding, payload and index
 (stores/kvcarbs.go; CARv2 specification, "Header").  Finalizing writes the header and the
 index; resuming checks the file, cuts the index off, clears the header and rescans.
 */
module CarFile {
  import opened Words
  import opened Wrappers
  import opened Uvarint
  import opened CarFormat
  import opened CarIndex

  const PRAGMA: Bytes := [0x0a, 0xa1, 0x67, 0x76, 0x65, 0x72, 0x73, 0x69, 0x6f, 0x6e, 0x02]
  const PRAGMA_SIZE: nat := 11
  const HEADER_SIZE: nat := 40
  const CHARACTERISTICS_SIZE: nat := 16

  // ---------------------------------------------------------------- files

  function Zeros(n: nat): (r: Bytes)
    ensures |r| == n && forall i :: 0 <= i < n ==> r[i] == 0
  {
    seq(n, _ => 0)
  }

  /** `WriteAt`: overwrite from an offset, extending with zeros as needed. */
  function WriteAt(f: Bytes, b: Bytes, off: nat): (r: Bytes)
    ensures |r| == if off + |b| > |f| then off + |b| else |f|
    ensures At(r, off, b)
    ensures forall i :: 0 <= i < |r| && !(off <= i < off + |b|) ==> r[i] == if i < |f| then f[i] else 0
  {
    (if off <= |f| then f[..off] else f + Zeros(off - |f|)) + b +
    (if off + |b| <= |f| then f[off + |b|..] else [])
  }

  /** `Truncate`. */
  function Truncate(f: Bytes, n: nat): Bytes {
    if n <= |f| then f[..n] else f + Zeros(n - |f|)
  }

  /** The payload part of a file. */
  function From(f: Bytes, off: nat): Bytes {
    if off <= |f| then f[off..] else []
  }

  // ---------------------------------------------------------------- the header

  function LittleEndian(n: nat, k: nat): (r: Bytes)
    ensures |r| == k
  {
    if k == 0 then [] else [n % 256] + LittleEndian(n / 256, k - 1)
  }

  function Number(b: Bytes): nat {
    if b == [] then 0 else b[0] + 256 * Number(b[1..])
  }

  lemma {:induction false} NumberUndoesLittleEndian(n: nat, k: nat)
    requires n < Pow256(k)
    ensures Number(LittleEndian(n, k)) == n
  {
    if k > 0 {
      NumberUndoesLittleEndian(n / 256, k - 1);
      assert LittleEndian(n, k)[1..] == LittleEndian(n / 256, k - 1);
    }
  }

  /** The CARv2 header: characteristics, data offset, data size, index offset. */
  function HeaderBytes(characteristics: Bytes, dataOffset: nat, dataSize: nat, indexOffset: nat): (r: Bytes)
    requires |characteristics| == CHARACTERISTICS_SIZE
    ensures |r| == HEADER_SIZE
  {
    characteristics + LittleEndian(dataOffset, 8) + LittleEndian(dataSize, 8) + LittleEndian(indexOffset, 8)
  }

  /** The two fields of the header that resuming reads; a file too short for them reads as zero. */
  function DataOffsetIn(f: Bytes): nat {
    if |f| < PRAGMA_SIZE + HEADER_SIZE then 0 else Number(f[27..35])
  }

  function DataSizeIn(f: Bytes): nat {
    if |f| < PRAGMA_SIZE + HEADER_SIZE then 0 else Number(f[35..43])
  }

  lemma HeaderReadsBack(f: Bytes, characteristics: Bytes, dataOffset: nat, dataSize: nat, indexOffset: nat)
    requires |characteristics| == CHARACTERISTICS_SIZE && dataOffset < UINT64_SIZE && dataSize < UINT64_SIZE
    requires At(f, PRAGMA_SIZE, HeaderBytes(characteristics, dataOffset, dataSize, indexOffset))
    ensures DataOffsetIn(f) == dataOffset && DataSizeIn(f) == dataSize
  {
    var a, b, c := LittleEndian(dataOffset, 8), LittleEndian(dataSize, 8), LittleEndian(indexOffset, 8);
    AtParts(f, PRAGMA_SIZE, characteristics + a + b, c);
    AtParts(f, PRAGMA_SIZE, characteristics + a, b);
    AtParts(f, PRAGMA_SIZE, characteristics, a);
    assert At(f, 27, a) && At(f, 35, b);
    PowersOf256();
    NumberUndoesLittleEndian(dataOffset, 8);
    NumberUndoesLittleEndian(dataSize, 8);
  }

  lemma {:induction false} NumberOfZeros(b: Bytes)
    requires forall i :: 0 <= i < |b| ==> b[i] == 0
    ensures Number(b) == 0
  {
    if b != [] {
      NumberOfZeros(b[1..]);
    }
  }

  // ---------------------------------------------------------------- the two forms of a file

  /** Everything before the payload of an open file: the pragma and an empty header. */
  function Preamble(dataOffset: nat): (r: Bytes)
    requires dataOffset >= PRAGMA_SIZE + HEADER_SIZE
    ensures |r| == dataOffset
  {
    PRAGMA + Zeros(dataOffset - PRAGMA_SIZE)
  }

  /** The file of a store that is open, or was closed without finalizing. */
  function OpenFile(dataOffset: nat, payload: Bytes): Bytes
    requires dataOffset >= PRAGMA_SIZE + HEADER_SIZE
  {
    Preamble(dataOffset) + payload
  }

  /** The file of a finalized store: header filled in, payload in place, anything after it. */
  predicate FinalFile(f: Bytes, dataOffset: nat, payload: Bytes)
    requires dataOffset >= PRAGMA_SIZE + HEADER_SIZE
  {
    && At(f, 0, PRAGMA)
    && At(f, PRAGMA_SIZE + HEADER_SIZE, Zeros(dataOffset - PRAGMA_SIZE - HEADER_SIZE))
    && At(f, dataOffset, payload)
    && DataOffsetIn(f) == dataOffset && DataSizeIn(f) == |payload|
  }

  /** What `Finalize` leaves on disk for the given index. */
  function Finalized(f: Bytes, dataOffset: nat, dataSize: nat, characteristics: Bytes, index: Bytes, indexOffset: nat): Bytes
    requires |characteristics| == CHARACTERISTICS_SIZE
  {
    WriteAt(WriteAt(f, index, indexOffset), HeaderBytes(characteristics, dataOffset, dataSize, indexOffset), PRAGMA_SIZE)
  }

  /** Finalizing writes around the payload: every payload byte stays, and the file is a finalized one. */
  lemma FinalizeKeepsPayload(dataOffset: nat, payload: Bytes, characteristics: Bytes, index: Bytes, indexOffset: nat)
    requires dataOffset >= PRAGMA_SIZE + HEADER_SIZE && indexOffset >= dataOffset + |payload|
    requires |characteristics| == CHARACTERISTICS_SIZE && dataOffset < UINT64_SIZE && |payload| < UINT64_SIZE
    ensures var f := OpenFile(dataOffset, payload);
            FinalFile(Finalized(f, dataOffset, |payload|, characteristics, index, indexOffset), dataOffset, payload)
  {
    var f := OpenFile(dataOffset, payload);
    var f' := Finalized(f, dataOffset, |payload|, characteristics, index, indexOffset);
    HeaderReadsBack(f', characteristics, dataOffset, |payload|, indexOffset);
    UntouchedPart(f, f', 0, PRAGMA);
    UntouchedPart(f, f', PRAGMA_SIZE + HEADER_SIZE, Zeros(dataOffset - PRAGMA_SIZE - HEADER_SIZE));
    UntouchedPart(f, f', dataOffset, payload);
  }

  lemma UntouchedPart(f: Bytes, f': Bytes, pos: nat, x: Bytes)
    requires |f| <= |f'| && pos + |x| <= |f| && forall i :: pos <= i < pos + |x| ==> f'[i] == f[i]
    requires forall i :: 0 <= i < |x| ==> f[pos + i] == x[i]
    ensures At(f', pos, x)
  {
    assert f'[pos..pos + |x|] == x;
  }

  // ---------------------------------------------------------------- resuming

  datatype ResumeError =
    | NotCarV2 | MismatchedPadding | CorruptHeader | UnreadableHeader | MismatchedRoots | UnreadableSection

  datatype Resumed =
    | Failed(error: ResumeError)
    | Ready(file: Bytes, writeAt: nat, idx: seq<Record>)

  /** The checks `resumeWithRoots` makes before it changes the file. */
  function CheckResume(f: Bytes, dataOffset: nat, header: Bytes): Option<ResumeError> {
    if !At(f, 0, PRAGMA) then Some(NotCarV2)
    else if DataOffsetIn(f) != 0 && DataOffsetIn(f) != dataOffset then Some(MismatchedPadding)
    else if DataOffsetIn(f) != 0 && DataSizeIn(f) == 0 then Some(CorruptHeader)
    else match LdRead(From(f, dataOffset), 0, false)
      case Got(found, _) => if found == header then None else Some(MismatchedRoots)
      case _ => Some(UnreadableHeader)
  }

  /** The file with its index cut off and its CARv2 header cleared. */
  function Unfinalized(f: Bytes): Bytes {
    WriteAt(if DataOffsetIn(f) != 0 then Truncate(f, DataOffsetIn(f) + DataSizeIn(f)) else f,
            Zeros(HEADER_SIZE), PRAGMA_SIZE)
  }

  /** `resumeWithRoots`: check, unfinalize, rescan. */
  function Resume(f: Bytes, dataOffset: nat, header: Bytes, zeroLenAsEOF: bool): Resumed {
    match CheckResume(f, dataOffset, header)
    case Some(error) => Failed(error)
    case None =>
      var f' := Unfinalized(f);
      var scan := ScanFrom(From(f', dataOffset), |Ld(header)|, zeroLenAsEOF);
      if scan.clean then Ready(f', dataOffset + scan.end, BuildIndex(scan.records)) else Failed(UnreadableSection)
  }

  /** Unfinalizing gives back the open file, whichever form the file was in. */
  lemma UnfinalizeRestores(f: Bytes, dataOffset: nat, payload: Bytes)
    requires dataOffset >= PRAGMA_SIZE + HEADER_SIZE
    requires f == OpenFile(dataOffset, payload) || FinalFile(f, dataOffset, payload)
    ensures Unfinalized(f) == OpenFile(dataOffset, payload)
  {
    var open := OpenFile(dataOffset, payload);
    if f == open {
      OpenFileHasNoHeader(dataOffset, payload);
      assert Unfinalized(f) == f;
    } else {
      var cut := Truncate(f, dataOffset + |payload|);
      assert |cut| == |open|;
      FinalFileBytes(f, dataOffset, payload);
      assert Unfinalized(f) == WriteAt(cut, Zeros(HEADER_SIZE), PRAGMA_SIZE) == open;
    }
  }

  lemma OpenFileHasNoHeader(dataOffset: nat, payload: Bytes)
    requires dataOffset >= PRAGMA_SIZE + HEADER_SIZE
    ensures DataOffsetIn(OpenFile(dataOffset, payload)) == 0 && DataSizeIn(OpenFile(dataOffset, payload)) == 0
    ensures At(OpenFile(dataOffset, payload), 0, PRAGMA)
  {
    var f := OpenFile(dataOffset, payload);
    NumberOfZeros(f[27..35]);
    NumberOfZeros(f[35..43]);
  }

  /** Outside the header, a finalized file agrees with the open file up to the end of the payload. */
  lemma FinalFileBytes(f: Bytes, dataOffset: nat, payload: Bytes)
    requires dataOffset >= PRAGMA_SIZE + HEADER_SIZE && FinalFile(f, dataOffset, payload)
    ensures dataOffset + |payload| <= |f|
    ensures forall i :: 0 <= i < dataOffset + |payload| && !(PRAGMA_SIZE <= i < PRAGMA_SIZE + HEADER_SIZE) ==>
              f[i] == OpenFile(dataOffset, payload)[i]
  {
    var open := OpenFile(dataOffset, payload);
    forall i | 0 <= i < dataOffset + |payload| && !(PRAGMA_SIZE <= i < PRAGMA_SIZE + HEADER_SIZE)
      ensures f[i] == open[i]
    {
      if i < PRAGMA_SIZE {
        AtIndex(f, 0, PRAGMA, i);
      } else if i < dataOffset {
        AtIndex(f, PRAGMA_SIZE + HEADER_SIZE, Zeros(dataOffset - PRAGMA_SIZE - HEADER_SIZE), i - PRAGMA_SIZE - HEADER_SIZE);
      } else {
        AtIndex(f, dataOffset, payload, i - dataOffset);
      }
    }
  }

  lemma AtIndex(s: Bytes, pos: nat, x: Bytes, i: nat)
    requires At(s, pos, x) && i < |x|
    ensures s[pos + i] == x[i]
  {
    assert s[pos..pos + |x|][i] == s[pos + i];
  }

  /** A file of either form has the payload in place. */
  lemma PayloadInPlace(f: Bytes, dataOffset: nat, payload: Bytes)
    requires dataOffset >= PRAGMA_SIZE + HEADER_SIZE
    requires f == OpenFile(dataOffset, payload) || FinalFile(f, dataOffset, payload)
    ensures At(f, dataOffset, payload) && At(f, 0, PRAGMA)
    ensures DataOffsetIn(f) != 0 ==> DataOffsetIn(f) == dataOffset && DataSizeIn(f) == |payload|
  {
    if f == OpenFile(dataOffset, payload) {
      OpenFileHasNoHeader(dataOffset, payload);
      OpenFilePayload(dataOffset, payload);
    }
  }

  /** A section at the start of the payload is read from the file. */
  lemma HeaderSectionFound(f: Bytes, dataOffset: nat, payload: Bytes, header: Bytes)
    requires At(f, dataOffset, payload) && At(payload, 0, Ld(header)) && header != [] && |header| < LIMIT56
    ensures LdRead(From(f, dataOffset), 0, false).Got? && LdRead(From(f, dataOffset), 0, false).value == header
  {
    assert From(f, dataOffset)[0..|Ld(header)|] == payload[0..|Ld(header)|] by {
      assert f[dataOffset..dataOffset + |payload|] == payload;
      assert From(f, dataOffset)[0..|Ld(header)|] == f[dataOffset..dataOffset + |payload|][0..|Ld(header)|];
    }
    LdReadUndoesWrite(From(f, dataOffset), 0, header, false);
  }

  lemma CheckPasses(f: Bytes, dataOffset: nat, payload: Bytes, header: Bytes)
    requires dataOffset >= PRAGMA_SIZE + HEADER_SIZE && At(payload, 0, Ld(header)) && header != [] && |header| < LIMIT56
    requires f == OpenFile(dataOffset, payload) || FinalFile(f, dataOffset, payload)
    ensures CheckResume(f, dataOffset, header) == None
  {
    PayloadInPlace(f, dataOffset, payload);
    HeaderSectionFound(f, dataOffset, payload, header);
  }

  /** Resuming any file whose payload starts with the header and scans cleanly. */
  lemma ResumeScans(f: Bytes, dataOffset: nat, payload: Bytes, header: Bytes, recs: seq<Record>, zeroLenAsEOF: bool)
    requires dataOffset >= PRAGMA_SIZE + HEADER_SIZE && At(payload, 0, Ld(header)) && header != [] && |header| < LIMIT56
    requires f == OpenFile(dataOffset, payload) || FinalFile(f, dataOffset, payload)
    requires ScanFrom(payload, |Ld(header)|, zeroLenAsEOF) == Scan(recs, |payload|, true)
    ensures var open := OpenFile(dataOffset, payload);
            Resume(f, dataOffset, header, zeroLenAsEOF) == Ready(open, |open|, BuildIndex(recs))
  {
    CheckPasses(f, dataOffset, payload, header);
    UnfinalizeRestores(f, dataOffset, payload);
    OpenFilePayload(dataOffset, payload);
    ReadyFrom(f, dataOffset, header, zeroLenAsEOF, OpenFile(dataOffset, payload), Scan(recs, |payload|, true));
  }

  /**
   Resume rebuilds the store: from the file of any log, open or finalized, it recovers the
   open file, the writer position at its end and the index of exactly the log's records.
   */
  lemma ResumeRestores(f: Bytes, dataOffset: nat, header: Bytes, log: seq<Block>, zeroLenAsEOF: bool)
    requires dataOffset >= PRAGMA_SIZE + HEADER_SIZE && header != [] && |header| < LIMIT56 && AllStorable(log)
    requires var payload := Payload(header, log);
             f == OpenFile(dataOffset, payload) || FinalFile(f, dataOffset, payload)
    ensures var open := OpenFile(dataOffset, Payload(header, log));
            Resume(f, dataOffset, header, zeroLenAsEOF) == Ready(open, |open|, BuildIndex(Records(header, log)))
  {
    FirstSectionFollowsHeader(header, log);
    ScanFindsLog(header, log, zeroLenAsEOF);
    ResumeScans(f, dataOffset, Payload(header, log), header, Records(header, log), zeroLenAsEOF);
  }

  lemma OpenFilePayload(dataOffset: nat, payload: Bytes)
    requires dataOffset >= PRAGMA_SIZE + HEADER_SIZE
    ensures From(OpenFile(dataOffset, payload), dataOffset) == payload
    ensures At(OpenFile(dataOffset, payload), dataOffset, payload)
  {}

  lemma ReadyFrom(f: Bytes, dataOffset: nat, header: Bytes, zeroLenAsEOF: bool, f': Bytes, scan: Scan)
    requires CheckResume(f, dataOffset, header) == None && Unfinalized(f) == f'
    requires ScanFrom(From(f', dataOffset), |Ld(header)|, zeroLenAsEOF) == scan && scan.clean
    ensures Resume(f, dataOffset, header, zeroLenAsEOF) ==
            Ready(f', dataOffset + scan.end, BuildIndex(scan.records))
  {}
}
