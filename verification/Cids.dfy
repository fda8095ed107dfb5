/**
 Content identifiers and their binary form (github.com/ipfs/go-cid).

 A version 0 CID is a bare SHA2-256 multihash, a version 1 CID is a version byte, a codec
 and a multihash.  The form is self-delimiting, which the CAR scans rely on.
 */
module Cids {
  import opened Words
  import opened Uvarint

  const SHA2_256: nat := 0x12
  const MAX_DIGEST: nat := 0x200_0000

  datatype Cid =
    | CidV0(digest: Bytes)
    | CidV1(codec: nat, mhType: nat, digest: Bytes)
  {
    predicate WellFormed() {
      if CidV0? then |digest| == 32
      else codec < INT64_LIMIT && mhType < INT64_LIMIT && |digest| <= MAX_DIGEST
    }

    /** `Cid.Bytes`. */
    function Encode(): (r: Bytes)
      ensures |r| >= 1
    {
      if CidV0? then [0x12, 0x20] + digest
      else [1] + (PutUvarint(codec) + Multihash(mhType, digest).Encode())
    }
  }

  /** `cid.CidFromReader`, and `cid.CidFromBytes` when started at position zero. */
  function ReadCid(s: Bytes, pos: nat): (r: Read<Cid>)
    ensures r.Got? ==> pos < r.next <= |s|
  {
    match ReadUvarint(s, pos)
    case Got(version, next) =>
      if version == SHA2_256 then
        if pos + 34 <= |s| && s[pos + 1] == 0x20 then Got(CidV0(s[pos + 2..pos + 34]), pos + 34) else Bad
      else if version == 1 then ReadV1(s, next)
      else Bad
    case _ => Bad
  }

  function ReadV1(s: Bytes, pos: nat): (r: Read<Cid>)
    ensures r.Got? ==> pos < r.next <= |s|
  {
    match ReadUvarint(s, pos)
    case Got(codec, atHash) =>
      (match ReadMultihash(s, atHash)
       case Got(mh, next) => Got(CidV1(codec, mh.mhType, mh.digest), next)
       case _ => Bad)
    case _ => Bad
  }

  datatype Multihash = Multihash(mhType: nat, digest: Bytes)
  {
    function Encode(): Bytes {
      PutUvarint(mhType) + (PutUvarint(|digest|) + digest)
    }
  }

  function ReadMultihash(s: Bytes, pos: nat): (r: Read<Multihash>)
    ensures r.Got? ==> pos < r.next <= |s|
  {
    match ReadUvarint(s, pos)
    case Got(mhType, atLength) =>
      (match ReadUvarint(s, atLength)
       case Got(length, atDigest) =>
         if length <= MAX_DIGEST && atDigest + length <= |s|
         then Got(Multihash(mhType, s[atDigest..atDigest + length]), atDigest + length)
         else Bad
       case _ => Bad)
    case _ => Bad
  }

  lemma MultihashFrom(s: Bytes, pos: nat, mh: Multihash, atLength: nat, atDigest: nat)
    requires ReadUvarint(s, pos) == Got(mh.mhType, atLength)
    requires ReadUvarint(s, atLength) == Got(|mh.digest|, atDigest)
    requires |mh.digest| <= MAX_DIGEST && At(s, atDigest, mh.digest)
    ensures ReadMultihash(s, pos) == Got(mh, atDigest + |mh.digest|)
  {}

  lemma ReadUndoesEncodeMultihash(s: Bytes, pos: nat, mh: Multihash)
    requires mh.mhType < INT64_LIMIT && |mh.digest| <= MAX_DIGEST && At(s, pos, mh.Encode())
    ensures ReadMultihash(s, pos) == Got(mh, pos + |mh.Encode()|)
  {
    var b, l := PutUvarint(mh.mhType), PutUvarint(|mh.digest|);
    var atLength, atDigest := pos + |b|, pos + |b| + |l|;
    AtThree(s, pos, b, l, mh.digest);
    assert ReadUvarint(s, pos) == Got(mh.mhType, atLength) by { ReadUndoesPut(s, pos, mh.mhType); }
    assert ReadUvarint(s, atLength) == Got(|mh.digest|, atDigest) by { ReadUndoesPut(s, atLength, |mh.digest|); }
    MultihashFrom(s, pos, mh, atLength, atDigest);
  }

  lemma ReadUndoesEncodeV1(s: Bytes, pos: nat, c: Cid)
    requires c.CidV1? && c.WellFormed()
    requires At(s, pos, PutUvarint(c.codec) + Multihash(c.mhType, c.digest).Encode())
    ensures ReadV1(s, pos) == Got(c, pos + |PutUvarint(c.codec)| + |Multihash(c.mhType, c.digest).Encode()|)
  {
    var mh := Multihash(c.mhType, c.digest);
    var atHash := pos + |PutUvarint(c.codec)|;
    AtParts(s, pos, PutUvarint(c.codec), mh.Encode());
    assert ReadUvarint(s, pos) == Got(c.codec, atHash) by { ReadUndoesPut(s, pos, c.codec); }
    assert ReadMultihash(s, atHash) == Got(mh, atHash + |mh.Encode()|) by { ReadUndoesEncodeMultihash(s, atHash, mh); }
  }

  lemma ReadV0(s: Bytes, pos: nat, digest: Bytes)
    requires |digest| == 32 && At(s, pos, [0x12, 0x20] + digest)
    ensures ReadCid(s, pos) == Got(CidV0(digest), pos + 34)
  {
    AtParts(s, pos, [0x12, 0x20], digest);
    AtFirst(s, pos, [0x12, 0x20]);
    assert s[pos + 1] == s[pos..pos + 2][1];
  }

  /** A CID is read back from its encoding, wherever it stands and whatever follows. */
  lemma ReadUndoesEncode(s: Bytes, pos: nat, c: Cid)
    requires c.WellFormed() && At(s, pos, c.Encode())
    ensures ReadCid(s, pos) == Got(c, pos + |c.Encode()|)
  {
    if c.CidV0? {
      ReadV0(s, pos, c.digest);
    } else {
      var rest := PutUvarint(c.codec) + Multihash(c.mhType, c.digest).Encode();
      AtParts(s, pos, [1], rest);
      AtFirst(s, pos, [1]);
      assert ReadUvarint(s, pos) == Got(1, pos + 1);
      ReadUndoesEncodeV1(s, pos + 1, c);
    }
  }

  /** Two CIDs with the same encoding are the same. */
  lemma EncodeInjective(c: Cid, c': Cid)
    requires c.WellFormed() && c'.WellFormed() && c.Encode() == c'.Encode()
    ensures c == c'
  {
    ReadUndoesEncode(c.Encode(), 0, c);
    ReadUndoesEncode(c.Encode(), 0, c');
  }
}
