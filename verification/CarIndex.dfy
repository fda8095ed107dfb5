/**
 The in-memory insertion index (stores/kvcarbs.go): records in digest order, duplicates
 allowed.  The balanced tree behind it is represented by its in-order sequence; inserting
 without replacement puts a record after every record of the same digest.
 */
module CarIndex {
  import opened Wrappers
  import opened Uvarint
  import opened Cids
  import opened CarFormat

  // ---------------------------------------------------------------- digest order

  /** `bytes.Compare(a, b) < 0`. */
  predicate Less(a: Bytes, b: Bytes) {
    b != [] && (a == [] || a[0] < b[0] || (a[0] == b[0] && Less(a[1..], b[1..])))
  }

  lemma {:induction false} LessTransitive(a: Bytes, b: Bytes, c: Bytes)
    requires Less(a, b) && Less(b, c)
    ensures Less(a, c)
  {
    if a != [] && a[0] == b[0] == c[0] {
      LessTransitive(a[1..], b[1..], c[1..]);
    }
  }

  lemma {:induction false} LessIrreflexive(a: Bytes)
    ensures !Less(a, a)
  {
    if a != [] {
      LessIrreflexive(a[1..]);
    }
  }

  lemma {:induction false} LessTotal(a: Bytes, b: Bytes)
    ensures Less(a, b) || Less(b, a) || a == b
  {
    if a != [] && b != [] && a[0] == b[0] {
      LessTotal(a[1..], b[1..]);
      assert a == [a[0]] + a[1..];
      assert b == [b[0]] + b[1..];
    }
  }

  /** If `a` is below `b` and `c` is not below `b`, then `a` is below `c`. */
  lemma BelowNotBelow(a: Bytes, b: Bytes, c: Bytes)
    requires Less(a, b) && !Less(c, b)
    ensures Less(a, c)
  {
    LessTotal(b, c);
    if b != c {
      LessTransitive(a, b, c);
    }
  }

  // ---------------------------------------------------------------- the index

  /** In-order: no record is below an earlier one. */
  predicate Sorted(idx: seq<Record>) {
    forall i, j :: 0 <= i < j < |idx| ==> !Less(idx[j].cid.digest, idx[i].cid.digest)
  }

  /** `insertNoReplace`. */
  function Insert(idx: seq<Record>, r: Record): (idx': seq<Record>)
    ensures |idx'| == |idx| + 1
  {
    if idx == [] || Less(r.cid.digest, idx[0].cid.digest) then [r] + idx
    else [idx[0]] + Insert(idx[1..], r)
  }

  /** The index after inserting records one by one. */
  function BuildIndex(recs: seq<Record>): (idx: seq<Record>)
    ensures |idx| == |recs|
  {
    if recs == [] then [] else Insert(BuildIndex(recs[..|recs| - 1]), recs[|recs| - 1])
  }

  lemma {:induction false} InsertKeepsRecords(idx: seq<Record>, r: Record)
    ensures multiset(Insert(idx, r)) == multiset(idx) + multiset{r}
  {
    if !(idx == [] || Less(r.cid.digest, idx[0].cid.digest)) {
      InsertKeepsRecords(idx[1..], r);
      assert idx == [idx[0]] + idx[1..];
    }
  }

  lemma {:induction false} InsertKeepsSorted(idx: seq<Record>, r: Record)
    requires Sorted(idx)
    ensures Sorted(Insert(idx, r))
  {
    var idx' := Insert(idx, r);
    if idx == [] {
    } else if Less(r.cid.digest, idx[0].cid.digest) {
      forall i, j | 0 <= i < j < |idx'|
        ensures !Less(idx'[j].cid.digest, idx'[i].cid.digest)
      {
        if i == 0 {
          HeadStaysFirst(idx, r, j - 1);
        }
      }
    } else {
      var rest := Insert(idx[1..], r);
      InsertKeepsSorted(idx[1..], r);
      InsertKeepsRecords(idx[1..], r);
      forall j | 0 <= j < |rest|
        ensures !Less(rest[j].cid.digest, idx[0].cid.digest)
      {
        assert rest[j] in multiset(rest);
        assert rest[j] == r || rest[j] in idx[1..];
      }
    }
  }

  lemma HeadStaysFirst(idx: seq<Record>, r: Record, j: nat)
    requires Sorted(idx) && j < |idx| && Less(r.cid.digest, idx[0].cid.digest)
    ensures !Less(idx[j].cid.digest, r.cid.digest)
  {
    if Less(idx[j].cid.digest, r.cid.digest) {
      LessTransitive(idx[j].cid.digest, r.cid.digest, idx[0].cid.digest);
      LessIrreflexive(idx[0].cid.digest);
    }
  }

  lemma {:induction false} BuildIndexSorted(recs: seq<Record>)
    ensures Sorted(BuildIndex(recs))
  {
    if recs != [] {
      BuildIndexSorted(recs[..|recs| - 1]);
      InsertKeepsSorted(BuildIndex(recs[..|recs| - 1]), recs[|recs| - 1]);
    }
  }

  // ---------------------------------------------------------------- looking up a CID

  /** The first record of a CID in a sequence of records. */
  function First(recs: seq<Record>, key: Cid): Option<Record> {
    if recs == [] then None
    else if recs[0].cid == key then Some(recs[0])
    else First(recs[1..], key)
  }

  lemma {:induction false} FirstFound(recs: seq<Record>, key: Cid, i: nat)
    requires i < |recs| && recs[i].cid == key
    ensures First(recs, key).Some?
  {
    if recs[0].cid != key {
      FirstFound(recs[1..], key, i - 1);
    }
  }

  lemma {:induction false} FirstIsMember(recs: seq<Record>, key: Cid)
    requires First(recs, key).Some?
    ensures First(recs, key).value in recs && First(recs, key).value.cid == key
  {
    if recs[0].cid != key {
      FirstIsMember(recs[1..], key);
    }
  }

  /** The records before position `i` are not of this CID. */
  lemma {:induction false} FirstSkips(recs: seq<Record>, key: Cid, i: nat)
    requires i <= |recs| && forall j :: 0 <= j < i ==> recs[j].cid != key
    ensures First(recs, key) == First(recs[i..], key)
  {
    if i > 0 {
      FirstSkips(recs[1..], key, i - 1);
      assert recs[1..][i - 1..] == recs[i..];
    } else {
      assert recs[0..] == recs;
    }
  }

  lemma {:induction false} FirstAppend(recs: seq<Record>, r: Record, key: Cid)
    ensures First(recs + [r], key) ==
            if First(recs, key).Some? then First(recs, key) else if r.cid == key then Some(r) else None
  {
    if recs != [] {
      FirstAppend(recs[1..], r, key);
      assert (recs + [r])[1..] == recs[1..] + [r];
    }
  }

  /** An inserted record never hides an earlier record of the same CID. */
  lemma {:induction false} FirstInsert(idx: seq<Record>, r: Record, key: Cid)
    requires Sorted(idx)
    ensures First(Insert(idx, r), key) ==
            if First(idx, key).Some? then First(idx, key) else if r.cid == key then Some(r) else None
  {
    if idx == [] {
      assert ([r] + idx)[1..] == idx;
    } else if Less(r.cid.digest, idx[0].cid.digest) {
      assert ([r] + idx)[1..] == idx;
      if r.cid == key && First(idx, key).Some? {
        FirstIsMember(idx, key);
        var j :| 0 <= j < |idx| && idx[j] == First(idx, key).value;
        NotBelowFirst(idx, j);
        assert false;
      }
    } else {
      FirstInsert(idx[1..], r, key);
      assert ([idx[0]] + Insert(idx[1..], r))[1..] == Insert(idx[1..], r);
    }
  }

  lemma NotBelowFirst(idx: seq<Record>, j: nat)
    requires Sorted(idx) && j < |idx|
    ensures !Less(idx[j].cid.digest, idx[0].cid.digest)
  {
    LessIrreflexive(idx[0].cid.digest);
  }

  /** Looking up the index finds the record that was inserted first. */
  lemma {:induction false} IndexFindsFirst(recs: seq<Record>, key: Cid)
    ensures First(BuildIndex(recs), key) == First(recs, key)
  {
    if recs != [] {
      var init, r := recs[..|recs| - 1], recs[|recs| - 1];
      IndexFindsFirst(init, key);
      BuildIndexSorted(init);
      FirstInsert(BuildIndex(init), r, key);
      FirstAppend(init, r, key);
      assert recs == init + [r];
    }
  }

  // ---------------------------------------------------------------- walking equal digests

  /** The stretch of the index that `GetAll` and `hasExactCID` visit for a digest. */
  predicate Stretch(idx: seq<Record>, digest: Bytes, lo: nat, hi: nat) {
    && lo <= hi <= |idx|
    && (forall i :: 0 <= i < |idx| ==> (idx[i].cid.digest == digest <==> lo <= i < hi))
  }

  /** Ascend from the first record not below the digest, while the digest is equal. */
  method FindStretch(idx: seq<Record>, digest: Bytes) returns (lo: nat, hi: nat)
    requires Sorted(idx)
    ensures Stretch(idx, digest, lo, hi)
  {
    lo := 0;
    while lo < |idx| && Less(idx[lo].cid.digest, digest)
      invariant lo <= |idx|
      invariant forall i :: 0 <= i < lo ==> Less(idx[i].cid.digest, digest)
    {
      lo := lo + 1;
    }
    hi := lo;
    while hi < |idx| && idx[hi].cid.digest == digest
      invariant lo <= hi <= |idx|
      invariant forall i :: lo <= i < hi ==> idx[i].cid.digest == digest
    {
      hi := hi + 1;
    }
    LessIrreflexive(digest);
    if hi < |idx| {
      AboveStretch(idx, digest, lo, hi);
    }
  }

  /** Past the first record with another digest, digests are strictly greater. */
  lemma AboveStretch(idx: seq<Record>, digest: Bytes, lo: nat, hi: nat)
    requires Sorted(idx) && lo <= hi < |idx| && idx[hi].cid.digest != digest
    requires lo < hi ==> idx[lo].cid.digest == digest
    requires lo == hi ==> !Less(idx[hi].cid.digest, digest)
    ensures forall i :: hi <= i < |idx| ==> idx[i].cid.digest != digest
  {
    LessTotal(digest, idx[hi].cid.digest);
    assert Less(digest, idx[hi].cid.digest);
    forall i | hi <= i < |idx| ensures idx[i].cid.digest != digest {
      if i > hi {
        BelowNotBelow(digest, idx[hi].cid.digest, idx[i].cid.digest);
      }
      LessIrreflexive(digest);
    }
  }

  /** Every record of a CID lies in the stretch of its digest, so the walk misses none. */
  lemma StretchHoldsKey(idx: seq<Record>, key: Cid, lo: nat, hi: nat)
    requires Stretch(idx, key.digest, lo, hi)
    ensures First(idx, key) == First(idx[lo..hi], key)
  {
    FirstSkips(idx, key, lo);
    FirstInPrefix(idx[lo..], key, hi - lo);
    assert idx[lo..][..hi - lo] == idx[lo..hi];
  }

  lemma {:induction false} FirstInPrefix(recs: seq<Record>, key: Cid, n: nat)
    requires n <= |recs| && forall j :: n <= j < |recs| ==> recs[j].cid != key
    ensures First(recs, key) == First(recs[..n], key)
  {
    if n == 0 {
      FirstSkips(recs, key, |recs|);
    } else if recs[0].cid != key {
      FirstInPrefix(recs[1..], key, n - 1);
      assert recs[..n][1..] == recs[1..][..n - 1];
    }
  }

  predicate Indexed(idx: seq<Record>, key: Cid) {
    exists i :: 0 <= i < |idx| && idx[i].cid == key
  }

  /** `hasExactCID`: the index holds a record of this very CID. */
  method HasExactCID(idx: seq<Record>, key: Cid) returns (found: bool)
    requires Sorted(idx)
    ensures found <==> Indexed(idx, key)
  {
    var lo, hi := FindStretch(idx, key.digest);
    found := false;
    var i := lo;
    while i < hi
      invariant lo <= i <= hi
      invariant forall j :: lo <= j < i ==> idx[j].cid != key
    {
      if idx[i].cid == key {
        return true;
      }
      i := i + 1;
    }
  }
}
