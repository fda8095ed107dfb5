/**
 Finding the pieces behind an identity CID (retrievalmarket/impl/provider_pieces.go).

 An identity CID carries a whole block in place of a hash.  The provider extracts the links
 in that block, through nested identity CIDs, and looks for pieces that contain all of them.
 */
module IdentityLinks {
  import opened Wrappers

  const MAX_BYTES: nat := 2048
  const MAX_LINKS: nat := 32

  /**
   A CID as link extraction sees it.  A nested CID is part of its parent's bytes, so nesting
   is finite.
   */
  datatype Link =
    | Hashed(id: nat)                             // a real hash: nothing inside
    | Identity(size: nat, links: seq<Link>)       // a decodable block of this size with these links
    | Garbled(size: nat)                          // an identity CID whose block cannot be decoded

  // ---------------------------------------------------------------- specification

  /** The non-identity CIDs a CID leads to. */
  function Leaves(c: Link): set<Link>
    decreases c, 0
  {
    match c
    case Hashed(_) => {c}
    case Identity(_, links) => LeavesOf(links)
    case Garbled(_) => {}
  }

  function LeavesOf(links: seq<Link>): set<Link>
    decreases links, 1
  {
    if links == [] then {} else LeavesOf(links[..|links| - 1]) + Leaves(links[|links| - 1])
  }

  /** Every identity CID inside is short enough and decodable. */
  predicate Readable(c: Link)
    decreases c, 0
  {
    match c
    case Hashed(_) => true
    case Identity(size, links) => size <= MAX_BYTES && ReadableAll(links)
    case Garbled(_) => false
  }

  predicate ReadableAll(links: seq<Link>)
    decreases links, 1
  {
    links == [] || (ReadableAll(links[..|links| - 1]) && Readable(links[|links| - 1]))
  }

  /** A list extended by the CIDs that are not in it yet, in their order. */
  function Merged(result: seq<Link>, cids: seq<Link>): seq<Link>
    decreases |cids|
  {
    if cids == [] then result
    else Merged(if cids[0] in result then result else result + [cids[0]], cids[1..])
  }

  /** The same CIDs in the order in which they are first met. */
  function Listed(c: Link): seq<Link>
    decreases c, 0
  {
    match c
    case Hashed(_) => [c]
    case Identity(_, links) => ListedOf(links)
    case Garbled(_) => []
  }

  function ListedOf(links: seq<Link>): seq<Link>
    decreases links, 1
  {
    if links == [] then [] else Merged(ListedOf(links[..|links| - 1]), Listed(links[|links| - 1]))
  }

  function Members(s: seq<Link>): set<Link> {
    set x | x in s
  }

  predicate Distinct(s: seq<Link>) {
    forall i, j :: 0 <= i < j < |s| ==> s[i] != s[j]
  }

  lemma {:induction false} DistinctSize(s: seq<Link>)
    requires Distinct(s)
    ensures |Members(s)| == |s|
  {
    if s != [] {
      var init, x := s[..|s| - 1], s[|s| - 1];
      DistinctSize(init);
      assert s == init + [x];
      assert Members(s) == Members(init) + {x};
    }
  }

  lemma SubsetSize(a: set<Link>, b: set<Link>)
    requires a <= b
    ensures |a| <= |b|
  {
    assert b == a + (b - a);
  }

  lemma {:induction false} ReadablePrefix(links: seq<Link>, i: nat)
    requires i < |links| && ReadableAll(links)
    ensures Readable(links[i])
  {
    if i < |links| - 1 {
      ReadablePrefix(links[..|links| - 1], i);
    }
  }

  lemma {:induction false} LeavesOfPrefix(links: seq<Link>, i: nat)
    requires i < |links|
    ensures Leaves(links[i]) <= LeavesOf(links)
  {
    if i < |links| - 1 {
      LeavesOfPrefix(links[..|links| - 1], i);
    }
  }

  lemma {:induction false} HashedLeaves(c: Link)
    ensures forall x :: x in Leaves(c) ==> x.Hashed?
    decreases c, 0
  {
    if c.Identity? {
      HashedLeavesOf(c.links);
    }
  }

  lemma {:induction false} HashedLeavesOf(links: seq<Link>)
    ensures forall x :: x in LeavesOf(links) ==> x.Hashed?
    decreases links, 1
  {
    if links != [] {
      HashedLeavesOf(links[..|links| - 1]);
      HashedLeaves(links[|links| - 1]);
    }
  }

  // ---------------------------------------------------------------- extraction

  /** Merging adds exactly the new members and no duplicates. */
  lemma {:induction false} MergedAdds(result: seq<Link>, cids: seq<Link>)
    requires Distinct(result)
    ensures Distinct(Merged(result, cids)) && Members(Merged(result, cids)) == Members(result) + Members(cids)
    decreases |cids|
  {
    if cids != [] {
      var next := if cids[0] in result then result else result + [cids[0]];
      assert Members(next) == Members(result) + {cids[0]};
      MergedAdds(next, cids[1..]);
      assert cids == [cids[0]] + cids[1..];
      assert Members(cids) == {cids[0]} + Members(cids[1..]);
    }
  }

  /** Appends the CIDs that are not in the list yet. */
  method AddNew(result: seq<Link>, cids: seq<Link>) returns (extended: seq<Link>)
    requires Distinct(result)
    ensures extended == Merged(result, cids)
    ensures Distinct(extended) && Members(extended) == Members(result) + Members(cids)
  {
    extended := result;
    var k := 0;
    while k < |cids|
      invariant k <= |cids| && Merged(result, cids) == Merged(extended, cids[k..])
    {
      var found := false;
      var j := 0;
      while j < |extended|
        invariant j <= |extended|
        invariant found <==> exists i :: 0 <= i < j && extended[i] == cids[k]
      {
        if extended[j] == cids[k] {
          found := true;
        }
        j := j + 1;
      }
      assert cids[k..][0] == cids[k] && cids[k..][1..] == cids[k + 1..];
      if !found {
        extended := extended + [cids[k]];
      }
      k := k + 1;
    }
    MergedAdds(result, cids);
  }

  /**
   `linksFromIdentityCid`: the links inside an identity CID, duplicates removed, identity CIDs
   replaced by their own links; an empty list for any other CID.
   */
  method LinksFromIdentityCid(c: Link) returns (links: Option<seq<Link>>)
    ensures links.Some? <==> Usable(c)
    ensures c.Hashed? ==> links == Some([])
    ensures links.Some? && !c.Hashed? ==>
              links.value == Listed(c) && Distinct(links.value) && Members(links.value) == Leaves(c) &&
              |links.value| <= MAX_LINKS
    ensures links.Some? ==> forall x :: x in links.value ==> x.Hashed?
    decreases c, 0
  {
    if c.Hashed? {
      return Some([]);
    }
    if c.size > MAX_BYTES {
      return None;
    }
    if c.Garbled? {
      return None;
    }
    var result := CollectLinks(c.links);
    if result.None? {
      var i :| 0 <= i < |c.links| && !Usable(c.links[i]);
      UnusableLink(c, i);
      return None;
    }
    Collected(c, result.value);
    if |result.value| > MAX_LINKS {
      return None;
    }
    return result;
  }

  /** The loop over the links of a block. */
  method CollectLinks(links: seq<Link>) returns (result: Option<seq<Link>>)
    ensures result.Some? ==>
              ReadableAll(links) && result.value == ListedOf(links) && Distinct(result.value) &&
              Members(result.value) == LeavesOf(links)
    ensures result.None? ==> exists i :: 0 <= i < |links| && !Usable(links[i])
    decreases links, 1
  {
    var resultCids: seq<Link> := [];
    var i := 0;
    while i < |links|
      invariant i <= |links| && Distinct(resultCids)
      invariant ReadableAll(links[..i]) && resultCids == ListedOf(links[..i])
      invariant Members(resultCids) == LeavesOf(links[..i])
    {
      var cids := CidsOf(links[i]);
      if cids.None? {
        return None;
      }
      resultCids := AddNew(resultCids, cids.value);
      NextPrefix(links, i);
      i := i + 1;
    }
    assert links[..i] == links;
    return Some(resultCids);
  }

  lemma Collected(c: Link, result: seq<Link>)
    requires c.Identity? && Distinct(result) && Members(result) == Leaves(c)
    ensures |result| == |Leaves(c)|
    ensures forall x :: x in result ==> x.Hashed?
  {
    DistinctSize(result);
    HashedLeaves(c);
    assert forall x :: x in result ==> x in Members(result);
  }

  /** What one link of a block contributes: itself, or the links inside it. */
  method CidsOf(link: Link) returns (cids: Option<seq<Link>>)
    ensures cids.Some? <==> Usable(link)
    ensures cids.Some? ==> cids.value == Listed(link) && Members(cids.value) == Leaves(link)
    decreases link, 1
  {
    if link.Hashed? {
      assert Members([link]) == {link};
      return Some([link]);
    }
    cids := LinksFromIdentityCid(link);
  }

  predicate Usable(link: Link) {
    link.Hashed? || (Readable(link) && |Leaves(link)| <= MAX_LINKS)
  }

  /** A link that cannot be used makes its parent unusable. */
  lemma UnusableLink(c: Link, i: nat)
    requires c.Identity? && i < |c.links| && !Usable(c.links[i])
    ensures !Readable(c) || |Leaves(c)| > MAX_LINKS
  {
    if Readable(c) {
      ReadablePrefix(c.links, i);
      LeavesOfPrefix(c.links, i);
      SubsetSize(Leaves(c.links[i]), Leaves(c));
    }
  }

  lemma NextPrefix(links: seq<Link>, i: nat)
    requires i < |links|
    ensures LeavesOf(links[..i + 1]) == LeavesOf(links[..i]) + Leaves(links[i])
    ensures ListedOf(links[..i + 1]) == Merged(ListedOf(links[..i]), Listed(links[i]))
    ensures ReadableAll(links[..i + 1]) <==> ReadableAll(links[..i]) && Readable(links[i])
  {
    assert links[..i + 1][..|links[..i + 1]| - 1] == links[..i];
  }

  // ---------------------------------------------------------------- intersection

  /** The piece index's answer for one CID. */
  datatype Answer = Pieces(ids: seq<nat>) | QueryFailed

  type Index = Link -> Answer

  /** The index knows the piece to contain this link. */
  predicate Holds(index: Index, link: Link, piece: nat) {
    index(link).Pieces? && piece in index(link).ids
  }

  /** The piece contains each of the links. */
  predicate HoldsAll(index: Index, links: seq<Link>, piece: nat) {
    forall i :: 0 <= i < |links| ==> Holds(index, links[i], piece)
  }

  /** No answer, or an empty one. */
  predicate Useless(index: Index, link: Link) {
    index(link).QueryFailed? || index(link).ids == []
  }

  /** Some link has no answer while the links before it still have a piece in common. */
  ghost predicate Fails(index: Index, links: seq<Link>) {
    exists i :: 0 <= i < |links| && Useless(index, links[i]) && (i == 0 || exists p :: HoldsAll(index, links[..i], p))
  }

  /** The pieces of `answer` that are also in `pieces`. */
  method Intersect(answer: seq<nat>, pieces: seq<nat>) returns (common: seq<nat>)
    ensures forall p :: p in common <==> p in answer && p in pieces
  {
    common := [];
    var j := 0;
    while j < |answer|
      invariant j <= |answer|
      invariant forall p :: p in common <==> p in answer[..j] && p in pieces
    {
      var k := 0;
      while k < |pieces| && pieces[k] != answer[j]
        invariant k <= |pieces|
        invariant forall m :: 0 <= m < k ==> pieces[m] != answer[j]
      {
        k := k + 1;
      }
      assert answer[..j + 1] == answer[..j] + [answer[j]];
      if k < |pieces| {
        assert answer[j] in pieces;
        common := common + [answer[j]];
      }
      j := j + 1;
    }
    assert answer[..j] == answer;
  }

  /**
   The query loop of `getCommonPiecesFromIdentityCidLinks`.  It stops early when no piece is
   left; even so, a successful result lists exactly the pieces that contain every link.  It
   fails exactly when some link has no answer while earlier links still have a common piece.
   */
  method CommonPieces(index: Index, links: seq<Link>) returns (pieces: Option<seq<nat>>)
    ensures pieces.Some? && links != [] ==> forall p :: p in pieces.value <==> HoldsAll(index, links, p)
    ensures pieces.None? <==> Fails(index, links)
  {
    var common: seq<nat> := [];
    var i := 0;
    while i < |links|
      invariant i <= |links|
      invariant i == 0 ==> common == []
      invariant i > 0 ==> common != [] && forall p :: p in common <==> HoldsAll(index, links[..i], p)
      invariant forall j :: 0 <= j < i ==> !Useless(index, links[j])
    {
      var answer := index(links[i]);
      if answer.QueryFailed? || |answer.ids| == 0 {
        if i > 0 {
          assert HoldsAll(index, links[..i], common[0]);
        }
        return None;
      }
      if i == 0 {
        common := answer.ids;
      } else {
        common := Intersect(answer.ids, common);
      }
      forall p ensures p in common <==> HoldsAll(index, links[..i + 1], p) {
        HoldsOneMore(index, links, i, p);
      }
      if |common| == 0 {
        EmptyStaysEmpty(index, links, i + 1);
        return Some([]);
      }
      i := i + 1;
    }
    assert links[..i] == links;
    return Some(common);
  }

  lemma HoldsOneMore(index: Index, links: seq<Link>, i: nat, piece: nat)
    requires i < |links|
    ensures HoldsAll(index, links[..i + 1], piece) <==>
            HoldsAll(index, links[..i], piece) && Holds(index, links[i], piece)
  {
    assert links[..i + 1] == links[..i] + [links[i]];
  }

  /** Once no piece contains the first `n` links, none contains more of them. */
  lemma EmptyStaysEmpty(index: Index, links: seq<Link>, n: nat)
    requires 0 < n <= |links| && forall p :: !HoldsAll(index, links[..n], p)
    requires forall j :: 0 <= j < n ==> !Useless(index, links[j])
    ensures forall p :: !HoldsAll(index, links, p)
    ensures forall i :: 0 <= i < |links| && Useless(index, links[i]) ==>
              i > 0 && forall p :: !HoldsAll(index, links[..i], p)
  {
    forall p, i | n <= i <= |links| ensures !HoldsAll(index, links[..i], p) {
      if HoldsAll(index, links[..i], p) {
        assert forall k :: 0 <= k < n ==> links[..n][k] == links[..i][k];
        assert HoldsAll(index, links[..n], p);
      }
    }
    assert links[..|links|] == links;
  }

  /** `getCommonPiecesFromIdentityCidLinks`: the pieces with every link inside an identity CID. */
  method CommonPiecesFromIdentityCid(index: Index, c: Link) returns (pieces: Option<seq<nat>>)
    ensures pieces.Some? && !c.Hashed? && Leaves(c) != {} ==>
              forall p :: p in pieces.value <==> forall leaf :: leaf in Leaves(c) ==> Holds(index, leaf, p)
    ensures c.Hashed? || (Usable(c) && Leaves(c) == {}) ==> pieces == Some([])
    ensures pieces.None? <==> !Usable(c) || (c.Identity? && Fails(index, Listed(c)))
  {
    var links := LinksFromIdentityCid(c);
    if links.None? {
      return None;
    }
    if |links.value| == 0 {
      return Some([]);
    }
    pieces := CommonPieces(index, links.value);
    forall p ensures HoldsAll(index, links.value, p) <==> forall leaf :: leaf in Members(links.value) ==> Holds(index, leaf, p) {
      assert forall i :: 0 <= i < |links.value| ==> links.value[i] in Members(links.value);
    }
    assert links.value[0] in Members(links.value);
  }
}
