/** A batch of chained events: the Merkle root over their leaf hashes fixes their contents. */
module Batches {
  import opened Hashing
  import opened Chain
  import opened Merkle
  import opened MerkleProofs

  ghost predicate AllHonest(h: HashFn, links: seq<Link>) {
    forall i :: 0 <= i < |links| ==> Honest(h, links[i])
  }

  function Preimages(links: seq<Link>): seq<Bytes> {
    seq(|links|, i requires 0 <= i < |links| => LinkBytes(links[i]))
  }

  /** The leaves the batch's tree is built over: the events' stored leaf hashes. */
  ghost function Leaves(h: HashFn, links: seq<Link>): seq<Hash32>
    requires AllHonest(h, links)
  {
    seq(|links|, i requires 0 <= i < |links| => HonestLeaf(h, links[i]))
  }

  ghost function HonestLeaf(h: HashFn, link: Link): (leaf: Hash32)
    requires Honest(h, link)
    ensures leaf == link.leaf
  {
    HonestBytes(h, link);
    h(LinkBytes(link))
  }

  /** They are the digests of the events' framed columns. */
  lemma {:induction false} LeavesAreDigests(h: HashFn, links: seq<Link>)
    requires AllHonest(h, links)
    ensures Leaves(h, links) == Digests(h, Preimages(links))
  {
    forall i | 0 <= i < |links|
      ensures Leaves(h, links)[i] == Digests(h, Preimages(links))[i]
    {
      HonestBytes(h, links[i]);
    }
  }

  lemma {:induction false} PreimagesAreLeafBytes(h: HashFn, links: seq<Link>)
    requires AllHonest(h, links)
    ensures AllLeafBytes(Preimages(links))
  {
    forall pre | pre in Preimages(links)
      ensures MerkleProofs.LeafBytes(pre)
    {
      var i :| 0 <= i < |links| && pre == LinkBytes(links[i]);
      assert Honest(h, links[i]);
    }
  }

  lemma {:induction false} SamePreimagesSameLinks(h: HashFn, a: seq<Link>, b: seq<Link>)
    requires AllHonest(h, a) && AllHonest(h, b) && Preimages(a) == Preimages(b)
    ensures a == b
  {
    assert |a| == |Preimages(a)| == |b|;
    forall i | 0 <= i < |a|
      ensures a[i] == b[i]
    {
      assert Preimages(a)[i] == Preimages(b)[i];
      SameBytesSameLink(h, a[i], b[i]);
    }
  }

  /** Two batches of events, of any sizes, whose trees have one root hold the same salts, predecessors and
      payload texts in the same order, or a collision is returned. */
  lemma {:induction false} BatchRootBinds(h: HashFn, a: seq<Link>, b: seq<Link>)
    requires a != [] && b != [] && AllHonest(h, a) && AllHonest(h, b)
    requires Root(h, Leaves(h, a)) == Root(h, Leaves(h, b))
    ensures a == b || Collision(h, BindingCollision(h, Preimages(a), Preimages(b)))
  {
    LeavesAreDigests(h, a);
    LeavesAreDigests(h, b);
    PreimagesAreLeafBytes(h, a);
    PreimagesAreLeafBytes(h, b);
    RootBinds(h, Preimages(a), Preimages(b));
    if Preimages(a) == Preimages(b) {
      SamePreimagesSameLinks(h, a, b);
    }
  }
}
