/** Leaf hashes and hash chains: a chain's last leaf fixes every salt and payload before it. */
module Chain {
  import opened Hashing
  import opened Unicode

  /** What a leaf digests: the prefix, the salt, the previous leaf and the payload's UTF-8 bytes. */
  function LeafBytes(salt: Bytes, prev: Bytes, payload: Text): Bytes
    requires Valid(payload)
  {
    [LEAF_PREFIX] + salt + prev + Utf8(payload)
  }

  /** leaf_hash: refuses a salt or a predecessor of another length, and text UTF-8 cannot encode. */
  function LeafHash(h: HashFn, salt: Bytes, prev: Bytes, payload: Text): Result<Hash32> {
    if |salt| != HASH_SIZE || |prev| != HASH_SIZE || !Valid(payload) then Err(ValueError)
    else Ok(h(LeafBytes(salt, prev, payload)))
  }

  /** The framing is unambiguous. */
  lemma {:induction false} LeafBytesInjective(salt: Bytes, prev: Bytes, payload: Text, salt': Bytes,
        prev': Bytes, payload': Text)
    requires |salt| == |prev| == |salt'| == |prev'| == HASH_SIZE && Valid(payload) && Valid(payload')
    requires LeafBytes(salt, prev, payload) == LeafBytes(salt', prev', payload')
    ensures salt == salt' && prev == prev' && payload == payload'
  {
    var a, b := LeafBytes(salt, prev, payload), LeafBytes(salt', prev', payload');
    assert a[1..33] == salt && b[1..33] == salt';
    assert a[33..65] == prev && b[33..65] == prev';
    assert a[65..] == Utf8(payload) && b[65..] == Utf8(payload');
    Utf8Injective(payload, payload');
  }

  datatype Link = Link(salt: Bytes, prev: Bytes, payload: Text, leaf: Bytes)

  /** The link's leaf is the leaf hash of its own columns. */
  predicate Honest(h: HashFn, link: Link) {
    LeafHash(h, link.salt, link.prev, link.payload) == Ok(link.leaf)
  }

  /** The newest leaf, or the zero hash of an empty chain. */
  function Head(links: seq<Link>): Bytes {
    if links == [] then ZeroHash() else links[|links| - 1].leaf
  }

  /** Every link is honest and names its predecessor's leaf, the first one the zero hash. */
  ghost predicate WellLinked(h: HashFn, links: seq<Link>)
    decreases |links|
  {
    links != [] ==>
      && WellLinked(h, links[..|links| - 1])
      && Honest(h, links[|links| - 1])
      && links[|links| - 1].prev == Head(links[..|links| - 1])
  }

  lemma {:induction false} WellLinkedSnoc(h: HashFn, links: seq<Link>, link: Link)
    requires WellLinked(h, links) && Honest(h, link) && link.prev == Head(links)
    ensures WellLinked(h, links + [link])
  {
    assert (links + [link])[..|links|] == links;
  }

  /** What a pair of different chains with one head gives away. */
  datatype Evidence = Nothing | Collides(pair: Pair) | ZeroPreimage(pre: Bytes)

  predicate Genuine(h: HashFn, e: Evidence) {
    match e
    case Nothing => false
    case Collides(pair) => Collision(h, pair)
    case ZeroPreimage(pre) => h(pre) == ZeroHash()
  }

  function LinkBytes(link: Link): Bytes {
    if Valid(link.payload) then LeafBytes(link.salt, link.prev, link.payload) else []
  }

  lemma {:induction false} HonestBytes(h: HashFn, link: Link)
    requires Honest(h, link)
    ensures h(LinkBytes(link)) == link.leaf
  {
  }

  lemma {:induction false} SameBytesSameLink(h: HashFn, x: Link, y: Link)
    requires Honest(h, x) && Honest(h, y) && LinkBytes(x) == LinkBytes(y)
    ensures x == y
  {
    LeafBytesInjective(x.salt, x.prev, x.payload, y.salt, y.prev, y.payload);
  }

  /** Compares two chains from their ends backwards. */
  function ChainEvidence(a: seq<Link>, b: seq<Link>): Evidence
    decreases |a|
  {
    if a == [] && b == [] then Nothing
    else if a == [] then ZeroPreimage(LinkBytes(b[|b| - 1]))
    else if b == [] then ZeroPreimage(LinkBytes(a[|a| - 1]))
    else
      var x, y := LinkBytes(a[|a| - 1]), LinkBytes(b[|b| - 1]);
      if x != y then Collides(Pair(x, y)) else ChainEvidence(a[..|a| - 1], b[..|b| - 1])
  }

  /** Chain-head binding: two chains with one head are the same chain, or comparing them yields a
      collision or a preimage of the zero hash. Their lengths are arbitrary. */
  lemma {:induction false} HeadBinds(h: HashFn, a: seq<Link>, b: seq<Link>)
    requires WellLinked(h, a) && WellLinked(h, b) && Head(a) == Head(b)
    ensures a == b || Genuine(h, ChainEvidence(a, b))
    decreases |a|
  {
    if a == [] && b == [] {
    } else if a == [] || b == [] || LinkBytes(a[|a| - 1]) != LinkBytes(b[|b| - 1]) {
      EndsDiffer(h, a, b);
    } else {
      LastLinksAgree(h, a, b);
      SplitLast(a);
      SplitLast(b);
      EvidenceSnoc(a[..|a| - 1], b[..|b| - 1], a[|a| - 1]);
      HeadBinds(h, a[..|a| - 1], b[..|b| - 1]);
    }
  }

  lemma {:induction false} EvidenceSnoc(x: seq<Link>, y: seq<Link>, last: Link)
    ensures ChainEvidence(x + [last], y + [last]) == ChainEvidence(x, y)
  {
    assert (x + [last])[..|x|] == x && (y + [last])[..|y|] == y;
  }

  lemma {:induction false} SplitLast(links: seq<Link>)
    requires links != []
    ensures links == links[..|links| - 1] + [links[|links| - 1]]
  {
  }

  lemma {:induction false} EndsDiffer(h: HashFn, a: seq<Link>, b: seq<Link>)
    requires WellLinked(h, a) && WellLinked(h, b) && Head(a) == Head(b)
    requires a != [] || b != []
    requires a == [] || b == [] || LinkBytes(a[|a| - 1]) != LinkBytes(b[|b| - 1])
    ensures Genuine(h, ChainEvidence(a, b))
  {
    if a != [] {
      HonestBytes(h, a[|a| - 1]);
    }
    if b != [] {
      HonestBytes(h, b[|b| - 1]);
    }
  }

  lemma {:induction false} LastLinksAgree(h: HashFn, a: seq<Link>, b: seq<Link>)
    requires a != [] && b != [] && WellLinked(h, a) && WellLinked(h, b)
    requires LinkBytes(a[|a| - 1]) == LinkBytes(b[|b| - 1])
    ensures a[|a| - 1] == b[|b| - 1] && Head(a[..|a| - 1]) == Head(b[..|b| - 1])
    ensures WellLinked(h, a[..|a| - 1]) && WellLinked(h, b[..|b| - 1])
  {
    SameBytesSameLink(h, a[|a| - 1], b[|b| - 1]);
  }

  lemma {:induction false} PrefixWellLinked(h: HashFn, links: seq<Link>, n: nat)
    requires WellLinked(h, links) && n <= |links|
    ensures WellLinked(h, links[..n])
    decreases |links|
  {
    if n < |links| {
      var last := |links| - 1;
      PrefixWellLinked(h, links[..last], n);
      assert links[..last][..n] == links[..n];
    } else {
      assert links[..n] == links;
    }
  }

  lemma {:induction false} LinkAt(h: HashFn, links: seq<Link>, i: nat)
    requires WellLinked(h, links) && i < |links|
    ensures Honest(h, links[i]) && links[i].prev == Head(links[..i])
  {
    PrefixWellLinked(h, links, i + 1);
    assert links[..i + 1][..i] == links[..i];
  }

  /** No two events of a chain claim one predecessor, unless that reveals a collision or a preimage
      of the zero hash: the unique index behind the chains is only a backstop. */
  lemma {:induction false} NoFork(h: HashFn, links: seq<Link>, i: nat, j: nat)
    requires WellLinked(h, links) && i < j < |links| && links[i].prev == links[j].prev
    ensures Genuine(h, ChainEvidence(links[..i], links[..j]))
  {
    LinkAt(h, links, i);
    LinkAt(h, links, j);
    PrefixWellLinked(h, links, i);
    PrefixWellLinked(h, links, j);
    HeadBinds(h, links[..i], links[..j]);
    assert |links[..i]| != |links[..j]|;
  }
}
