/** Completeness, soundness and binding of Merkle proofs, for every digest function. */
module MerkleProofs {
  import opened Hashing
  import opened Merkle

  // ----- completeness

  lemma {:induction false} ClimbExtends(h: HashFn, leaf: Bytes, proof: seq<ProofStep>, step: ProofStep)
    ensures Climb(h, leaf, proof + [step]) == h(StepBytes(Climb(h, leaf, proof), step))
  {
    assert (proof + [step])[..|proof|] == proof;
  }

  /** One more well-formed step above a verified proof. */
  lemma {:induction false} VerifiesExtends(h: HashFn, leaf: Bytes, proof: seq<ProofStep>, below: Bytes, step: ProofStep)
    requires Verifies(h, leaf, proof, below) && |step.sibling| == HASH_SIZE && !step.side.Unknown?
    ensures Verifies(h, leaf, proof + [step], h(StepBytes(below, step)))
    ensures SidesOf(proof + [step]) == SidesOf(proof) + [step.side]
  {
    ClimbExtends(h, leaf, proof, step);
  }

  lemma {:induction false} LeftUnfolds(h: HashFn, leaves: seq<Hash32>, index: nat)
    requires |leaves| > 1 && index < SplitPoint(|leaves|)
    ensures var left := leaves[..SplitPoint(|leaves|)];
            var step := ProofStep(Root(h, leaves[SplitPoint(|leaves|)..]), Right);
            && Path(h, leaves, index) == Path(h, left, index) + [step]
            && Root(h, leaves) == h(StepBytes(Root(h, left), step))
            && Sides(index, |leaves|) == Sides(index, |left|) + [Right]
  {
  }

  lemma {:induction false} RightUnfolds(h: HashFn, leaves: seq<Hash32>, index: nat)
    requires |leaves| > 1 && SplitPoint(|leaves|) <= index < |leaves|
    ensures var right, at := leaves[SplitPoint(|leaves|)..], index - SplitPoint(|leaves|);
            var step := ProofStep(Root(h, leaves[..SplitPoint(|leaves|)]), Left);
            && Path(h, leaves, index) == Path(h, right, at) + [step]
            && Root(h, leaves) == h(StepBytes(Root(h, right), step))
            && Sides(index, |leaves|) == Sides(at, |right|) + [Left]
  {
  }

  lemma {:induction false} ClimbsFromLeft(h: HashFn, leaves: seq<Hash32>, index: nat)
    requires |leaves| > 1 && index < SplitPoint(|leaves|)
    requires var left := leaves[..SplitPoint(|leaves|)];
             Verifies(h, leaves[index], Path(h, left, index), Root(h, left))
             && SidesOf(Path(h, left, index)) == Sides(index, |left|)
    ensures Verifies(h, leaves[index], Path(h, leaves, index), Root(h, leaves))
    ensures SidesOf(Path(h, leaves, index)) == Sides(index, |leaves|)
  {
    var left, step := leaves[..SplitPoint(|leaves|)], ProofStep(Root(h, leaves[SplitPoint(|leaves|)..]), Right);
    LeftUnfolds(h, leaves, index);
    VerifiesExtends(h, leaves[index], Path(h, left, index), Root(h, left), step);
  }

  lemma {:induction false} ClimbsFromRight(h: HashFn, leaves: seq<Hash32>, index: nat)
    requires |leaves| > 1 && SplitPoint(|leaves|) <= index < |leaves|
    requires var right, at := leaves[SplitPoint(|leaves|)..], index - SplitPoint(|leaves|);
             Verifies(h, leaves[index], Path(h, right, at), Root(h, right))
             && SidesOf(Path(h, right, at)) == Sides(at, |right|)
    ensures Verifies(h, leaves[index], Path(h, leaves, index), Root(h, leaves))
    ensures SidesOf(Path(h, leaves, index)) == Sides(index, |leaves|)
  {
    var right, step := leaves[SplitPoint(|leaves|)..], ProofStep(Root(h, leaves[..SplitPoint(|leaves|)]), Left);
    RightUnfolds(h, leaves, index);
    VerifiesExtends(h, leaves[index], Path(h, right, index - SplitPoint(|leaves|)), Root(h, right), step);
  }

  /** A path accepted for a half of the tree, one step further up. */
  lemma {:induction false} PathClimbs(h: HashFn, leaves: seq<Hash32>, index: nat)
    requires index < |leaves| && |leaves| > 1
    requires var k := SplitPoint(|leaves|);
             var half, at := if index < k then leaves[..k] else leaves[k..], if index < k then index else index - k;
             Verifies(h, leaves[index], Path(h, half, at), Root(h, half))
             && SidesOf(Path(h, half, at)) == Sides(at, |half|)
    ensures Verifies(h, leaves[index], Path(h, leaves, index), Root(h, leaves))
    ensures SidesOf(Path(h, leaves, index)) == Sides(index, |leaves|)
  {
    if index < SplitPoint(|leaves|) {
      ClimbsFromLeft(h, leaves, index);
    } else {
      ClimbsFromRight(h, leaves, index);
    }
  }

  lemma {:induction false} PathVerifiesWithSides(h: HashFn, leaves: seq<Hash32>, index: nat)
    requires index < |leaves|
    ensures Verifies(h, leaves[index], Path(h, leaves, index), Root(h, leaves))
    ensures SidesOf(Path(h, leaves, index)) == Sides(index, |leaves|)
    decreases |leaves|
  {
    if |leaves| > 1 {
      var k := SplitPoint(|leaves|);
      if index < k {
        PathVerifiesWithSides(h, leaves[..k], index);
      } else {
        PathVerifiesWithSides(h, leaves[k..], index - k);
      }
      PathClimbs(h, leaves, index);
    }
  }

  /** Every audit path verifies, with and without its position, and has the position's sides. */
  lemma {:induction false} PathVerifies(h: HashFn, leaves: seq<Hash32>, index: nat)
    requires index < |leaves|
    ensures Verifies(h, leaves[index], Path(h, leaves, index), Root(h, leaves))
    ensures SidesOf(Path(h, leaves, index)) == Sides(index, |leaves|)
    ensures VerifiesAt(h, leaves[index], Path(h, leaves, index), Root(h, leaves), index, |leaves|)
  {
    PathVerifiesWithSides(h, leaves, index);
  }

  lemma {:induction false} BitLengthMonotone(m: nat, n: nat)
    requires m <= n
    ensures BitLength(m) <= BitLength(n)
  {
    if m > 0 {
      BitLengthMonotone(m / 2, n / 2);
    }
  }

  lemma {:induction false} BitLengthBelowPow2(n: nat, k: nat)
    requires n < Pow2(k)
    ensures BitLength(n) <= k
  {
    if n > 0 {
      BitLengthBelowPow2(n / 2, k - 1);
    }
  }

  lemma {:induction false} HalvesAreShorter(size: nat, k: nat, e: nat)
    requires k == Pow2(e) && k < size <= 2 * k
    ensures BitLength(k - 1) <= e && BitLength(size - k - 1) <= e
  {
    BitLengthBelowPow2(k - 1, e);
    BitLengthMonotone(size - k - 1, k - 1);
  }

  /** A path is at most ceil(log2 n) steps long, which for n leaves is the bit length of n - 1. */
  lemma {:induction false} SidesAreShort(index: nat, size: nat)
    requires index < size
    ensures |Sides(index, size)| <= BitLength(size - 1)
    decreases size
  {
    if size > 1 {
      var k := SplitPoint(size);
      HalvesAreShorter(size, k, BitLength(size - 1) - 1);
      if index < k {
        SidesAreShort(index, k);
      } else {
        SidesAreShort(index - k, size - k);
      }
    }
  }

  lemma {:induction false} PathIsShort(h: HashFn, leaves: seq<Hash32>, index: nat)
    requires index < |leaves|
    ensures |Path(h, leaves, index)| <= BitLength(|leaves| - 1)
  {
    PathVerifies(h, leaves, index);
    assert |Path(h, leaves, index)| == |SidesOf(Path(h, leaves, index))|;
    SidesAreShort(index, |leaves|);
  }

  // ----- soundness

  lemma {:induction false} NodeBytesInjective(l: Bytes, r: Bytes, l': Bytes, r': Bytes)
    requires NodeBytes(l, r) == NodeBytes(l', r')
    requires |l| == |l'| || |r| == |r'|
    ensures l == l' && r == r'
  {
    assert |NodeBytes(l, r)| == 1 + |l| + |r|;
    assert NodeBytes(l, r)[1..][..|l|] == l && NodeBytes(l', r')[1..][..|l|] == l';
    assert NodeBytes(l, r)[1..][|l|..] == r && NodeBytes(l', r')[1..][|l|..] == r';
  }

  /** A step that digests a node's own bytes was taken from one of the node's two children. */
  lemma {:induction false} StepReadsNode(running: Bytes, step: ProofStep, l: Hash32, r: Hash32)
    requires |step.sibling| == HASH_SIZE && !step.side.Unknown?
    requires StepBytes(running, step) == NodeBytes(l, r)
    ensures if step.side.Left? then running == r && step.sibling == l else running == l && step.sibling == r
  {
    if step.side.Left? {
      NodeBytesInjective(step.sibling, running, l, r);
    } else {
      NodeBytesInjective(running, step.sibling, l, r);
    }
  }

  lemma {:induction false} SidesDropLast(proof: seq<ProofStep>, index: nat, size: nat)
    requires index < size && size >= 2
    requires SidesOf(proof) == Sides(index, size)
    ensures proof != []
    ensures proof[|proof| - 1].side == if index < SplitPoint(size) then Right else Left
    ensures SidesOf(proof[..|proof| - 1]) ==
            if index < SplitPoint(size) then Sides(index, SplitPoint(size))
            else Sides(index - SplitPoint(size), size - SplitPoint(size))
  {
    assert |proof| == |SidesOf(proof)|;
    var last := |proof| - 1;
    assert proof[last].side == SidesOf(proof)[last];
    assert SidesOf(proof[..last]) == SidesOf(proof)[..last];
  }

  /** What the tree digests for its root node. */
  function RootBytes(h: HashFn, leaves: seq<Hash32>): Bytes
    requires |leaves| >= 2
  {
    var k := SplitPoint(|leaves|);
    NodeBytes(Root(h, leaves[..k]), Root(h, leaves[k..]))
  }

  /** Walks down from the root beside a proof of the same shape and returns the first level where
      proof and tree digest different bytes. */
  function InclusionCollision(h: HashFn, leaves: seq<Hash32>, index: nat, leaf: Bytes, proof: seq<ProofStep>): Pair
    requires index < |leaves|
    decreases |leaves|
  {
    if |leaves| == 1 || proof == [] then
      NO_PAIR
    else
      var last := |proof| - 1;
      var claimed := StepBytes(Climb(h, leaf, proof[..last]), proof[last]);
      if claimed != RootBytes(h, leaves) then
        Pair(claimed, RootBytes(h, leaves))
      else
        var k := SplitPoint(|leaves|);
        if index < k then
          InclusionCollision(h, leaves[..k], index, leaf, proof[..last])
        else
          InclusionCollision(h, leaves[k..], index - k, leaf, proof[..last])
  }

  /** Inclusion soundness: whatever verifies at a position against the real root is the leaf there,
      or the proof hands over a collision. The leaf offered may have any length. */
  lemma {:induction false} InclusionSound(h: HashFn, leaves: seq<Hash32>, index: nat, leaf: Bytes,
        proof: seq<ProofStep>)
    requires index < |leaves|
    requires VerifiesAt(h, leaf, proof, Root(h, leaves), index, |leaves|)
    ensures leaf == leaves[index] || Collision(h, InclusionCollision(h, leaves, index, leaf, proof))
    decreases |leaves|
  {
    if |leaves| == 1 {
      assert |proof| == |SidesOf(proof)|;
    } else {
      SidesDropLast(proof, index, |leaves|);
      var k, last := SplitPoint(|leaves|), |proof| - 1;
      var rest, step := proof[..last], proof[last];
      var l, r := Root(h, leaves[..k]), Root(h, leaves[k..]);
      if StepBytes(Climb(h, leaf, rest), step) == NodeBytes(l, r) {
        assert step in proof;
        StepReadsNode(Climb(h, leaf, rest), step, l, r);
        if index < k {
          InclusionSound(h, leaves[..k], index, leaf, rest);
        } else {
          InclusionSound(h, leaves[k..], index - k, leaf, rest);
        }
      }
    }
  }

  // ----- leaves that are leaf hashes

  /** Byte strings a leaf digest may be taken over. */
  predicate LeafBytes(pre: Bytes) {
    pre != [] && pre[0] == LEAF_PREFIX
  }

  predicate AllLeafBytes(pres: seq<Bytes>) {
    forall pre <- pres :: LeafBytes(pre)
  }

  function Digests(h: HashFn, pres: seq<Bytes>): seq<Hash32> {
    seq(|pres|, i requires 0 <= i < |pres| => h(pres[i]))
  }

  lemma {:induction false} DigestsSplit(h: HashFn, pres: seq<Bytes>, k: nat)
    requires k <= |pres|
    ensures Digests(h, pres)[..k] == Digests(h, pres[..k])
    ensures Digests(h, pres)[k..] == Digests(h, pres[k..])
  {
    assert Digests(h, pres)[..k] == Digests(h, pres[..k]);
    assert Digests(h, pres)[k..] == Digests(h, pres[k..]);
  }

  /** What the root of a list of leaf preimages is the digest of. */
  function TopBytes(h: HashFn, pres: seq<Bytes>): Bytes
    requires pres != []
  {
    if |pres| == 1 then pres[0] else RootBytes(h, Digests(h, pres))
  }

  lemma {:induction false} TopBytesDigest(h: HashFn, pres: seq<Bytes>)
    requires pres != []
    ensures h(TopBytes(h, pres)) == Root(h, Digests(h, pres))
  {
  }

  lemma {:induction false} TopBytesPrefix(h: HashFn, pres: seq<Bytes>)
    requires pres != [] && AllLeafBytes(pres)
    ensures TopBytes(h, pres) != []
    ensures TopBytes(h, pres)[0] == if |pres| == 1 then LEAF_PREFIX else NODE_PREFIX
  {
    assert pres[0] in pres;
  }

  lemma {:induction false} EqualTopsEqualHalves(h: HashFn, xs: seq<Bytes>, ys: seq<Bytes>)
    requires |xs| >= 2 && |ys| >= 2 && TopBytes(h, xs) == TopBytes(h, ys)
    ensures var j, k := SplitPoint(|xs|), SplitPoint(|ys|);
            && h(TopBytes(h, xs[..j])) == h(TopBytes(h, ys[..k]))
            && h(TopBytes(h, xs[j..])) == h(TopBytes(h, ys[k..]))
  {
    var j, k := SplitPoint(|xs|), SplitPoint(|ys|);
    DigestsSplit(h, xs, j);
    DigestsSplit(h, ys, k);
    NodeBytesInjective(Root(h, Digests(h, xs[..j])), Root(h, Digests(h, xs[j..])),
                       Root(h, Digests(h, ys[..k])), Root(h, Digests(h, ys[k..])));
    TopBytesDigest(h, xs[..j]);
    TopBytesDigest(h, xs[j..]);
    TopBytesDigest(h, ys[..k]);
    TopBytesDigest(h, ys[k..]);
  }

  /** Compares two lists from the root down and returns the first pair of different preimages. */
  function BindingCollision(h: HashFn, xs: seq<Bytes>, ys: seq<Bytes>): Pair
    requires xs != [] && ys != []
    decreases |xs|
  {
    if TopBytes(h, xs) != TopBytes(h, ys) then
      Pair(TopBytes(h, xs), TopBytes(h, ys))
    else if |xs| == 1 || |ys| == 1 then
      NO_PAIR
    else
      var j, k := SplitPoint(|xs|), SplitPoint(|ys|);
      var left := BindingCollision(h, xs[..j], ys[..k]);
      if Collision(h, left) then left else BindingCollision(h, xs[j..], ys[k..])
  }

  lemma {:induction false} EqualTopsEqualShape(h: HashFn, xs: seq<Bytes>, ys: seq<Bytes>)
    requires xs != [] && ys != [] && AllLeafBytes(xs) && AllLeafBytes(ys) && TopBytes(h, xs) == TopBytes(h, ys)
    ensures |xs| == 1 <==> |ys| == 1
    ensures |xs| == 1 ==> xs == ys
  {
    TopBytesPrefix(h, xs);
    TopBytesPrefix(h, ys);
  }

  lemma {:induction false} HalvesAgree(xs: seq<Bytes>, ys: seq<Bytes>, j: nat, k: nat)
    requires j <= |xs| && k <= |ys| && xs[..j] == ys[..k] && xs[j..] == ys[k..]
    ensures xs == ys
  {
    assert xs == xs[..j] + xs[j..] && ys == ys[..k] + ys[k..];
  }

  lemma {:induction false} TopBinds(h: HashFn, xs: seq<Bytes>, ys: seq<Bytes>)
    requires xs != [] && ys != [] && AllLeafBytes(xs) && AllLeafBytes(ys)
    requires h(TopBytes(h, xs)) == h(TopBytes(h, ys))
    ensures xs == ys || Collision(h, BindingCollision(h, xs, ys))
    decreases |xs|
  {
    if TopBytes(h, xs) == TopBytes(h, ys) {
      EqualTopsEqualShape(h, xs, ys);
      if |xs| > 1 {
        var j, k := SplitPoint(|xs|), SplitPoint(|ys|);
        EqualTopsEqualHalves(h, xs, ys);
        TopBinds(h, xs[..j], ys[..k]);
        TopBinds(h, xs[j..], ys[k..]);
        if xs[..j] == ys[..k] && xs[j..] == ys[k..] {
          HalvesAgree(xs, ys, j, k);
        }
      }
    }
  }

  /** Root binding across lengths: two lists of leaf hashes with one root are the same list, down to
      the bytes that were hashed, or a collision is handed over. */
  lemma {:induction false} RootBinds(h: HashFn, xs: seq<Bytes>, ys: seq<Bytes>)
    requires xs != [] && ys != [] && AllLeafBytes(xs) && AllLeafBytes(ys)
    requires Root(h, Digests(h, xs)) == Root(h, Digests(h, ys))
    ensures xs == ys || Collision(h, BindingCollision(h, xs, ys))
  {
    TopBytesDigest(h, xs);
    TopBytesDigest(h, ys);
    TopBinds(h, xs, ys);
  }

  /** The extractor for proofs checked without a position. */
  function MembershipCollision(h: HashFn, pres: seq<Bytes>, pre: Bytes, proof: seq<ProofStep>): Pair
    requires pres != []
    decreases |proof|
  {
    var last := |proof| - 1;
    var claimed := if proof == [] then pre else StepBytes(Climb(h, h(pre), proof[..last]), proof[last]);
    if claimed != TopBytes(h, pres) then
      Pair(claimed, TopBytes(h, pres))
    else if |pres| == 1 || proof == [] then
      NO_PAIR
    else
      var k := SplitPoint(|pres|);
      if proof[last].side.Left? then
        MembershipCollision(h, pres[k..], pre, proof[..last])
      else
        MembershipCollision(h, pres[..k], pre, proof[..last])
  }

  /** Without index and size a proof still shows membership: the leaf hash is one of the tree's, or a
      collision is handed over. A proof of any length is covered. */
  lemma {:induction false} MembershipSound(h: HashFn, pres: seq<Bytes>, pre: Bytes, proof: seq<ProofStep>)
    requires pres != [] && AllLeafBytes(pres) && LeafBytes(pre)
    requires Verifies(h, h(pre), proof, Root(h, Digests(h, pres)))
    ensures pre in pres || Collision(h, MembershipCollision(h, pres, pre, proof))
    decreases |proof|
  {
    TopBytesDigest(h, pres);
    TopBytesPrefix(h, pres);
    if proof != [] && |pres| > 1 {
      var last, k := |proof| - 1, SplitPoint(|pres|);
      var rest, step := proof[..last], proof[last];
      DigestsSplit(h, pres, k);
      var l, r := Root(h, Digests(h, pres[..k])), Root(h, Digests(h, pres[k..]));
      if StepBytes(Climb(h, h(pre), rest), step) == NodeBytes(l, r) {
        assert step in proof;
        StepReadsNode(Climb(h, h(pre), rest), step, l, r);
        MembershipSound(h, if step.side.Left? then pres[k..] else pres[..k], pre, rest);
      }
    }
  }

  /** A proof accepted at two positions of one tree shows equal leaves there, or a collision. */
  lemma {:induction false} PositionsCannotBeSwapped(h: HashFn, leaves: seq<Hash32>, i: nat, j: nat,
        leaf: Bytes, proof: seq<ProofStep>)
    requires i < |leaves| && j < |leaves| && leaves[i] != leaves[j]
    requires VerifiesAt(h, leaf, proof, Root(h, leaves), i, |leaves|)
    requires VerifiesAt(h, leaf, proof, Root(h, leaves), j, |leaves|)
    ensures || Collision(h, InclusionCollision(h, leaves, i, leaf, proof))
            || Collision(h, InclusionCollision(h, leaves, j, leaf, proof))
  {
    InclusionSound(h, leaves, i, leaf, proof);
    InclusionSound(h, leaves, j, leaf, proof);
  }
}
