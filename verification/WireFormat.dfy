/** The bytes of leaves, nodes and roots, written out (section 2.1 of RFC 6962, with a salt and a predecessor in
    each leaf). */
module WireFormat {
  import opened Hashing
  import opened Unicode
  import opened Merkle
  import opened Chain

  lemma {:induction false} ZeroIs()
    ensures |ZeroHash()| == 32 && forall i :: 0 <= i < 32 ==> ZeroHash()[i] == 0
  {
  }

  /** A leaf digests the byte 0x00, the salt, the previous leaf and the text, in this order. */
  lemma {:induction false} LeafIs(h: HashFn, salt: Bytes, prev: Bytes, payload: Text)
    ensures LeafHash(h, salt, prev, payload) ==
            if |salt| == 32 && |prev| == 32 && Valid(payload) then Ok(h([0] + salt + prev + Utf8(payload)))
            else Err(ValueError)
  {
  }

  /** A node digests the byte 0x01, its left child and its right child. The left child covers the largest power
      of two of the leaves that leaves some for the right one. */
  lemma {:induction false} RootIs(h: HashFn, leaves: seq<Hash32>)
    requires leaves != []
    ensures |leaves| == 1 ==> Root(h, leaves) == leaves[0]
    ensures |leaves| > 1 ==>
              exists k, e: nat :: 0 < k < |leaves| && k == Pow2(e) && 2 * k >= |leaves|
                && Root(h, leaves) == h([1] + Root(h, leaves[..k]) + Root(h, leaves[k..]))
  {
    if |leaves| > 1 {
      var k := SplitPoint(|leaves|);
      assert k == Pow2(BitLength(|leaves| - 1) - 1);
      assert Root(h, leaves) == h([1] + Root(h, leaves[..k]) + Root(h, leaves[k..]));
    }
  }

  lemma {:induction false} PowersAre(e: nat)
    ensures Pow2(0) == 1 && Pow2(e + 1) == 2 * Pow2(e)
  {
  }

  /** A proof step's side says where the sibling stands. */
  lemma {:induction false} StepIs(running: Bytes, sibling: Bytes)
    ensures StepBytes(running, ProofStep(sibling, Left)) == [1] + sibling + running
    ensures StepBytes(running, ProofStep(sibling, Right)) == [1] + running + sibling
  {
  }

  /** A proof is climbed from the leaf up, its first step first. */
  lemma {:induction false} ClimbIs(h: HashFn, leaf: Bytes, step: ProofStep, above: seq<ProofStep>)
    ensures Climb(h, leaf, []) == leaf
    ensures Climb(h, leaf, [step] + above) == Climb(h, h(StepBytes(leaf, step)), above)
  {
    if above == [] {
      assert [step] + above == [step] && [step][..0] == [];
    } else {
      var proof, last := [step] + above, |above| - 1;
      ClimbIs(h, leaf, step, above[..last]);
      assert proof[..|proof| - 1] == [step] + above[..last];
    }
  }
}
