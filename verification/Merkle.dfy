/** The tree of section 2.1 of RFC 6962, its audit paths (section 2.1.1) and their verifier, as plain
    recursive definitions. The memoised, loop-based code is in MerkleTree.dfy. */
module Merkle {
  import opened Hashing

  /** Python's int.bit_length for non-negative numbers. */
  function BitLength(n: nat): nat {
    if n == 0 then 0 else 1 + BitLength(n / 2)
  }

  function Pow2(k: nat): (p: nat)
    ensures p >= 1
  {
    if k == 0 then 1 else 2 * Pow2(k - 1)
  }

  lemma {:induction false} BitLengthBounds(n: nat)
    requires n > 0
    ensures BitLength(n) >= 1
    ensures Pow2(BitLength(n) - 1) <= n < Pow2(BitLength(n))
  {
    if n == 1 {
      assert BitLength(1) == 1 + BitLength(0);
      assert Pow2(1) == 2 * Pow2(0);
    } else {
      BitLengthBounds(n / 2);
      var k := BitLength(n / 2);
      assert Pow2(k + 1) == 2 * Pow2(k);
      assert Pow2(k) == 2 * Pow2(k - 1);
    }
  }

  /** Where a tree of the given size splits. */
  function SplitPoint(size: nat): (k: nat)
    requires size >= 2
    ensures 1 <= k < size <= 2 * k
  {
    BitLengthBounds(size - 1);
    assert Pow2(BitLength(size - 1)) == 2 * Pow2(BitLength(size - 1) - 1);
    Pow2(BitLength(size - 1) - 1)
  }

  lemma {:induction false} Pow2Monotone(j: nat, k: nat)
    requires j <= k
    ensures Pow2(j) <= Pow2(k)
    decreases k - j
  {
    if j < k {
      Pow2Monotone(j, k - 1);
    }
  }

  /** The split point is the largest power of two strictly below the size. */
  lemma {:induction false} SplitPointIsLargestPowerBelow(size: nat, j: nat)
    requires size >= 2
    ensures exists e: nat :: SplitPoint(size) == Pow2(e)
    ensures Pow2(j) < size <==> Pow2(j) <= SplitPoint(size)
  {
    var e := BitLength(size - 1) - 1;
    assert SplitPoint(size) == Pow2(e);
    if j <= e {
      Pow2Monotone(j, e);
    } else {
      Pow2Monotone(e + 1, j);
    }
  }

  /** What the digest of an inner node is taken over. */
  function NodeBytes(left: Bytes, right: Bytes): Bytes {
    [NODE_PREFIX] + left + right
  }

  function NodeHash(h: HashFn, left: Bytes, right: Bytes): Hash32 {
    h(NodeBytes(left, right))
  }

  /** The Merkle tree hash of section 2.1: the leaves are digests already, so one leaf is its own root. */
  function Root(h: HashFn, leaves: seq<Hash32>): Hash32
    requires leaves != []
  {
    if |leaves| == 1 then
      leaves[0]
    else
      var k := SplitPoint(|leaves|);
      NodeHash(h, Root(h, leaves[..k]), Root(h, leaves[k..]))
  }

  /** Where a sibling sits relative to the running hash; any other text is Unknown. */
  datatype Side = Left | Right | Unknown

  datatype ProofStep = ProofStep(sibling: Bytes, side: Side)

  /** The audit path of section 2.1.1, from the leaf upwards. */
  function Path(h: HashFn, leaves: seq<Hash32>, index: nat): seq<ProofStep>
    requires index < |leaves|
    decreases |leaves|
  {
    if |leaves| == 1 then
      []
    else
      var k := SplitPoint(|leaves|);
      if index < k then
        Path(h, leaves[..k], index) + [ProofStep(Root(h, leaves[k..]), Right)]
      else
        Path(h, leaves[k..], index - k) + [ProofStep(Root(h, leaves[..k]), Left)]
  }

  /** The sides an audit path for a position must have. */
  function Sides(index: nat, size: nat): seq<Side>
    requires index < size
    decreases size
  {
    if size == 1 then
      []
    else
      var k := SplitPoint(size);
      if index < k then Sides(index, k) + [Right] else Sides(index - k, size - k) + [Left]
  }

  function SidesOf(proof: seq<ProofStep>): seq<Side> {
    seq(|proof|, i requires 0 <= i < |proof| => proof[i].side)
  }

  /** A step root_from_proof can apply: a 32-byte sibling on a known side. */
  predicate WellFormed(proof: seq<ProofStep>) {
    forall step <- proof :: |step.sibling| == HASH_SIZE && !step.side.Unknown?
  }

  /** What one step digests. */
  function StepBytes(running: Bytes, step: ProofStep): Bytes {
    if step.side.Left? then NodeBytes(step.sibling, running) else NodeBytes(running, step.sibling)
  }

  /** The hash a well-formed proof leads to. The last step is the one just below the root. */
  function Climb(h: HashFn, leaf: Bytes, proof: seq<ProofStep>): Bytes {
    if proof == [] then
      leaf
    else
      var last := |proof| - 1;
      h(StepBytes(Climb(h, leaf, proof[..last]), proof[last]))
  }

  /** The meaning of verify_inclusion once its arguments pass the both-or-neither check. */
  predicate Verifies(h: HashFn, leaf: Bytes, proof: seq<ProofStep>, root: Bytes) {
    WellFormed(proof) && Climb(h, leaf, proof) == root
  }

  predicate VerifiesAt(h: HashFn, leaf: Bytes, proof: seq<ProofStep>, root: Bytes, index: int, size: int) {
    0 <= index < size && SidesOf(proof) == Sides(index, size) && Verifies(h, leaf, proof, root)
  }
}
