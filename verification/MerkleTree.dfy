/** The batch tree as the service keeps it: a list of leaves and a table of subtree roots filled on
    demand, with loops that walk the tree from the root down. */
module MerkleTrees {
  import opened Hashing
  import opened Merkle
  import opened MerkleProofs

  function Reversed<T>(s: seq<T>): (r: seq<T>)
    ensures |r| == |s|
  {
    if s == [] then [] else Reversed(s[1..]) + [s[0]]
  }

  lemma {:induction false} ReversedSnoc<T>(s: seq<T>, x: T)
    ensures Reversed(s + [x]) == [x] + Reversed(s)
  {
    if s != [] {
      assert (s + [x])[1..] == s[1..] + [x];
      ReversedSnoc(s[1..], x);
    }
  }

  lemma {:induction false} MoveToReversed<T>(prefix: seq<T>, x: T, s: seq<T>)
    ensures (prefix + [x]) + Reversed(s) == prefix + Reversed(s + [x])
  {
    ReversedSnoc(s, x);
  }

  /** The root of the leaves from one position up to another. */
  function SpanRoot(h: HashFn, leaves: seq<Hash32>, start: nat, end: nat): Hash32
    requires start < end <= |leaves|
  {
    Root(h, leaves[start..end])
  }

  function SpanPath(h: HashFn, leaves: seq<Hash32>, start: nat, end: nat, index: nat): seq<ProofStep>
    requires start <= index < end <= |leaves|
  {
    Path(h, leaves[start..end], index - start)
  }

  /** The two halves of a span are spans. */
  lemma {:induction false} SpanHalves(leaves: seq<Hash32>, start: nat, end: nat, k: nat)
    requires start + k <= end <= |leaves|
    ensures leaves[start..end][..k] == leaves[start..start + k] && leaves[start..end][k..] == leaves[start + k..end]
  {
  }

  lemma {:induction false} SpanSplits(h: HashFn, leaves: seq<Hash32>, start: nat, end: nat)
    requires start + 1 < end <= |leaves|
    ensures var mid := start + SplitPoint(end - start);
            SpanRoot(h, leaves, start, end) ==
            NodeHash(h, SpanRoot(h, leaves, start, mid), SpanRoot(h, leaves, mid, end))
  {
    SpanHalves(leaves, start, end, SplitPoint(end - start));
  }

  /** One step of the walk from the root, in the reversed order the steps are collected in. */
  lemma {:induction false} WalkLeft(h: HashFn, leaves: seq<Hash32>, start: nat, mid: nat, end: nat, index: nat,
        step: ProofStep, steps: seq<ProofStep>)
    requires start <= index < mid < end <= |leaves| && mid - start == SplitPoint(end - start)
    requires step == ProofStep(SpanRoot(h, leaves, mid, end), Right)
    ensures SpanPath(h, leaves, start, end, index) + Reversed(steps) ==
            SpanPath(h, leaves, start, mid, index) + Reversed(steps + [step])
  {
    SpanHalves(leaves, start, end, mid - start);
    assert SpanPath(h, leaves, start, end, index) == SpanPath(h, leaves, start, mid, index) + [step];
    MoveToReversed(SpanPath(h, leaves, start, mid, index), step, steps);
  }

  lemma {:induction false} WalkRight(h: HashFn, leaves: seq<Hash32>, start: nat, mid: nat, end: nat, index: nat,
        step: ProofStep, steps: seq<ProofStep>)
    requires start < mid <= index < end <= |leaves| && mid - start == SplitPoint(end - start)
    requires step == ProofStep(SpanRoot(h, leaves, start, mid), Left)
    ensures SpanPath(h, leaves, start, end, index) + Reversed(steps) ==
            SpanPath(h, leaves, mid, end, index) + Reversed(steps + [step])
  {
    SpanHalves(leaves, start, end, mid - start);
    assert SpanPath(h, leaves, start, end, index) == SpanPath(h, leaves, mid, end, index) + [step];
    MoveToReversed(SpanPath(h, leaves, mid, end, index), step, steps);
  }

  /** Every memoised root is the root of the leaves between its two positions. */
  ghost predicate MemoAgrees(h: HashFn, leaves: seq<Hash32>, roots: map<(nat, nat), Hash32>) {
    forall span <- roots :: span.0 < span.1 <= |leaves| && roots[span] == SpanRoot(h, leaves, span.0, span.1)
  }

  class MerkleTree {
    const h: HashFn
    const leaves: seq<Hash32>
    var roots: map<(nat, nat), Hash32>

    ghost predicate Valid()
      reads this
    {
      leaves != [] && MemoAgrees(h, leaves, roots)
    }

    constructor (h: HashFn, leaves: seq<Hash32>)
      requires leaves != []
      ensures Valid() && this.h == h && this.leaves == leaves
    {
      this.h := h;
      this.leaves := leaves;
      roots := map[];
    }

    /** Refuses an empty list and any leaf that is not a 32-byte hash. */
    static method Create(h: HashFn, items: seq<Bytes>) returns (r: Result<MerkleTree>)
      ensures r.Ok? <==> items != [] && forall item <- items :: |item| == HASH_SIZE
      ensures r.Ok? ==> fresh(r.value) && r.value.Valid() && r.value.h == h && r.value.leaves == items
    {
      if items == [] {
        return Err(ValueError);
      }
      var checked: seq<Hash32> := [];
      for i := 0 to |items|
        invariant checked == items[..i]
      {
        if |items[i]| != HASH_SIZE {
          assert items[i] in items;
          return Err(ValueError);
        }
        checked := checked + [items[i]];
      }
      var tree := new MerkleTree(h, checked);
      return Ok(tree);
    }

    method SubtreeRoot(start: nat, end: nat) returns (root: Hash32)
      requires Valid() && start < end <= |leaves|
      modifies this`roots
      ensures Valid()
      ensures root == SpanRoot(h, leaves, start, end)
      decreases end - start
    {
      if end - start == 1 {
        return leaves[start];
      }
      if (start, end) in roots {
        return roots[(start, end)];
      }
      var mid := start + SplitPoint(end - start);
      var left := SubtreeRoot(start, mid);
      var right := SubtreeRoot(mid, end);
      SpanSplits(h, leaves, start, end);
      root := NodeHash(h, left, right);
      roots := roots[(start, end) := root];
    }

    method TreeRoot() returns (root: Hash32)
      requires Valid()
      modifies this`roots
      ensures Valid() && root == Root(h, leaves)
    {
      root := SubtreeRoot(0, |leaves|);
      assert leaves[0..|leaves|] == leaves;
    }

    method Proof(index: int) returns (r: Result<seq<ProofStep>>)
      requires Valid()
      modifies this`roots
      ensures Valid()
      ensures r == if 0 <= index < |leaves| then Ok(Path(h, leaves, index)) else Err(IndexError)
    {
      if !(0 <= index < |leaves|) {
        return Err(IndexError);
      }
      var steps: seq<ProofStep> := [];
      var start, end := 0, |leaves|;
      assert leaves[0..|leaves|] == leaves;
      while end - start > 1
        invariant Valid()
        invariant 0 <= start <= index < end <= |leaves|
        invariant Path(h, leaves, index) == SpanPath(h, leaves, start, end, index) + Reversed(steps)
      {
        var mid := start + SplitPoint(end - start);
        if index < mid {
          var sibling := SubtreeRoot(mid, end);
          WalkLeft(h, leaves, start, mid, end, index, ProofStep(sibling, Right), steps);
          steps := steps + [ProofStep(sibling, Right)];
          end := mid;
        } else {
          var sibling := SubtreeRoot(start, mid);
          WalkRight(h, leaves, start, mid, end, index, ProofStep(sibling, Left), steps);
          steps := steps + [ProofStep(sibling, Left)];
          start := mid;
        }
      }
      assert Path(h, leaves, index) == Reversed(steps);
      return Ok(Reversed(steps));
    }
  }

  /** The same steps for the sides alone. */
  lemma {:induction false} SidesLeft(index: nat, half: nat, size: nat, sides: seq<Side>)
    requires index < half < size && half == SplitPoint(size)
    ensures Sides(index, size) + Reversed(sides) == Sides(index, half) + Reversed(sides + [Right])
  {
    MoveToReversed(Sides(index, half), Right, sides);
  }

  lemma {:induction false} SidesRight(index: nat, half: nat, size: nat, sides: seq<Side>)
    requires half <= index < size && 2 <= size && half == SplitPoint(size)
    ensures Sides(index, size) + Reversed(sides) == Sides(index - half, size - half) + Reversed(sides + [Left])
  {
    MoveToReversed(Sides(index - half, size - half), Left, sides);
  }

  /** The sides a proof must have, by the same walk from the root. */
  method ProofSides(index: int, size: int) returns (r: Result<seq<Side>>)
    ensures r == if 0 <= index < size then Ok(Sides(index, size)) else Err(IndexError)
  {
    if !(0 <= index < size) {
      return Err(IndexError);
    }
    var sides: seq<Side> := [];
    var start, end := 0, size;
    while end - start > 1
      invariant 0 <= start <= index < end <= size
      invariant Sides(index, size) == Sides(index - start, end - start) + Reversed(sides)
    {
      var mid := start + SplitPoint(end - start);
      if index < mid {
        SidesLeft(index - start, mid - start, end - start, sides);
        sides := sides + [Right];
        end := mid;
      } else {
        SidesRight(index - start, mid - start, end - start, sides);
        sides := sides + [Left];
        start := mid;
      }
    }
    assert Sides(index, size) == Reversed(sides);
    return Ok(Reversed(sides));
  }

  method RootFromProof(h: HashFn, leaf: Bytes, proof: seq<ProofStep>) returns (r: Result<Bytes>)
    ensures r == if WellFormed(proof) then Ok(Climb(h, leaf, proof)) else Err(ValueError)
  {
    var running := leaf;
    for i := 0 to |proof|
      invariant WellFormed(proof[..i])
      invariant running == Climb(h, leaf, proof[..i])
    {
      var step := proof[i];
      assert step in proof;
      assert proof[..i + 1] == proof[..i] + [step];
      ClimbExtends(h, leaf, proof[..i], step);
      if |step.sibling| != HASH_SIZE {
        return Err(ValueError);
      }
      if step.side.Left? {
        running := NodeHash(h, step.sibling, running);
      } else if step.side.Right? {
        running := NodeHash(h, running, step.sibling);
      } else {
        return Err(ValueError);
      }
    }
    assert proof[..|proof|] == proof;
    return Ok(running);
  }

  datatype Option<+T> = None | Some(value: T)

  /** Passing only one of index and size raises; every other malformed input is simply not accepted. */
  method VerifyInclusion(h: HashFn, leaf: Bytes, proof: seq<ProofStep>, root: Bytes, index: Option<int>,
        size: Option<int>)
    returns (r: Result<bool>)
    ensures r.Err? <==> index.Some? != size.Some?
    ensures index.None? && size.None? ==> r == Ok(Verifies(h, leaf, proof, root))
    ensures index.Some? && size.Some? ==> r == Ok(VerifiesAt(h, leaf, proof, root, index.value, size.value))
  {
    if index.None? != size.None? {
      return Err(ValueError);
    }
    if index.Some? && size.Some? {
      var sides := ProofSides(index.value, size.value);
      if sides.Err? || SidesOf(proof) != sides.value {
        return Ok(false);
      }
    }
    var climbed := RootFromProof(h, leaf, proof);
    return Ok(climbed.Ok? && climbed.value == root);
  }

  /** A tree used from scratch: its own proofs are accepted at their position, and whatever is
      accepted at a position is the leaf there or comes with a collision. */
  method RoundTrip(h: HashFn, leaves: seq<Hash32>, index: nat, leaf: Bytes, claim: seq<ProofStep>)
    returns (own: Result<bool>, other: Result<bool>)
    requires index < |leaves|
    ensures own == Ok(true)
    ensures other == Ok(true) ==>
            leaf == leaves[index] || Collision(h, InclusionCollision(h, leaves, index, leaf, claim))
  {
    var tree := new MerkleTree(h, leaves);
    var root := tree.TreeRoot();
    var proof := tree.Proof(index);
    PathVerifies(h, leaves, index);
    own := VerifyInclusion(h, leaves[index], proof.value, root, Some(index), Some(|leaves|));
    other := VerifyInclusion(h, leaf, claim, root, Some(index), Some(|leaves|));
    if other == Ok(true) {
      InclusionSound(h, leaves, index, leaf, claim);
    }
  }
}
