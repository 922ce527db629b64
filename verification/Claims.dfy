/** Which payout attempts an executor run claims: the oldest ones whose outcome is unknown, passing over
    rows another run has locked. */
module Claims {
  import opened Domain
  import opened Market

  function CreatedAt(cases: seq<Case>, k: Claim): Time
    requires Claimable(cases, k)
  {
    cases[k.id].attempts[k.attempt].createdAt
  }

  predicate AllClaimable(cases: seq<Case>, claims: seq<Claim>) {
    forall k <- claims :: Claimable(cases, k)
  }

  predicate Eligible(cases: seq<Case>, locked: set<Claim>, k: Claim) {
    Claimable(cases, k) && k !in locked
  }

  /** Oldest first. */
  predicate ByAge(cases: seq<Case>, claims: seq<Claim>)
    requires AllClaimable(cases, claims)
  {
    forall i, j :: 0 <= i < j < |claims| ==> CreatedAt(cases, claims[i]) <= CreatedAt(cases, claims[j])
  }

  predicate Distinct(claims: seq<Claim>) {
    forall i, j :: 0 <= i < j < |claims| ==> claims[i] != claims[j]
  }

  function Insert(cases: seq<Case>, k: Claim, claims: seq<Claim>): (r: seq<Claim>)
    requires Claimable(cases, k) && AllClaimable(cases, claims)
    ensures AllClaimable(cases, r) && |r| == |claims| + 1
    ensures forall x :: x in r <==> x == k || x in claims
  {
    if claims == [] then [k]
    else if CreatedAt(cases, claims[0]) <= CreatedAt(cases, k) then [claims[0]] + Insert(cases, k, claims[1..])
    else [k] + claims
  }

  lemma {:induction false} InsertKeepsOrder(cases: seq<Case>, k: Claim, claims: seq<Claim>)
    requires Claimable(cases, k) && AllClaimable(cases, claims) && ByAge(cases, claims)
    ensures ByAge(cases, Insert(cases, k, claims))
  {
    if claims != [] && CreatedAt(cases, claims[0]) <= CreatedAt(cases, k) {
      var tail := Insert(cases, k, claims[1..]);
      InsertKeepsOrder(cases, k, claims[1..]);
      forall x | x in tail
        ensures CreatedAt(cases, claims[0]) <= CreatedAt(cases, x)
      {
        if x != k {
          var i :| 0 <= i < |claims[1..]| && claims[1..][i] == x;
          assert claims[i + 1] == x;
        }
      }
    }
  }

  lemma {:induction false} InsertKeepsDistinct(cases: seq<Case>, k: Claim, claims: seq<Claim>)
    requires Claimable(cases, k) && AllClaimable(cases, claims) && Distinct(claims) && k !in claims
    ensures Distinct(Insert(cases, k, claims))
  {
    if claims != [] {
      InsertKeepsDistinct(cases, k, claims[1..]);
      assert claims[0] !in claims[1..];
    }
  }

  /** Distinct unlocked attempts with unknown outcome, oldest first, at most the batch, and nothing left
      out that is older than what was claimed or would still fit. */
  ghost predicate OldestBatch(cases: seq<Case>, claims: seq<Claim>, batch: int, locked: set<Claim>) {
    && AllClaimable(cases, claims) && Distinct(claims) && ByAge(cases, claims)
    && |claims| <= (if batch > 0 then batch else 0)
    && (forall k <- claims :: k !in locked)
    && (forall k: Claim :: Eligible(cases, locked, k) && k !in claims ==>
         |claims| >= batch && forall c <- claims :: CreatedAt(cases, c) <= CreatedAt(cases, k))
  }

  lemma {:induction false} OldestAreValid(cases: seq<Case>, claims: seq<Claim>, batch: int, locked: set<Claim>)
    requires OldestBatch(cases, claims, batch, locked) && batch >= 0
    ensures ValidClaims(cases, claims, batch)
  {
    assert forall i :: 0 <= i < |claims| ==> claims[i] in claims;
  }

  /** The front of a full sorted list is the oldest batch. */
  lemma {:induction false} FrontIsOldest(cases: seq<Case>, all: seq<Claim>, n: nat, batch: int, locked: set<Claim>)
    requires AllClaimable(cases, all) && Distinct(all) && ByAge(cases, all)
    requires forall k: Claim :: k in all <==> Eligible(cases, locked, k)
    requires n == (if batch <= 0 then 0 else if batch < |all| then batch else |all|)
    ensures OldestBatch(cases, all[..n], batch, locked)
  {
    var front := all[..n];
    assert forall k <- front :: k in all;
    assert forall x :: 0 <= x < n ==> front[x] == all[x];
    forall k: Claim | Eligible(cases, locked, k) && k !in front
      ensures |front| >= batch && forall c <- front :: CreatedAt(cases, c) <= CreatedAt(cases, k)
    {
      var j :| 0 <= j < |all| && all[j] == k;
      forall c | c in front
        ensures CreatedAt(cases, c) <= CreatedAt(cases, k)
      {
        var i :| 0 <= i < n && front[i] == c;
        assert all[i] == c && i < j;
      }
    }
  }

  /** One case's eligible attempts join the list. */
  method AddCase(cases: seq<Case>, id: TxId, locked: set<Claim>, found: seq<Claim>) returns (r: seq<Claim>)
    requires id < |cases| && AllClaimable(cases, found) && Distinct(found) && ByAge(cases, found)
    requires forall k <- found :: k.id < id
    ensures AllClaimable(cases, r) && Distinct(r) && ByAge(cases, r)
    ensures forall k: Claim :: k in r <==> k in found || (k.id == id && Eligible(cases, locked, k))
  {
    r := found;
    for i := 0 to |cases[id].attempts|
      invariant AllClaimable(cases, r) && Distinct(r) && ByAge(cases, r)
      invariant forall k: Claim :: k in r <==> k in found || (k.id == id && k.attempt < i && Eligible(cases, locked, k))
    {
      var k := Claim(id, i);
      if cases[id].attempts[i].outcome.Unknown? && k !in locked {
        InsertKeepsOrder(cases, k, r);
        InsertKeepsDistinct(cases, k, r);
        r := Insert(cases, k, r);
      }
    }
  }

  /** The claiming query: unknown outcomes, oldest first, rows locked elsewhere skipped. */
  method SelectClaims(cases: seq<Case>, batch: int, locked: set<Claim>) returns (claims: seq<Claim>)
    ensures OldestBatch(cases, claims, batch, locked)
  {
    var all: seq<Claim> := [];
    for id := 0 to |cases|
      invariant AllClaimable(cases, all) && Distinct(all) && ByAge(cases, all)
      invariant forall k: Claim :: k in all <==> k.id < id && Eligible(cases, locked, k)
    {
      all := AddCase(cases, id, locked, all);
    }
    var n := if batch <= 0 then 0 else if batch < |all| then batch else |all|;
    FrontIsOldest(cases, all, n, batch, locked);
    claims := all[..n];
  }
}
