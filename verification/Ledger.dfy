/** The double-entry ledger: balanced movements, each posted at most once per idempotency key. Amounts
    are cents. */
module Ledger {

  datatype Side = Debit | Credit

  datatype Account =
    | EscrowHeld | BuyerClearing | SellerPayable | BuyerRefundable | NoAccount | OtherAccount(code: string)

  /** Idempotency keys by the ids their texts are built from; OtherKey is any other non-blank text. */
  datatype Key =
    | BlankKey
    | CallbackFunding(id: nat)
    | EconfirmFunding(id: nat)
    | RepairFunding(id: nat)
    | Outbox(id: nat, attempt: nat)
    | OtherKey(text: string)

  datatype LedgerEntry = LedgerEntry(escrow: nat, key: Key, account: Account, side: Side, amount: int)

  datatype Movement = Movement(escrow: nat, key: Key, amount: int, debit: Account, credit: Account)

  datatype Error = Validation | Conflict | Unbalanced

  datatype PostResult = Posted | Replayed | Refused(error: Error)

  type Entries = seq<LedgerEntry>

  function EntriesUnder(entries: Entries, key: Key): Entries {
    if entries == [] then []
    else
      var last := entries[|entries| - 1];
      EntriesUnder(entries[..|entries| - 1], key) + if last.key == key then [last] else []
  }

  function Total(entries: Entries, side: Side): int {
    if entries == [] then 0
    else
      var last := entries[|entries| - 1];
      Total(entries[..|entries| - 1], side) + if last.side == side then last.amount else 0
  }

  predicate Balanced(entries: Entries) {
    Total(entries, Debit) == Total(entries, Credit)
  }

  predicate Used(entries: Entries, key: Key) {
    exists i :: 0 <= i < |entries| && entries[i].key == key
  }

  /** What a movement is refused for before the ledger is looked at. */
  predicate Acceptable(m: Movement) {
    !m.key.BlankKey? && m.amount > 0 && !m.debit.NoAccount? && !m.credit.NoAccount? && m.debit != m.credit
  }

  function Legs(m: Movement): Entries {
    [LedgerEntry(m.escrow, m.key, m.debit, Debit, m.amount),
     LedgerEntry(m.escrow, m.key, m.credit, Credit, m.amount)]
  }

  function PostOutcome(entries: Entries, m: Movement): PostResult {
    if !Acceptable(m) then Refused(Validation)
    else
      var found := EntriesUnder(entries, m.key);
      if found == [] then Posted
      else if exists e <- found :: e.escrow != m.escrow then Refused(Conflict)
      else if !Balanced(found) then Refused(Unbalanced)
      else Replayed
  }

  /** The ledger after post_movement. */
  function Post(entries: Entries, m: Movement): Entries {
    if PostOutcome(entries, m).Posted? then entries + Legs(m) else entries
  }

  /** Money in and out of an escrow's held account. */
  function Held(entries: Entries, escrow: nat, side: Side): int {
    if entries == [] then 0
    else
      var last := entries[|entries| - 1];
      Held(entries[..|entries| - 1], escrow, side) +
      if last.escrow == escrow && last.account.EscrowHeld? && last.side == side then last.amount else 0
  }

  function HeldBalance(entries: Entries, escrow: nat): int {
    Held(entries, escrow, Debit) - Held(entries, escrow, Credit)
  }

  /** What one account of an escrow has on one side. */
  function TotalIn(entries: Entries, escrow: nat, account: Account, side: Side): int {
    if entries == [] then 0
    else
      var last := entries[|entries| - 1];
      TotalIn(entries[..|entries| - 1], escrow, account, side) +
      if last.escrow == escrow && last.account == account && last.side == side then last.amount else 0
  }

  /** Under every key the entries balance and belong to one escrow, and amounts are positive. */
  ghost predicate Sound(entries: Entries) {
    && (forall i :: 0 <= i < |entries| ==> entries[i].amount > 0)
    && (forall key :: Balanced(EntriesUnder(entries, key)))
    && (forall i, j :: 0 <= i < |entries| && 0 <= j < |entries| && entries[i].key == entries[j].key ==>
         entries[i].escrow == entries[j].escrow)
  }

  lemma {:induction false} NothingIsSound()
    ensures Sound([])
  {
    forall key
      ensures Balanced(EntriesUnder([], key))
    {
    }
  }

  // ----- posting

  lemma {:induction false} UnderMembers(entries: Entries, key: Key)
    ensures forall e :: e in EntriesUnder(entries, key) <==> e in entries && e.key == key
  {
    if entries != [] {
      UnderMembers(entries[..|entries| - 1], key);
      assert entries == entries[..|entries| - 1] + [entries[|entries| - 1]];
    }
  }

  lemma {:induction false} UnusedIsEmpty(entries: Entries, key: Key)
    ensures EntriesUnder(entries, key) == [] <==> !Used(entries, key)
  {
    UnderMembers(entries, key);
    if EntriesUnder(entries, key) != [] {
      assert EntriesUnder(entries, key)[0] in entries;
    }
    if Used(entries, key) {
      var i :| 0 <= i < |entries| && entries[i].key == key;
      assert entries[i] in EntriesUnder(entries, key);
    }
  }

  lemma {:induction false} UnderSnoc(entries: Entries, e: LedgerEntry, key: Key)
    ensures EntriesUnder(entries + [e], key) == EntriesUnder(entries, key) + if e.key == key then [e] else []
  {
    assert (entries + [e])[..|entries|] == entries;
  }

  lemma {:induction false} HeldSnoc(entries: Entries, e: LedgerEntry, escrow: nat, side: Side)
    ensures Held(entries + [e], escrow, side) == Held(entries, escrow, side) +
            if e.escrow == escrow && e.account.EscrowHeld? && e.side == side then e.amount else 0
  {
    assert (entries + [e])[..|entries|] == entries;
  }

  lemma {:induction false} AppendLegs(entries: Entries, m: Movement)
    ensures entries + Legs(m) == (entries + [Legs(m)[0]]) + [Legs(m)[1]]
  {
  }

  /** What a new movement does to the held account of any escrow. */
  lemma {:induction false} PostedHeld(entries: Entries, m: Movement, escrow: nat)
    requires m.debit != m.credit
    ensures Held(entries + Legs(m), escrow, Debit) == Held(entries, escrow, Debit) +
            if m.escrow == escrow && m.debit.EscrowHeld? then m.amount else 0
    ensures Held(entries + Legs(m), escrow, Credit) == Held(entries, escrow, Credit) +
            if m.escrow == escrow && m.credit.EscrowHeld? then m.amount else 0
  {
    AppendLegs(entries, m);
    var a, b := Legs(m)[0], Legs(m)[1];
    HeldSnoc(entries, a, escrow, Debit);
    HeldSnoc(entries + [a], b, escrow, Debit);
    HeldSnoc(entries, a, escrow, Credit);
    HeldSnoc(entries + [a], b, escrow, Credit);
  }

  lemma {:induction false} TotalInSnoc(entries: Entries, e: LedgerEntry, escrow: nat, account: Account, side: Side)
    ensures TotalIn(entries + [e], escrow, account, side) == TotalIn(entries, escrow, account, side) +
            if e.escrow == escrow && e.account == account && e.side == side then e.amount else 0
  {
    assert (entries + [e])[..|entries|] == entries;
  }

  lemma {:induction false} HeldIsTotal(entries: Entries, escrow: nat, side: Side)
    ensures Held(entries, escrow, side) == TotalIn(entries, escrow, EscrowHeld, side)
  {
    if entries != [] {
      HeldIsTotal(entries[..|entries| - 1], escrow, side);
    }
  }

  /** A new movement debits its debit account and credits its credit account, and no other. */
  lemma {:induction false} PostedTotals(entries: Entries, m: Movement, escrow: nat, account: Account)
    ensures TotalIn(entries + Legs(m), escrow, account, Debit) == TotalIn(entries, escrow, account, Debit) +
            if m.escrow == escrow && m.debit == account then m.amount else 0
    ensures TotalIn(entries + Legs(m), escrow, account, Credit) == TotalIn(entries, escrow, account, Credit) +
            if m.escrow == escrow && m.credit == account then m.amount else 0
  {
    AppendLegs(entries, m);
    var a, b := Legs(m)[0], Legs(m)[1];
    TotalInSnoc(entries, a, escrow, account, Debit);
    TotalInSnoc(entries + [a], b, escrow, account, Debit);
    TotalInSnoc(entries, a, escrow, account, Credit);
    TotalInSnoc(entries + [a], b, escrow, account, Credit);
  }

  lemma {:induction false} PostedUnder(entries: Entries, m: Movement, key: Key)
    ensures EntriesUnder(entries + Legs(m), key) == EntriesUnder(entries, key) + if key == m.key then Legs(m) else []
  {
    AppendLegs(entries, m);
    UnderSnoc(entries, Legs(m)[0], key);
    UnderSnoc(entries + [Legs(m)[0]], Legs(m)[1], key);
  }

  lemma {:induction false} TotalSnoc(entries: Entries, e: LedgerEntry, side: Side)
    ensures Total(entries + [e], side) == Total(entries, side) + if e.side == side then e.amount else 0
  {
    assert (entries + [e])[..|entries|] == entries;
  }

  lemma {:induction false} LegsBalance(m: Movement)
    ensures Balanced(Legs(m))
  {
    var a, b := Legs(m)[0], Legs(m)[1];
    assert Legs(m) == ([] + [a]) + [b];
    TotalSnoc([], a, Debit);
    TotalSnoc([], a, Credit);
    TotalSnoc([] + [a], b, Debit);
    TotalSnoc([] + [a], b, Credit);
  }

  /** Whatever is posted, every key's entries keep balancing and keep to one escrow. */
  lemma {:induction false} PostKeepsBalance(entries: Entries, m: Movement, key: Key)
    requires Balanced(EntriesUnder(entries, key)) && !Used(entries, m.key)
    ensures Balanced(EntriesUnder(entries + Legs(m), key))
  {
    PostedUnder(entries, m, key);
    if key == m.key {
      UnusedIsEmpty(entries, key);
      LegsBalance(m);
      assert [] + Legs(m) == Legs(m);
    } else {
      assert EntriesUnder(entries, key) + [] == EntriesUnder(entries, key);
    }
  }

  lemma {:induction false} PostKeepsSound(entries: Entries, m: Movement)
    requires Sound(entries)
    ensures Sound(Post(entries, m))
  {
    if PostOutcome(entries, m).Posted? {
      var after := entries + Legs(m);
      UnusedIsEmpty(entries, m.key);
      forall key
        ensures Balanced(EntriesUnder(after, key))
      {
        assert Balanced(EntriesUnder(entries, key));
        PostKeepsBalance(entries, m, key);
      }
      assert forall i :: |entries| <= i < |after| ==> after[i] == Legs(m)[i - |entries|];
    }
  }

  /** On a sound ledger an acceptable movement is posted exactly when its key is unused, replayed when
      its escrow used the key before, and refused when another escrow did. Amounts play no part in it:
      a replay with another amount is accepted and posts nothing. */
  lemma {:induction false} PostDecision(entries: Entries, m: Movement)
    requires Sound(entries) && Acceptable(m)
    ensures PostOutcome(entries, m).Posted? <==> !Used(entries, m.key)
    ensures PostOutcome(entries, m).Replayed? <==>
              Used(entries, m.key) && forall e <- entries :: e.key == m.key ==> e.escrow == m.escrow
    ensures PostOutcome(entries, m).Refused? ==> PostOutcome(entries, m).error.Conflict?
  {
    UnusedIsEmpty(entries, m.key);
    UnderMembers(entries, m.key);
    assert Balanced(EntriesUnder(entries, m.key));
  }

  /** What a movement is refused for outright, and what a posted one adds: one debit and one credit. */
  lemma {:induction false} PostingIs(entries: Entries, m: Movement)
    ensures PostOutcome(entries, m) == Refused(Validation) <==>
            m.key == BlankKey || m.amount <= 0 || m.debit == NoAccount || m.credit == NoAccount || m.debit == m.credit
    ensures PostOutcome(entries, m).Posted? ==>
              Post(entries, m) == entries + [LedgerEntry(m.escrow, m.key, m.debit, Debit, m.amount),
                                             LedgerEntry(m.escrow, m.key, m.credit, Credit, m.amount)]
    ensures !PostOutcome(entries, m).Posted? ==> Post(entries, m) == entries
  {
  }

  lemma {:induction false} PostedUses(entries: Entries, m: Movement, key: Key)
    ensures Used(entries + Legs(m), key) <==> Used(entries, key) || key == m.key
  {
    var after := entries + Legs(m);
    if Used(entries, key) {
      var i :| 0 <= i < |entries| && entries[i].key == key;
      assert after[i].key == key;
    }
    assert after[|entries|].key == m.key;
    if Used(after, key) && key != m.key {
      var i :| 0 <= i < |after| && after[i].key == key;
      assert i < |entries|;
    }
  }

  // ----- the code

  class EscrowLedger {
    var entries: Entries

    constructor ()
      ensures entries == [] && Sound(entries)
    {
      entries := [];
    }

    static method IsBalanced(list: Entries) returns (r: bool)
      ensures r == Balanced(list)
    {
      var debits, credits := 0, 0;
      for i := 0 to |list|
        invariant debits == Total(list[..i], Debit) && credits == Total(list[..i], Credit)
      {
        assert list[..i + 1][..i] == list[..i];
        match list[i].side
        case Debit => debits := debits + list[i].amount;
        case Credit => credits := credits + list[i].amount;
      }
      assert list[..|list|] == list;
      return debits == credits;
    }

    method EntriesByKey(key: Key) returns (found: Entries)
      ensures found == EntriesUnder(entries, key)
    {
      found := [];
      for i := 0 to |entries|
        invariant found == EntriesUnder(entries[..i], key)
      {
        assert entries[..i + 1][..i] == entries[..i];
        if entries[i].key == key {
          found := found + [entries[i]];
        }
      }
      assert entries[..|entries|] == entries;
    }

    method PostMovement(m: Movement) returns (r: PostResult)
      modifies this
      ensures r == PostOutcome(old(entries), m)
      ensures entries == Post(old(entries), m)
      ensures old(Sound(entries)) ==> Sound(entries)
    {
      if Sound(entries) {
        PostKeepsSound(entries, m);
      }
      if m.key.BlankKey? || m.amount <= 0 || m.debit.NoAccount? || m.credit.NoAccount? || m.debit == m.credit {
        return Refused(Validation);
      }
      var found := EntriesByKey(m.key);
      if found != [] {
        for i := 0 to |found|
          invariant forall k :: 0 <= k < i ==> found[k].escrow == m.escrow
        {
          if found[i].escrow != m.escrow {
            assert found[i] in found;
            return Refused(Conflict);
          }
        }
        var fine := IsBalanced(found);
        return if fine then Replayed else Refused(Unbalanced);
      }
      entries := entries + Legs(m);
      return Posted;
    }

    method HeldBalanceOf(escrow: nat) returns (balance: int)
      ensures balance == HeldBalance(entries, escrow)
    {
      balance := 0;
      for i := 0 to |entries|
        invariant balance == HeldBalance(entries[..i], escrow)
      {
        assert entries[..i + 1][..i] == entries[..i];
        var e := entries[i];
        if e.escrow == escrow && e.account.EscrowHeld? {
          match e.side
          case Debit => balance := balance + e.amount;
          case Credit => balance := balance - e.amount;
        }
      }
      assert entries[..|entries|] == entries;
    }
  }
}
