/** How a case and the ledger agree, and that every step of the marketplace keeps it so. */
module MarketInvariant {
  import opened Domain
  import opened Payouts
  import opened Ledger
  import opened CaseInvariant
  import opened Market

  // ----- a case against the ledger

  /** Money the rail confirmed, by direction. */
  function PaidBy(attempts: seq<Attempt>, kind: Kind): int {
    if attempts == [] then 0
    else
      var last := attempts[|attempts| - 1];
      PaidBy(attempts[..|attempts| - 1], kind) + if last.outcome.Succeeded? && last.kind == kind then last.amount else 0
  }

  function FundedOf(c: Case): int {
    if c.escrow.Some? then c.escrow.value.funded else 0
  }

  function PaidOutOf(c: Case): int {
    if c.escrow.Some? then c.escrow.value.released + c.escrow.value.refunded else 0
  }

  /** The held account's debits are the funding and its credits the payouts; the escrow's counters are
      what the rail confirmed, and never exceed the funding. */
  predicate Conserves(id: TxId, c: Case, entries: Entries) {
    && Held(entries, id, Debit) == FundedOf(c)
    && Held(entries, id, Credit) == PaidOutOf(c)
    && (c.escrow.Some? ==>
         var e := c.escrow.value;
         && e.released == PaidBy(c.attempts, Release) && e.refunded == PaidBy(c.attempts, Refund)
         && 0 <= e.released && 0 <= e.refunded && e.released + e.refunded <= e.funded
         && (e.funded == 0 || e.funded == e.total))
  }

  /** Which of a case's idempotency keys the ledger may hold. */
  ghost predicate KeysOk(id: TxId, c: Case, entries: Entries) {
    && (forall i: nat :: Used(entries, Outbox(id, i)) ==> i < |c.attempts| && c.attempts[i].outcome.Succeeded?)
    && (Used(entries, CallbackFunding(id)) || Used(entries, EconfirmFunding(id)) ==>
         c.escrow.Some? && c.escrow.value.funded == c.escrow.value.total)
    && !Used(entries, RepairFunding(id))
  }

  /** The other accounts of the escrow: what the seller was paid, what the buyer was paid back, and what was
      paid in. */
  predicate BooksOk(id: TxId, c: Case, entries: Entries) {
    && TotalIn(entries, id, SellerPayable, Debit) == (if c.escrow.Some? then c.escrow.value.released else 0)
    && TotalIn(entries, id, BuyerRefundable, Debit) == (if c.escrow.Some? then c.escrow.value.refunded else 0)
    && TotalIn(entries, id, BuyerClearing, Credit) == (if c.escrow.Some? then c.escrow.value.funded else 0)
  }

  ghost predicate MoneyOk(id: TxId, c: Case, entries: Entries) {
    Conserves(id, c, entries) && KeysOk(id, c, entries) && BooksOk(id, c, entries)
  }

  /** The escrow a key's text names. */
  predicate KeyOf(key: Key, id: nat) {
    match key
    case CallbackFunding(i) => i == id
    case EconfirmFunding(i) => i == id
    case RepairFunding(i) => i == id
    case Outbox(i, _) => i == id
    case _ => false
  }

  /** The accounts and sides that entries use: the held account on both, and each other one on its own. */
  predicate BookedTo(e: LedgerEntry) {
    match e.account
    case EscrowHeld => true
    case BuyerClearing => e.side.Credit?
    case SellerPayable => e.side.Debit?
    case BuyerRefundable => e.side.Debit?
    case _ => false
  }

  /** Every ledger row belongs to an existing escrow and to the one its key names, and is in its place. */
  ghost predicate NoStrays(w: World) {
    forall i :: 0 <= i < |w.entries| ==>
      && w.entries[i].escrow < |w.cases| && KeyOf(w.entries[i].key, w.entries[i].escrow) && BookedTo(w.entries[i])
  }

  /** A movement of one escrow, under its own key and on the accounts that movements use. */
  predicate OwnMovement(id: TxId, m: Movement) {
    && m.escrow == id && KeyOf(m.key, id)
    && (m.debit, m.credit) in
       {(EscrowHeld, BuyerClearing), (SellerPayable, EscrowHeld), (BuyerRefundable, EscrowHeld)}
  }

  ghost predicate CaseOk(w: World, id: TxId)
    requires id < |w.cases|
  {
    CaseInv(w.cases[id]) && MoneyOk(id, w.cases[id], w.entries)
  }

  ghost predicate Inv(w: World) {
    && Sound(w.entries) && NoStrays(w)
    && (forall id :: 0 <= id < |w.cases| ==> CaseOk(w, id))
  }

  lemma {:induction false} CaseAt(w: World, id: TxId)
    requires Inv(w) && id < |w.cases|
    ensures CaseInv(w.cases[id]) && MoneyOk(id, w.cases[id], w.entries) && Sound(w.entries)
  {
    assert CaseOk(w, id);
  }

  // ----- other cases are not affected

  lemma {:induction false} PostLeavesOthers(id: TxId, c: Case, entries: Entries, m: Movement)
    requires MoneyOk(id, c, entries) && m.escrow != id && OwnMovement(m.escrow, m)
    ensures MoneyOk(id, c, Post(entries, m))
  {
    if PostOutcome(entries, m).Posted? {
      PostedHeld(entries, m, id);
      PostedTotals(entries, m, id, SellerPayable);
      PostedTotals(entries, m, id, BuyerRefundable);
      PostedTotals(entries, m, id, BuyerClearing);
      forall key | KeyOf(key, id)
        ensures Used(entries + Legs(m), key) <==> Used(entries, key)
      {
        PostedUses(entries, m, key);
      }
    }
  }

  /** How one case's step may use the ledger: not at all, or one movement of its own escrow. */
  ghost predicate OwnPost(id: TxId, entries: Entries, after: Entries) {
    after == entries || exists m: Movement :: OwnMovement(id, m) && after == Post(entries, m)
  }

  lemma {:induction false} PostKeepsNoStrays(w: World, m: Movement)
    requires NoStrays(w) && m.escrow < |w.cases| && OwnMovement(m.escrow, m)
    ensures NoStrays(w.(entries := Post(w.entries, m)))
  {
    var after := Post(w.entries, m);
    assert forall i :: |w.entries| <= i < |after| ==> after[i] in Legs(m);
  }

  lemma {:induction false} OtherCaseKeeps(w: World, id: TxId, r: (Case, Entries), j: TxId)
    requires Inv(w) && id < |w.cases| && j < |w.cases| && j != id && OwnPost(id, w.entries, r.1)
    ensures CaseOk(WithCase(w, id, r), j)
  {
    assert CaseOk(w, j);
    if r.1 != w.entries {
      var m: Movement :| OwnMovement(id, m) && r.1 == Post(w.entries, m);
      PostLeavesOthers(j, w.cases[j], w.entries, m);
    }
  }

  lemma {:induction false} OwnPostKeeps(w: World, id: TxId, r: (Case, Entries))
    requires Sound(w.entries) && NoStrays(w) && id < |w.cases| && OwnPost(id, w.entries, r.1)
    ensures Sound(r.1) && NoStrays(WithCase(w, id, r))
  {
    if r.1 != w.entries {
      var m: Movement :| OwnMovement(id, m) && r.1 == Post(w.entries, m);
      PostKeepsSound(w.entries, m);
      PostKeepsNoStrays(w, m);
    }
  }

  lemma {:induction false} WithCaseKeeps(w: World, id: TxId, r: (Case, Entries))
    requires Inv(w) && id < |w.cases|
    requires CaseInv(r.0) && MoneyOk(id, r.0, r.1) && OwnPost(id, w.entries, r.1)
    ensures Inv(WithCase(w, id, r))
  {
    OwnPostKeeps(w, id, r);
    forall j | 0 <= j < |w.cases|
      ensures CaseOk(WithCase(w, id, r), j)
    {
      if j != id {
        OtherCaseKeeps(w, id, r, j);
      }
    }
  }

  // ----- steps that leave the money alone

  lemma {:induction false} UnknownPaysNothing(attempts: seq<Attempt>, kind: Kind)
    requires forall a <- attempts :: a.outcome.Unknown?
    ensures PaidBy(attempts, kind) == 0
  {
    if attempts != [] {
      assert attempts[|attempts| - 1] in attempts;
      UnknownPaysNothing(attempts[..|attempts| - 1], kind);
    }
  }

  lemma {:induction false} QuietKeepsMoney(id: TxId, c: Case, d: Case, entries: Entries)
    requires MoneyOk(id, c, entries) && CaseInv(c) && Quiet(c, d)
    ensures MoneyOk(id, d, entries)
  {
    if d.attempts != c.attempts {
      UnknownPaysNothing(d.attempts, Release);
      UnknownPaysNothing(d.attempts, Refund);
    }
  }

  // ----- creation

  lemma {:induction false} NothingHeld(entries: Entries, id: nat, side: Side)
    requires forall i :: 0 <= i < |entries| ==> entries[i].escrow != id
    ensures Held(entries, id, side) == 0
  {
    if entries != [] {
      NothingHeld(entries[..|entries| - 1], id, side);
    }
  }

  lemma {:induction false} NothingBooked(entries: Entries, id: nat, account: Account, side: Side)
    requires forall i :: 0 <= i < |entries| ==> entries[i].escrow != id
    ensures TotalIn(entries, id, account, side) == 0
  {
    if entries != [] {
      NothingBooked(entries[..|entries| - 1], id, account, side);
    }
  }

  lemma {:induction false} NewCaseOk(id: TxId, entries: Entries, price: int, buyer: UserId, seller: UserId,
        econfirm: bool, now: Time)
    requires price > 0 && buyer != seller && forall i :: 0 <= i < |entries| ==> entries[i].escrow < id
    requires forall i :: 0 <= i < |entries| ==> KeyOf(entries[i].key, entries[i].escrow)
    ensures CaseInv(NewCase(price, buyer, seller, econfirm, now))
    ensures MoneyOk(id, NewCase(price, buyer, seller, econfirm, now), entries)
  {
    NothingHeld(entries, id, Debit);
    NothingHeld(entries, id, Credit);
    NothingBooked(entries, id, SellerPayable, Debit);
    NothingBooked(entries, id, BuyerRefundable, Debit);
    NothingBooked(entries, id, BuyerClearing, Credit);
  }

  lemma {:induction false} CreateKeeps(w: World, price: int, buyer: UserId, seller: UserId, econfirm: bool, now: Time)
    requires Inv(w) && price > 0 && buyer != seller
    ensures Inv(w.(cases := w.cases + [NewCase(price, buyer, seller, econfirm, now)]))
  {
    NewCaseOk(|w.cases|, w.entries, price, buyer, seller, econfirm, now);
    var w' := w.(cases := w.cases + [NewCase(price, buyer, seller, econfirm, now)]);
    forall id | 0 <= id < |w'.cases|
      ensures CaseOk(w', id)
    {
      if id < |w.cases| {
        CaseAt(w, id);
      }
    }
  }

  // ----- custody and funding

  lemma {:induction false} OpenKeeps(id: TxId, c: Case, entries: Entries, answer: OpenAnswer, now: Time)
    requires CaseInv(c) && MoneyOk(id, c, entries)
    ensures CaseInv(OpenReturned(c, answer, now)) && MoneyOk(id, OpenReturned(c, answer, now), entries)
  {
  }

  /** The prompt request never raises for want of an open escrow. */
  lemma {:induction false} PromptKeeps(id: TxId, c: Case, entries: Entries)
    requires CaseInv(c) && MoneyOk(id, c, entries)
    ensures CaseInv(PromptRequested(c)) && MoneyOk(id, PromptRequested(c), entries)
    ensures c.opening.AwaitingPrompt? ==> ReadyForPrompt(c)
  {
  }

  lemma {:induction false} ResendKeeps(id: TxId, c: Case, entries: Entries, buyer: UserId, tooSoon: bool)
    requires CaseInv(c) && MoneyOk(id, c, entries)
    ensures CaseInv(PromptResent(c, buyer, tooSoon)) && MoneyOk(id, PromptResent(c, buyer, tooSoon), entries)
  {
  }

  /** Funding an unfunded escrow under one of its two funding keys always posts. */
  lemma {:induction false} FundedKeepsMoney(id: TxId, c: Case, entries: Entries, key: Key)
    requires Sound(entries) && MoneyOk(id, c, entries)
    requires key == CallbackFunding(id) || key == EconfirmFunding(id)
    requires c.escrow.Some? && c.escrow.value.funded == 0 && c.escrow.value.total > 0
    ensures var (d, after) := Funded(id, c, entries, key);
            && d == c.(escrow := Some(c.escrow.value.(funded := c.escrow.value.total)))
            && MoneyOk(id, d, after) && OwnPost(id, entries, after)
    ensures !FundingRaises(id, c, entries, key)
  {
    var m := FundingMovement(id, c.escrow.value, key);
    PostDecision(entries, m);
    PostedHeld(entries, m, id);
    PostedTotals(entries, m, id, SellerPayable);
    PostedTotals(entries, m, id, BuyerRefundable);
    PostedTotals(entries, m, id, BuyerClearing);
    forall k: Key
      ensures Used(entries + Legs(m), k) <==> Used(entries, k) || k == key
    {
      PostedUses(entries, m, k);
    }
    assert OwnPost(id, entries, Post(entries, m));
  }

  lemma {:induction false} LockKeeps(c: Case, now: Time)
    requires CaseInv(c) && c.tx.status.AwaitingPayment? && c.opening != AwaitingOpen
    requires c.tx.custody.Simulated?
    ensures CaseInv(LockedNow(c, now)) && Quiet(c, LockedNow(c, now))
  {
    MovedTrail(c, Locked, now);
  }

  /** The callback's escrow, made where there is none. */
  lemma {:induction false} HeldKeeps(locked: Case, now: Time)
    requires CaseInv(locked) && locked.tx.status.Locked? && !locked.tx.custody.Econfirm?
    ensures var held := locked.(escrow := Some(EscrowOrNew(locked, now))); CaseInv(held) && Quiet(locked, held)
  {
  }

  lemma {:induction false} CallbackKeeps(id: TxId, c: Case, entries: Entries, code: int, production: bool, now: Time)
    requires Sound(entries) && CaseInv(c) && MoneyOk(id, c, entries)
    ensures var (d, after) := CalledBack(id, c, entries, code, production, now);
            CaseInv(d) && MoneyOk(id, d, after) && OwnPost(id, entries, after)
    ensures !CallbackRaises(id, c, entries, code, production, now)
  {
    if !c.tx.custody.Econfirm? && code == 0 && c.tx.status.AwaitingPayment? {
      LockKeeps(c, now);
      var locked := LockedNow(c, now);
      QuietKeepsMoney(id, c, locked, entries);
      if !production {
        HeldKeeps(locked, now);
        QuietKeepsMoney(id, locked, LockedWithEscrow(c, now), entries);
        FundedKeepsMoney(id, LockedWithEscrow(c, now), entries, CallbackFunding(id));
      }
    }
  }

  lemma {:induction false} PollKeeps(id: TxId, c: Case, entries: Entries, reported: bool, now: Time, timeout: int)
    requires Sound(entries) && CaseInv(c) && MoneyOk(id, c, entries) && Pollable(c)
    ensures var (d, after) := Polled(id, c, entries, reported, now, timeout);
            CaseInv(d) && MoneyOk(id, d, after) && OwnPost(id, entries, after)
    ensures !PollRaises(id, c, entries, reported, now, timeout)
  {
    if c.escrow.value.createdAt >= now - timeout && reported {
      FundedKeepsMoney(id, c, entries, EconfirmFunding(id));
      MovedTrail(c, Locked, now);
    }
  }

  // ----- settlement

  lemma {:induction false} PaidUpdate(attempts: seq<Attempt>, i: nat, a: Attempt, kind: Kind)
    requires i < |attempts|
    ensures PaidBy(attempts[i := a], kind) ==
            PaidBy(attempts, kind)
            - (if attempts[i].outcome.Succeeded? && attempts[i].kind == kind then attempts[i].amount else 0)
            + (if a.outcome.Succeeded? && a.kind == kind then a.amount else 0)
  {
    var n := |attempts| - 1;
    if i == n {
      assert attempts[i := a][..n] == attempts[..n];
    } else {
      assert attempts[i := a][..n] == attempts[..n][i := a];
      PaidUpdate(attempts[..n], i, a, kind);
    }
  }

  /** The attempt keeps what was promised: purpose, direction, amount and rail. */
  predicate SamePromise(a: Attempt, b: Attempt) {
    b == a.(outcome := b.outcome, reference := b.reference)
  }

  lemma {:induction false} SettledCaseKeeps(c: Case, i: nat, a: Attempt, e: Escrow)
    requires CaseInv(c) && i < |c.attempts| && c.escrow.Some? && SamePromise(c.attempts[i], a)
    requires e == c.escrow.value.(released := e.released, refunded := e.refunded)
    ensures CaseInv(Refreshed(WithAttempt(c, i, a).(escrow := Some(e))))
  {
    var d := WithAttempt(c, i, a).(escrow := Some(e));
    forall x | x in d.attempts && e.custody.Econfirm?
      ensures x.rail.EconfirmRail?
    {
      var k :| 0 <= k < |d.attempts| && d.attempts[k] == x;
      assert c.attempts[k] in c.attempts;
    }
    assert PlanOk(d);
  }

  lemma {:induction false} AttemptPositive(c: Case, i: nat)
    requires CaseInv(c) && i < |c.attempts|
    ensures 0 < c.attempts[i].amount
  {
  }

  /** The rail did not confirm the payout, or the funding does not cover it: no money moves. */
  lemma {:induction false} UnpaidKeeps(id: TxId, c: Case, entries: Entries, i: nat, a: Attempt)
    requires CaseInv(c) && MoneyOk(id, c, entries)
    requires i < |c.attempts| && c.attempts[i].outcome.Unknown? && !a.outcome.Succeeded?
             && SamePromise(c.attempts[i], a)
    ensures var d := Refreshed(WithAttempt(c, i, a)); CaseInv(d) && MoneyOk(id, d, entries)
  {
    PaidUpdate(c.attempts, i, a, Release);
    PaidUpdate(c.attempts, i, a, Refund);
    var e := c.escrow.value;
    SettledCaseKeeps(c, i, a, e);
    assert WithAttempt(c, i, a).(escrow := Some(e)) == WithAttempt(c, i, a);
  }

  /** A payout's movement is one of its escrow, and books it against the party it pays. */
  lemma {:induction false} PayoutKeepsBooks(id: TxId, c: Case, entries: Entries, i: nat)
    requires BooksOk(id, c, entries) && c.escrow.Some? && i < |c.attempts|
    ensures var m := PayoutMovement(id, i, c.attempts[i]);
            OwnMovement(id, m)
            && BooksOk(id, c.(escrow := Some(PaidOut(c.escrow.value, c.attempts[i]))), entries + Legs(m))
  {
    var m := PayoutMovement(id, i, c.attempts[i]);
    PostedTotals(entries, m, id, SellerPayable);
    PostedTotals(entries, m, id, BuyerRefundable);
    PostedTotals(entries, m, id, BuyerClearing);
  }

  /** A covered success posts its movement once and adds it to the right counter. */
  lemma {:induction false} PaidKeepsMoney(id: TxId, c: Case, entries: Entries, i: nat, a: Attempt)
    requires Sound(entries) && CaseInv(c) && MoneyOk(id, c, entries)
    requires i < |c.attempts| && c.attempts[i].outcome.Unknown? && a.outcome.Succeeded? && SamePromise(c.attempts[i], a)
    requires c.escrow.Some? && AvailableBalance(c.escrow.value) >= a.amount
    ensures var m := PayoutMovement(id, i, c.attempts[i]);
            && PostOutcome(entries, m).Posted?
            && MoneyOk(id, Refreshed(WithAttempt(c, i, a).(escrow := Some(PaidOut(c.escrow.value, c.attempts[i])))),
                 Post(entries, m))
  {
    PaidUpdate(c.attempts, i, a, Release);
    PaidUpdate(c.attempts, i, a, Refund);
    var m := PayoutMovement(id, i, c.attempts[i]);
    AttemptPositive(c, i);
    assert !Used(entries, Outbox(id, i));
    PostDecision(entries, m);
    PostedHeld(entries, m, id);
    PayoutKeepsBooks(id, c, entries, i);
    forall k: Key
      ensures Used(entries + Legs(m), k) <==> Used(entries, k) || k == Outbox(id, i)
    {
      PostedUses(entries, m, k);
    }
  }

  lemma {:induction false} SettleKeeps(id: TxId, c: Case, entries: Entries, i: nat, answer: RailAnswer)
    requires Sound(entries) && CaseInv(c) && MoneyOk(id, c, entries)
    requires i < |c.attempts| && c.attempts[i].outcome.Unknown?
    ensures var (d, after) := Settle(id, c, entries, i, answer);
            CaseInv(d) && MoneyOk(id, d, after) && OwnPost(id, entries, after)
  {
    var a, e := c.attempts[i], c.escrow.value;
    var reply := ReplyTo(a, answer);
    var a' := if reply.None? then a.(outcome := Unknown) else Answered(e, a, reply.value);
    if a'.outcome.Succeeded? {
      PaidKeepsMoney(id, c, entries, i, a');
      SettledCaseKeeps(c, i, a', PaidOut(e, a));
      PayoutKeepsBooks(id, c, entries, i);
      assert OwnPost(id, entries, Post(entries, PayoutMovement(id, i, a)));
    } else {
      UnpaidKeeps(id, c, entries, i, a');
    }
  }
}
