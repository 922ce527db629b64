/** What creation, opening, prompts, callbacks and polls do to a case and to the ledger, column by column. */
module CustodyTables {
  import opened Domain
  import opened Payouts
  import opened Actions
  import opened Ledger
  import opened CaseInvariant
  import opened Market
  import opened MarketInvariant
  import opened MarketRuns

  // ----- creation

  /** A buyer creates a sale for the listing's price: refused for another role, a missing listing, one that is
      sold or archived, another amount, and by the row's own constraints. */
  lemma {:induction false} CreateIs(w: World, buyer: User, seller: UserId, listing: ListingState, price: int,
        asked: Option<int>, econfirm: bool, now: Time)
    ensures var refused := CreateRefused(buyer, seller, listing, price, asked);
            && (refused.None? <==>
                 buyer.role.Buyer? && listing.OnSale? && asked in {None, Some(price)} && price > 0
                 && buyer.id != seller)
            && (refused == Some(NotFound) <==> buyer.role.Buyer? && listing.MissingListing?)
            && refused in {None, Some(NotFound), Some(Invalid)}
    ensures var after := Next(w, Create(buyer, seller, listing, price, asked, econfirm, now));
            after == if CreateRefused(buyer, seller, listing, price, asked).Some? then w
                     else World(w.cases + [Created(price, buyer.id, seller, econfirm, now)], w.entries)
  {
  }

  /** The new rows: an eConfirm escrow starts flagged, a simulated one is not opened yet. */
  function Created(price: int, buyer: UserId, seller: UserId, econfirm: bool, now: Time): Case {
    var tx := Tx(price, buyer, seller, AwaitingPayment, NotRequired, if econfirm then Econfirm else Simulated,
                 None, None, None, None, None, now);
    if econfirm then Case(tx, [], Some(Escrow(price, 0, 0, 0, Econfirm, None, true, now)), [], [], AwaitingOpen, [])
    else Case(tx, [], None, [], [], Finished, [])
  }

  // ----- opening and prompts

  /** The answer to opening: a reference unflags the escrow, an unclear one leaves it flagged for
      reconciliation, a rejection moves the sale to simulated custody. */
  lemma {:induction false} OpenIs(c: Case, answer: OpenAnswer, now: Time)
    requires CaseInv(c) && c.opening.AwaitingOpen?
    ensures var d, e := OpenReturned(c, answer, now), c.escrow.value;
            match answer
            case Opened(r) =>
              d == c.(escrow := Some(e.(custody := Econfirm, reference := Some(r), needsReconciliation := false)),
                      opening := AwaitingPrompt)
            case OpenUnclear =>
              d == c.(escrow := Some(e.(custody := Econfirm, reference := None, needsReconciliation := true)),
                      opening := Finished)
            case OpenRejected =>
              && d.tx == c.tx.(custody := Simulated, updatedAt := now) && d.opening.Finished?
              && d.escrow == Some(e.(custody := Simulated))
              && d == c.(tx := d.tx, escrow := d.escrow, opening := d.opening)
  {
  }

  /** A prompt is recorded exactly for an unflagged eConfirm escrow with a reference. */
  lemma {:induction false} PromptsAre(c: Case, payer: UserId, tooSoon: bool)
    ensures var ready := c.escrow.Some? && c.escrow.value.custody.Econfirm? && c.escrow.value.reference.Some?
                         && !c.escrow.value.needsReconciliation;
            && (c.opening.AwaitingPrompt? ==>
                 PromptRequested(c).prompts ==
                 if ready then c.prompts + [Prompt(Econfirm, c.escrow.value.reference, false)] else c.prompts)
            && PromptResent(c, payer, tooSoon) ==
               if ready && c.tx.buyer == payer && c.tx.status.AwaitingPayment? && c.tx.custody.Econfirm?
                  && !tooSoon then
                 c.(prompts := c.prompts + [Prompt(Econfirm, c.escrow.value.reference, false)])
               else c
  {
  }

  // ----- funding

  /** The two ledger rows of funding. */
  function FundingRows(id: TxId, key: Key, amount: int): Entries {
    [LedgerEntry(id, key, EscrowHeld, Debit, amount), LedgerEntry(id, key, BuyerClearing, Credit, amount)]
  }

  /** A locked transaction: state, time and one transition. */
  function Locks(c: Case, now: Time): Case {
    c.(tx := c.tx.(status := Locked, lockedAt := Some(now), updatedAt := now),
       trail := c.trail + [Transition(AwaitingPayment, Locked)])
  }

  /** A callback locks a sale exactly when it is successful and the sale awaits a simulated payment. Outside
      production it also funds the escrow, in full, and books that. */
  lemma {:induction false} CallbackIs(id: TxId, c: Case, entries: Entries, code: int, production: bool, now: Time)
    requires Sound(entries) && CaseInv(c) && MoneyOk(id, c, entries)
    ensures var (d, after) := CalledBack(id, c, entries, code, production, now);
            var locks := c.tx.custody.Simulated? && code == 0 && c.tx.status.AwaitingPayment?;
            if !locks then d == c && after == entries
            else if production then d == Locks(c, now) && after == entries
            else
              && after == entries + FundingRows(id, CallbackFunding(id), c.tx.amount)
              && d.escrow.Some? && d.escrow.value.funded == d.escrow.value.total == c.tx.amount
              && d.escrow.value.custody.Simulated? && d == Locks(c, now).(escrow := d.escrow)
  {
    if c.tx.custody.Simulated? && code == 0 && c.tx.status.AwaitingPayment? && !production {
      LockKeeps(c, now);
      QuietKeepsMoney(id, c, LockedNow(c, now), entries);
      MarketInvariant.HeldKeeps(LockedNow(c, now), now);
      QuietKeepsMoney(id, LockedNow(c, now), LockedWithEscrow(c, now), entries);
      FundedKeepsMoney(id, LockedWithEscrow(c, now), entries, CallbackFunding(id));
      PostDecision(entries, FundingMovement(id, LockedWithEscrow(c, now).escrow.value, CallbackFunding(id)));
    }
  }

  /** A poll funds and locks a sale exactly when the provider reports it funded and its escrow is not older
      than the payment window. */
  lemma {:induction false} PollIs(id: TxId, c: Case, entries: Entries, reported: bool, now: Time, timeout: int)
    requires Sound(entries) && CaseInv(c) && MoneyOk(id, c, entries) && Pollable(c)
    ensures c.tx.status.AwaitingPayment?
    ensures var (d, after) := Polled(id, c, entries, reported, now, timeout);
            if reported && now <= c.escrow.value.createdAt + timeout then
              && after == entries + FundingRows(id, EconfirmFunding(id), c.tx.amount)
              && d == Locks(c, now).(escrow := Some(c.escrow.value.(funded := c.tx.amount)))
            else d == c && after == entries
  {
    FundedKeepsMoney(id, c, entries, EconfirmFunding(id));
    PostDecision(entries, FundingMovement(id, c.escrow.value, EconfirmFunding(id)));
  }

  /** A poll run takes the oldest sales that wait for an eConfirm payment, in order, up to its budget. */
  lemma {:induction false} BatchIs(cases: seq<Case>, budget: nat)
    ensures var ids := PollBatch(cases, budget);
            && |ids| <= budget && (forall i, j :: 0 <= i < j < |ids| ==> ids[i] < ids[j])
            && (forall i :: 0 <= i < |ids| ==> Waits(cases[ids[i]]))
            && forall id: TxId :: id < |cases| && Waits(cases[id]) && id !in ids ==>
                 |ids| == budget && forall i :: 0 <= i < |ids| ==> ids[i] < id
  {
    CandidatesPollable(cases);
    AllCandidates(cases);
    var all, ids := PollCandidates(cases), PollBatch(cases, budget);
    forall id: TxId | id < |cases| && Waits(cases[id]) && id !in ids
      ensures |ids| == budget && forall i :: 0 <= i < |ids| ==> ids[i] < id
    {
      assert Pollable(cases[id]);
      var j :| 0 <= j < |all| && all[j] == id;
      assert all[..|ids|] == ids && id !in all[..|ids|];
    }
  }

  /** A sale whose eConfirm escrow is open, unflagged and unpaid. */
  predicate Waits(c: Case) {
    && c.escrow.Some? && c.escrow.value.custody.Econfirm? && c.escrow.value.reference.Some?
    && !c.escrow.value.needsReconciliation && c.escrow.value.funded <= 0
  }

  lemma {:induction false} AllCandidates(cases: seq<Case>)
    ensures forall id: TxId :: id < |cases| && Pollable(cases[id]) ==> id in PollCandidates(cases)
  {
    if cases != [] {
      var n := |cases| - 1;
      AllCandidates(cases[..n]);
      forall id: TxId | id < |cases| && Pollable(cases[id])
        ensures id in PollCandidates(cases)
      {
        if id < n {
          assert cases[..n][id] == cases[id];
        }
      }
    }
  }
}
