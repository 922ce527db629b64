/** What settling a payout and deriving the payout status come to, column by column. */
module PayoutTables {
  import opened Domain
  import opened Payouts
  import opened Ledger
  import opened CaseInvariant
  import opened MarketInvariant
  import opened RailReports

  /** No later attempt is for the same purpose. */
  predicate Newest(attempts: seq<Attempt>, i: nat) {
    i < |attempts| && forall j :: i < j < |attempts| ==> attempts[j].purpose != attempts[i].purpose
  }

  /** The payout status: waiting for the rail comes before an unclear answer, an unclear answer before a
      failure, and success is the success of every newest attempt. */
  lemma {:induction false} StatusMeans(attempts: seq<Attempt>)
    ensures StatusOf(attempts).NotRequired? <==> attempts == []
    ensures StatusOf(attempts).Pending? <==>
            exists i :: 0 <= i < |attempts| && Newest(attempts, i) && attempts[i].outcome.Unknown?
                        && attempts[i].reference.None?
    ensures StatusOf(attempts).PayoutUnknown? <==>
              && (exists i :: 0 <= i < |attempts| && Newest(attempts, i) && attempts[i].outcome.Unknown?)
              && (forall i :: 0 <= i < |attempts| && Newest(attempts, i) && attempts[i].outcome.Unknown? ==>
                   attempts[i].reference.Some?)
    ensures StatusOf(attempts).PayoutFailed? <==>
              && (exists i :: 0 <= i < |attempts| && Newest(attempts, i) && attempts[i].outcome.FailedDefinite?)
              && (forall i :: 0 <= i < |attempts| && Newest(attempts, i) ==> !attempts[i].outcome.Unknown?)
    ensures StatusOf(attempts).PayoutSucceeded? <==>
              && attempts != []
              && forall i :: 0 <= i < |attempts| && Newest(attempts, i) ==> attempts[i].outcome.Succeeded?
  {
    assert forall i :: 0 <= i < |attempts| ==> (Newest(attempts, i) <==> Latest(attempts, i));
    if attempts != [] {
      assert Newest(attempts, |attempts| - 1);
    }
  }

  /** An attempt that has a provider reference is only ever inquired about, and one without only requested:
      the other answer makes no difference. */
  lemma {:induction false} AskedOneWay(id: TxId, c: Case, entries: Entries, i: nat, inquiry: PayoutReply,
        request: RequestAnswer, inquiry': PayoutReply, request': RequestAnswer)
    requires i < |c.attempts|
    ensures c.attempts[i].reference.Some? ==>
              Settle(id, c, entries, i, Available(inquiry, request)) ==
              Settle(id, c, entries, i, Available(inquiry, request'))
    ensures c.attempts[i].reference.None? ==>
              Settle(id, c, entries, i, Available(inquiry, request)) ==
              Settle(id, c, entries, i, Available(inquiry', request))
  {
  }

  /** Queueing a payout, on an arbitrary case: a missing escrow is created, an attempt for the purpose that is
      undecided or succeeded stands in for a new one, and otherwise one attempt for the stated amount goes to
      the seller for a release and the buyer for a refund, over the rail that holds the money. */
  lemma {:induction false} EnqueueIs(c: Case, purpose: Purpose, kind: Kind, amount: int, routing: Routing, now: Time)
    ensures var made := if c.escrow.Some? then c.escrow.value
                        else Escrow(c.tx.amount, 0, 0, 0, Simulated, None, false, now);
            var standsIn := exists a <- c.attempts :: a.purpose == purpose && a.outcome in {Unknown, Succeeded};
            var payee := if kind == Release then c.tx.seller else c.tx.buyer;
            var eConfirm := made.custody == Econfirm;
            Enqueue(c, purpose, kind, amount, routing, now) ==
            if amount <= 0 then None
            else if standsIn then
              Some(c.(escrow := Some(made), tx := c.tx.(payoutStatus := StatusOf(c.attempts))))
            else if payee in routing.noPhone || (!eConfirm && routing.defaultRail == None) then None
            else
              var rail := if eConfirm then EconfirmRail else DefaultRail(routing.defaultRail.value);
              Some(c.(escrow := Some(made), tx := c.tx.(payoutStatus := Pending),
                      attempts := c.attempts + [Attempt(purpose, kind, payee, amount, rail, Unknown, None, now)]))
  {
  }

  /** What the rail said, if it said anything. */
  function Heard(a: Attempt, answer: RailAnswer): Option<PayoutReply> {
    if answer.Unavailable? then None
    else if a.reference.Some? then Some(answer.inquiry)
    else if answer.request.Replied? then Some(answer.request.reply) else None
  }

  /** The attempt afterwards: undecided as before where the rail said nothing; otherwise with the new
      reference if there is one, and the outcome, except that a success of an unfunded escrow stays
      undecided. */
  function AttemptAfter(a: Attempt, answer: RailAnswer, funded: bool): Attempt {
    var heard := Heard(a, answer);
    if heard.None? then a
    else
      a.(reference := if heard.value.reference.Some? then heard.value.reference else a.reference,
         outcome := if heard.value.outcome.Succeeded? && !funded then Unknown else heard.value.outcome)
  }

  /** The two ledger rows of a booked payout. */
  function PayoutRows(id: TxId, i: nat, a: Attempt): Entries {
    var party := if a.kind.Release? then SellerPayable else BuyerRefundable;
    [LedgerEntry(id, Outbox(id, i), party, Debit, a.amount),
     LedgerEntry(id, Outbox(id, i), EscrowHeld, Credit, a.amount)]
  }

  /** Only that attempt, the payout status, the counter of its direction and two ledger rows can change. */
  predicate SettledBy(id: TxId, c: Case, entries: Entries, i: nat, answer: RailAnswer, r: (Case, Entries))
    requires i < |c.attempts| && c.escrow.Some?
  {
    var a, e, heard, funded := c.attempts[i], c.escrow.value, Heard(c.attempts[i], answer), c.escrow.value.funded > 0;
    var booked := heard.Some? && heard.value.outcome.Succeeded? && funded;
    var attempts := c.attempts[i := AttemptAfter(a, answer, funded)];
    && r.1 == entries + (if booked then PayoutRows(id, i, a) else [])
    && r.0 == c.(attempts := attempts, tx := c.tx.(payoutStatus := StatusOf(attempts)),
                 escrow := Some(e.(released := e.released + (if booked && a.kind.Release? then a.amount else 0),
                                   refunded := e.refunded + (if booked && a.kind.Refund? then a.amount else 0))))
  }

  /** Without a booking neither the escrow nor the ledger changes. */
  lemma {:induction false} UnbookedIs(id: TxId, c: Case, entries: Entries, i: nat, answer: RailAnswer)
    requires i < |c.attempts| && c.escrow.Some? && c.attempts[i].outcome.Unknown?
    requires AvailableBalance(c.escrow.value) < c.attempts[i].amount <==> c.escrow.value.funded <= 0
    requires !Confirms(c.attempts[i], answer) || c.escrow.value.funded <= 0
    ensures SettledBy(id, c, entries, i, answer, Settle(id, c, entries, i, answer))
  {
    assert c.(escrow := Some(c.escrow.value)) == c && entries + [] == entries;
  }

  lemma {:induction false} BookedIs(id: TxId, c: Case, entries: Entries, i: nat, answer: RailAnswer)
    requires i < |c.attempts| && c.escrow.Some? && Confirms(c.attempts[i], answer) && c.escrow.value.funded > 0
    requires AvailableBalance(c.escrow.value) >= c.attempts[i].amount
    requires PostOutcome(entries, PayoutMovement(id, i, c.attempts[i])).Posted?
    ensures SettledBy(id, c, entries, i, answer, Settle(id, c, entries, i, answer))
  {
    assert Legs(PayoutMovement(id, i, c.attempts[i])) == PayoutRows(id, i, c.attempts[i]);
  }

  /** One undecided attempt of a reachable case through the executor. */
  lemma {:induction false} SettleIs(id: TxId, c: Case, entries: Entries, i: nat, answer: RailAnswer)
    requires Sound(entries) && CaseInv(c) && MoneyOk(id, c, entries)
    requires i < |c.attempts| && c.attempts[i].outcome.Unknown?
    ensures c.escrow.Some? && SettledBy(id, c, entries, i, answer, Settle(id, c, entries, i, answer))
  {
    FundedIsCovered(id, c, entries, i);
    if Confirms(c.attempts[i], answer) && FundedOf(c) > 0 {
      var reply := ReplyTo(c.attempts[i], answer).value;
      PaidKeepsMoney(id, c, entries, i, Answered(c.escrow.value, c.attempts[i], reply));
      BookedIs(id, c, entries, i, answer);
    } else {
      UnbookedIs(id, c, entries, i, answer);
    }
  }
}
