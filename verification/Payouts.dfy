/** The payout outbox of a case: queueing intents, the status derived from them, and the settlement of
    one attempt against whatever the rail answers. */
module Payouts {
  import opened Domain
  import Ledger

  /** What queueing a payout can depend on outside the case: users without a payout phone, and the
      rail that is routable by default, if any. */
  datatype Routing = Routing(noPhone: set<UserId>, defaultRail: Option<string>)

  // ----- payout status

  /** The last attempt for its purpose. */
  predicate Latest(attempts: seq<Attempt>, i: nat)
    requires i < |attempts|
  {
    forall j :: i < j < |attempts| ==> attempts[j].purpose != attempts[i].purpose
  }

  predicate Waiting(a: Attempt) {
    a.outcome.Unknown? && a.reference.None?
  }

  predicate Unclear(a: Attempt) {
    a.outcome.Unknown? && a.reference.Some?
  }

  /** The transaction's payout status, from the latest attempt of each purpose. */
  function StatusOf(attempts: seq<Attempt>): PayoutStatus {
    if attempts == [] then NotRequired
    else if exists i :: 0 <= i < |attempts| && Latest(attempts, i) && Waiting(attempts[i]) then Pending
    else if exists i :: 0 <= i < |attempts| && Latest(attempts, i) && Unclear(attempts[i]) then PayoutUnknown
    else if forall i :: 0 <= i < |attempts| && Latest(attempts, i) ==> attempts[i].outcome.Succeeded? then
      PayoutSucceeded
    else PayoutFailed
  }

  /** refresh_transaction_payout_status; a case without an escrow has nothing to pay out. */
  function Refreshed(c: Case): Case {
    c.(tx := c.tx.(payoutStatus := if c.escrow.None? then NotRequired else StatusOf(c.attempts)))
  }

  // ----- queueing

  function EscrowOrNew(c: Case, now: Time): Escrow {
    if c.escrow.Some? then c.escrow.value
    else Escrow(c.tx.amount, 0, 0, 0, Simulated, None, false, now)
  }

  predicate Exists(attempts: seq<Attempt>, purpose: Purpose) {
    exists i :: 0 <= i < |attempts| && attempts[i].purpose == purpose && !attempts[i].outcome.FailedDefinite?
  }

  /** An escrow held by eConfirm pays out through eConfirm; any other through the default rail. */
  function RailFor(e: Escrow, routing: Routing): Option<Rail> {
    if e.custody.Econfirm? then Some(EconfirmRail)
    else if routing.defaultRail.Some? then Some(DefaultRail(routing.defaultRail.value))
    else None
  }

  function Destination(c: Case, kind: Kind): UserId {
    if kind.Release? then c.tx.seller else c.tx.buyer
  }

  /** Adds a payout intent, or returns the case unchanged but refreshed when one that has not
      definitely failed exists for the purpose. None where the service raises. */
  function Enqueue(c: Case, purpose: Purpose, kind: Kind, amount: int, routing: Routing, now: Time): Option<Case> {
    if amount <= 0 then None
    else
      var held := c.(escrow := Some(EscrowOrNew(c, now)));
      var rail := RailFor(held.escrow.value, routing);
      if Exists(c.attempts, purpose) then Some(Refreshed(held))
      else if Destination(c, kind) in routing.noPhone || rail.None? then None
      else
        var attempt := Attempt(purpose, kind, Destination(c, kind), amount, rail.value, Unknown, None, now);
        Some(held.(attempts := c.attempts + [attempt], tx := c.tx.(payoutStatus := Pending)))
  }

  // ----- settlement

  datatype PayoutReply = PayoutReply(outcome: Outcome, reference: Option<string>)

  /** What asking for a new payout comes to: the stored confirmation code cannot be decrypted, the
      request raises, or the rail replies. */
  datatype RequestAnswer = CodeUnreadable | RequestFailed | Replied(reply: PayoutReply)

  /** The rail's behaviour for one attempt: it may be unavailable; an attempt with a provider
      reference is inquired about, any other is requested. */
  datatype RailAnswer = Unavailable | Available(inquiry: PayoutReply, request: RequestAnswer)

  function ReplyTo(a: Attempt, answer: RailAnswer): Option<PayoutReply> {
    match answer
    case Unavailable => None
    case Available(inquiry, request) =>
      if a.reference.Some? then Some(inquiry)
      else if request.Replied? then Some(request.reply)
      else None
  }

  function WithAttempt(c: Case, i: nat, a: Attempt): Case
    requires i < |c.attempts|
  {
    c.(attempts := c.attempts[i := a])
  }

  function PayoutMovement(id: TxId, i: nat, a: Attempt): Ledger.Movement {
    Ledger.Movement(id, Ledger.Outbox(id, i), a.amount,
                    if a.kind.Release? then Ledger.SellerPayable else Ledger.BuyerRefundable, Ledger.EscrowHeld)
  }

  function AvailableBalance(e: Escrow): int {
    e.funded - e.released - e.refunded
  }

  function PaidOut(e: Escrow, a: Attempt): Escrow {
    if a.kind.Release? then e.(released := e.released + a.amount) else e.(refunded := e.refunded + a.amount)
  }

  /** The attempt after the rail's reply, before any money moves: success needs the funded balance. */
  function Answered(e: Escrow, a: Attempt, reply: PayoutReply): Attempt {
    var reference := if reply.reference.Some? then reply.reference else a.reference;
    if reply.outcome.Succeeded? && AvailableBalance(e) < a.amount then a.(outcome := Unknown, reference := reference)
    else a.(outcome := reply.outcome, reference := reference)
  }

  /** One claimed attempt through the executor: the case and the ledger afterwards. */
  function Settle(id: TxId, c: Case, entries: Ledger.Entries, i: nat, answer: RailAnswer): (Case, Ledger.Entries)
    requires i < |c.attempts|
  {
    var a := c.attempts[i];
    if c.escrow.None? then
      (WithAttempt(c, i, a.(outcome := FailedDefinite)), entries)
    else
      var e, reply := c.escrow.value, ReplyTo(a, answer);
      if reply.None? then
        (Refreshed(WithAttempt(c, i, a.(outcome := Unknown))), entries)
      else
        var a' := Answered(e, a, reply.value);
        if !a'.outcome.Succeeded? then
          (Refreshed(WithAttempt(c, i, a')), entries)
        else
          var m := PayoutMovement(id, i, a);
          var posted := Ledger.PostOutcome(entries, m).Posted?;
          var e' := if posted then PaidOut(e, a) else e;
          (Refreshed(WithAttempt(c, i, a').(escrow := Some(e'))), Ledger.Post(entries, m))
  }
}
