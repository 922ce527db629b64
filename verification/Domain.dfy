/** The marketplace's rows. The rows that belong to one transaction (its dispute rows, its escrow, its
    payout attempts, its recorded transitions) are kept together with it as a case. */
module Domain {

  datatype Option<+T> = None | Some(value: T)

  type TxId = nat
  type UserId = nat
  type Time = int

  datatype Status =
    | Initiated | AwaitingPayment | Locked | OutForDelivery | Dispatched | AtDoorPendingInspection
    | Hold24h | DisputedFunctional | ReturnInTransit | ReturnReceived | AwaitingBuyerReconfirmation
    | EscalatedAdminReview | ReturnedToSeller | Released | RefundedBuyer | ResolvedRelease
    | ResolvedRefund | ResolvedSplit

  /** The states nothing leaves: the money's destination is decided. */
  predicate Terminal(s: Status) {
    s.Released? || s.RefundedBuyer? || s.ResolvedRelease? || s.ResolvedRefund? || s.ResolvedSplit?
  }

  datatype PayoutStatus = NotRequired | Pending | PayoutSucceeded | PayoutFailed | PayoutUnknown

  datatype Custody = Simulated | Econfirm

  datatype Tx = Tx(
    amount: int, buyer: UserId, seller: UserId, status: Status, payoutStatus: PayoutStatus, custody: Custody,
    lockedAt: Option<Time>, atDoorAt: Option<Time>, holdStartedAt: Option<Time>,
    releasedAt: Option<Time>, refundedAt: Option<Time>, updatedAt: Time)

  datatype DisputeStatus =
    | Open | BuyerSentBack | DisputeReturnReceived | AwaitingReconfirmation | DisputeEscalated
    | DisputeRelease | DisputeRefund | DisputeSplit | Canceled

  /** A return case still in progress. */
  predicate OpenDispute(s: DisputeStatus) {
    s.Open? || s.BuyerSentBack? || s.DisputeReturnReceived? || s.AwaitingReconfirmation?
  }

  datatype Decision = DecideRefund | DecideRelease | DecideSplit

  datatype SellerAction = RefundIssued | RepairShipped | ReplacementShipped

  /** The rejection count as the evidence holds it: the buyer supplies the evidence, so it may be
      missing, negative or any size. */
  datatype Dispute = Dispute(
    status: DisputeStatus, rejections: Option<int>, escalatedAt: Option<Time>, resolvedAt: Option<Time>,
    sellerAction: Option<SellerAction>, decision: Option<Decision>, splitRatio: Option<int>)

  datatype Escrow = Escrow(
    total: int, funded: int, released: int, refunded: int, custody: Custody,
    reference: Option<string>, needsReconciliation: bool, createdAt: Time)

  datatype Kind = Release | Refund

  /** What a payout is for. The key's text carries the transaction's or the dispute's id as well;
      attempts are kept with their transaction, so only a dispute's position is needed here. */
  datatype Purpose =
    | TxRelease | TxRefund | TimeoutAtDoorRefund | TimeoutRefund | HoldRelease | DisputeTimeoutRelease
    | SellerRefund | ReconfirmRelease
    | AdminRefund(dispute: nat) | AdminRelease(dispute: nat)
    | AdminSplitRelease(dispute: nat) | AdminSplitRefund(dispute: nat)

  datatype Rail = EconfirmRail | DefaultRail(name: string)

  datatype Outcome = Succeeded | FailedDefinite | Unknown

  /** A payout intent: what for, which way, and to whom. */
  datatype Attempt = Attempt(
    purpose: Purpose, kind: Kind, payee: UserId, amount: int, rail: Rail, outcome: Outcome, reference: Option<string>,
    createdAt: Time)

  datatype Transition = Transition(was: Status, now: Status)

  /** Where the creating call stands, for a transaction opened on eConfirm. */
  datatype Opening = Finished | AwaitingOpen | AwaitingPrompt

  /** A payment prompt sent through eConfirm, with what its escrow held when it was sent. */
  datatype Prompt = Prompt(custody: Custody, reference: Option<string>, flagged: bool)

  datatype Case = Case(
    tx: Tx, disputes: seq<Dispute>, escrow: Option<Escrow>, attempts: seq<Attempt>,
    trail: seq<Transition>, opening: Opening, prompts: seq<Prompt>)

  /** The newest dispute of a case. */
  function LatestDispute(c: Case): Option<Dispute> {
    if c.disputes == [] then None else Some(c.disputes[|c.disputes| - 1])
  }

  function WithLatestDispute(c: Case, d: Dispute): Case
    requires c.disputes != []
  {
    c.(disputes := c.disputes[|c.disputes| - 1 := d])
  }

  /** transition_transaction: the status changes and the transition is recorded. */
  function Moved(c: Case, to: Status, now: Time): Case {
    c.(tx := c.tx.(status := to, updatedAt := now), trail := c.trail + [Transition(c.tx.status, to)])
  }

  datatype Refusal =
    | WrongRole | NotFound | Forbidden | InvalidState | Invalid | InvalidOtp | ReasonRequired
    | NotRoutable | SplitUnsupported | PaymentNotStarted | TooSoon
}
