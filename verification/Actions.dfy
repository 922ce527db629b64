/** What each party action, admin decision and timeout does to a case, and when it is refused. */
module Actions {
  import opened Domain
  import opened Payouts
  import opened Rounding

  datatype Role = Buyer | Seller | Admin

  datatype User = User(id: UserId, role: Role)

  /** A reported issue's category after normalisation. */
  datatype Category = OtherCategory | ListedCategory | UnknownCategory

  /** A service call, with what it reads outside the case: the listing, the code check, the policy. */
  datatype Action =
    | Dispatch
    | Arrive
    | ConfirmOtp(listingFound: bool, serialized: bool, matches: bool)
    | WithholdOtp(reasonAllowed: bool)
    | ReportIssue(listingFound: bool, serialized: bool, category: Category, rejections: Option<int>)
    | SentBack
    | SellerReceived
    | SellerResolution(listingFound: bool, action: Option<SellerAction>, allowed: bool)
    | Reconfirm(accepted: bool)
    | Escalate
    | ForceResolve(dispute: nat, reasonBlank: bool, decision: Decision, share: Option<Decimal>, splitSupported: bool)

  /** Committed: the case afterwards. Raised: the error, and what the database holds afterwards. */
  datatype ActionResult = Committed(c: Case) | Raised(why: Refusal, c: Case)

  // ----- guards

  function BuyerGuard(c: Case, user: User, expected: Status): Option<Refusal> {
    if !user.role.Buyer? then Some(WrongRole)
    else if user.id != c.tx.buyer then Some(Forbidden)
    else if c.tx.status != expected then Some(InvalidState)
    else None
  }

  function SellerGuard(c: Case, user: User, expected: Status): Option<Refusal> {
    if !user.role.Seller? then Some(WrongRole)
    else if user.id != c.tx.seller then Some(Forbidden)
    else if c.tx.status != expected then Some(InvalidState)
    else None
  }

  /** The states from which a party may hand the case to support. */
  predicate OpenCase(s: Status) {
    s.DisputedFunctional? || s.ReturnInTransit? || s.ReturnReceived? || s.AwaitingBuyerReconfirmation?
  }

  /** A queued payout commits with the move; a payout that cannot be queued undoes the whole call. */
  function CommitIfQueued(queued: Option<Case>, c: Case): ActionResult {
    if queued.None? then Raised(NotRoutable, c) else Committed(queued.value)
  }

  // ----- delivery

  function Dispatched(c: Case, user: User, now: Time): ActionResult {
    var no := SellerGuard(c, user, Locked);
    if no.Some? then Raised(no.value, c) else Committed(Moved(c, OutForDelivery, now))
  }

  function Arrived(c: Case, user: User, now: Time): ActionResult {
    var no := SellerGuard(c, user, OutForDelivery);
    if no.Some? then Raised(no.value, c)
    else
      var moved := Moved(c, AtDoorPendingInspection, now);
      Committed(moved.(tx := moved.tx.(atDoorAt := Some(now))))
  }

  /** A wrong code commits only the failed attempt, which touches the row. */
  function OtpConfirmed(c: Case, user: User, listingFound: bool, serialized: bool, matches: bool,
        routing: Routing, now: Time): ActionResult {
    var no := BuyerGuard(c, user, AtDoorPendingInspection);
    if no.Some? then Raised(no.value, c)
    else if !listingFound then Raised(NotFound, c)
    else if !matches then Raised(InvalidOtp, c.(tx := c.tx.(updatedAt := now)))
    else if serialized then
      var moved := Moved(c, Hold24h, now);
      Committed(moved.(tx := moved.tx.(holdStartedAt := Some(now), releasedAt := None)))
    else
      var moved := Moved(c, Released, now);
      var stamped := moved.(tx := moved.tx.(releasedAt := Some(now), holdStartedAt := None));
      CommitIfQueued(Enqueue(stamped, TxRelease, Release, c.tx.amount, routing, now), c)
  }

  /** Three recorded moves at one instant. */
  function WithheldFlow(c: Case, now: Time): Case {
    var moved := Moved(Moved(Moved(c, ReturnInTransit, now), ReturnedToSeller, now), RefundedBuyer, now);
    moved.(tx := moved.tx.(refundedAt := Some(now)))
  }

  function OtpWithheld(c: Case, user: User, reasonAllowed: bool, routing: Routing, now: Time): ActionResult {
    var no := BuyerGuard(c, user, AtDoorPendingInspection);
    if no.Some? then Raised(no.value, c)
    else if !reasonAllowed then Raised(Invalid, c)
    else CommitIfQueued(Enqueue(WithheldFlow(c, now), TxRefund, Refund, c.tx.amount, routing, now), c)
  }

  // ----- return cases

  /** The category "other" opens the dispute already escalated, while the transaction is only disputed. */
  function IssueReported(c: Case, user: User, listingFound: bool, serialized: bool, category: Category,
        rejections: Option<int>, now: Time): ActionResult {
    var no := BuyerGuard(c, user, Hold24h);
    if no.Some? then Raised(no.value, c)
    else if !listingFound then Raised(NotFound, c)
    else if !serialized then Raised(InvalidState, c)
    else if category.UnknownCategory? then Raised(Invalid, c)
    else
      var escalated := category.OtherCategory?;
      var dispute := Dispute(if escalated then DisputeEscalated else Open, rejections,
                             if escalated then Some(now) else None, None, None, None, None);
      var moved := Moved(c, DisputedFunctional, now);
      Committed(moved.(disputes := c.disputes + [dispute]))
  }

  function BuyerSentItBack(c: Case, user: User, now: Time): ActionResult {
    var no := BuyerGuard(c, user, DisputedFunctional);
    if no.Some? then Raised(no.value, c) else Committed(Moved(c, ReturnInTransit, now))
  }

  function SellerGotItBack(c: Case, user: User, now: Time): ActionResult {
    var no := SellerGuard(c, user, ReturnInTransit);
    if no.Some? then Raised(no.value, c) else Committed(Moved(c, ReturnReceived, now))
  }

  // Changes to the newest dispute, if there is one.

  function CloseDispute(c: Case, status: DisputeStatus, now: Time): Case {
    if c.disputes == [] then c
    else WithLatestDispute(c, LatestDispute(c).value.(status := status, resolvedAt := Some(now)))
  }

  function EscalateDispute(c: Case, now: Time): Case {
    if c.disputes == [] then c
    else WithLatestDispute(c, LatestDispute(c).value.(status := DisputeEscalated, escalatedAt := Some(now)))
  }

  function SetDispute(c: Case, status: DisputeStatus): Case {
    if c.disputes == [] then c else WithLatestDispute(c, LatestDispute(c).value.(status := status))
  }

  function NoteSellerAction(c: Case, action: Option<SellerAction>): Case {
    if c.disputes == [] then c else WithLatestDispute(c, LatestDispute(c).value.(sellerAction := action))
  }

  function CountRejection(c: Case, count: int): Case {
    if c.disputes == [] then c else WithLatestDispute(c, LatestDispute(c).value.(rejections := Some(count)))
  }

  function ReturnRefunded(c: Case, action: Option<SellerAction>, routing: Routing, now: Time): ActionResult {
    var moved := Moved(c, RefundedBuyer, now);
    var stamped := moved.(tx := moved.tx.(refundedAt := Some(now)));
    var closed := CloseDispute(NoteSellerAction(stamped, action), DisputeRefund, now);
    CommitIfQueued(Enqueue(closed, SellerRefund, Refund, c.tx.amount, routing, now), c)
  }

  function SellerResolved(c: Case, user: User, listingFound: bool, action: Option<SellerAction>, allowed: bool,
        routing: Routing, now: Time): ActionResult {
    var no := SellerGuard(c, user, ReturnReceived);
    if no.Some? then Raised(no.value, c)
    else if !listingFound then Raised(NotFound, c)
    else if action.None? || !allowed then Raised(Invalid, c)
    else if action.value.RefundIssued? then ReturnRefunded(c, action, routing, now)
    else Committed(ReplacementSent(c, action, now))
  }

  function ReplacementSent(c: Case, action: Option<SellerAction>, now: Time): Case {
    SetDispute(NoteSellerAction(Moved(c, AwaitingBuyerReconfirmation, now), action), AwaitingReconfirmation)
  }

  const RETRY_LIMIT: int := 1

  /** Anything but a non-negative integer counts as no rejection. */
  function RejectionCount(d: Option<Dispute>): int {
    if d.Some? && d.value.rejections.Some? && d.value.rejections.value >= 0 then d.value.rejections.value else 0
  }

  function ReplacementAccepted(c: Case, routing: Routing, now: Time): ActionResult {
    var moved := Moved(c, ResolvedRelease, now);
    var stamped := moved.(tx := moved.tx.(releasedAt := Some(now)));
    var closed := CloseDispute(stamped, DisputeRelease, now);
    CommitIfQueued(Enqueue(closed, ReconfirmRelease, Release, c.tx.amount, routing, now), c)
  }

  function Reconfirmed(c: Case, user: User, accepted: bool, routing: Routing, now: Time): ActionResult {
    var no := BuyerGuard(c, user, AwaitingBuyerReconfirmation);
    var prior := RejectionCount(LatestDispute(c));
    if no.Some? then Raised(no.value, c)
    else if accepted then ReplacementAccepted(c, routing, now)
    else if prior < RETRY_LIMIT then
      Committed(SetDispute(CountRejection(Moved(c, ReturnReceived, now), prior + 1), DisputeReturnReceived))
    else
      Committed(EscalateDispute(CountRejection(Moved(c, EscalatedAdminReview, now), prior + 1), now))
  }

  function Escalated(c: Case, user: User, now: Time): ActionResult {
    if user.id != c.tx.buyer && user.id != c.tx.seller then Raised(Forbidden, c)
    else if !OpenCase(c.tx.status) then Raised(InvalidState, c)
    else if c.disputes == [] then Raised(InvalidState, c)
    else
      Committed(EscalateDispute(Moved(c, EscalatedAdminReview, now), now))
  }

  // ----- admin decisions

  function Decided(c: Case, i: nat, status: DisputeStatus, decision: Decision, ratio: Option<int>, now: Time): Case
    requires i < |c.disputes|
  {
    c.(disputes := c.disputes[i := c.disputes[i].(
         status := status, decision := Some(decision), splitRatio := ratio, resolvedAt := Some(now))])
  }

  /** The seller's share in ten-thousandths; a missing share, and a share of zero, mean one half. */
  function ChosenRatio(share: Option<Decimal>): int {
    if share.None? || share.value.units == 0 then 5000 else ToRatio(share.value)
  }

  /** Both halves of a split are queued before the status moves. */
  function QueueSplit(c: Case, i: nat, release: int, refund: int, routing: Routing, now: Time): Option<Case> {
    var first := Enqueue(c, AdminSplitRelease(i), Release, release, routing, now);
    if first.None? then None
    else
      var second := Enqueue(first.value, AdminSplitRefund(i), Refund, refund, routing, now);
      if second.None? then None else Some(Refreshed(second.value))
  }

  function ForceResolved(c: Case, i: nat, reasonBlank: bool, decision: Decision, share: Option<Decimal>,
                         splitSupported: bool, routing: Routing, now: Time): ActionResult {
    if reasonBlank then Raised(ReasonRequired, c)
    else if i >= |c.disputes| then Raised(NotFound, c)
    else if !c.disputes[i].status.DisputeEscalated? then Raised(InvalidState, c)
    else if !c.tx.status.EscalatedAdminReview? then Raised(InvalidState, c)
    else
      match decision
      case DecideRefund =>
        var moved := Moved(c, ResolvedRefund, now);
        var stamped := moved.(tx := moved.tx.(releasedAt := None, refundedAt := Some(now)));
        CommitIfQueued(Enqueue(Decided(stamped, i, DisputeRefund, decision, None, now),
                               AdminRefund(i), Refund, c.tx.amount, routing, now), c)
      case DecideRelease =>
        var moved := Moved(c, ResolvedRelease, now);
        var stamped := moved.(tx := moved.tx.(releasedAt := Some(now), refundedAt := None));
        CommitIfQueued(Enqueue(Decided(stamped, i, DisputeRelease, decision, None, now),
                               AdminRelease(i), Release, c.tx.amount, routing, now), c)
      case DecideSplit =>
        var ratio := ChosenRatio(share);
        if !splitSupported then Raised(SplitUnsupported, c)
        else if !(0 < ratio < RATIO_ONE) then Raised(Invalid, c)
        else
          var (release, refund) := SplitAmounts(c.tx.amount, ratio);
          if release <= 0 || refund <= 0 then Raised(Invalid, c)
          else
            var queued := QueueSplit(c, i, release, refund, routing, now);
            if queued.None? then Raised(NotRoutable, c)
            else Committed(SplitClosed(queued.value, i, ratio, now))
  }

  /** A case whose shares are queued, closed as split. */
  function SplitClosed(c: Case, i: nat, ratio: int, now: Time): Case
    requires i < |c.disputes|
  {
    var moved := Moved(c, ResolvedSplit, now);
    var stamped := moved.(tx := moved.tx.(releasedAt := Some(now), refundedAt := Some(now)));
    Decided(stamped, i, DisputeSplit, DecideSplit, Some(ratio), now)
  }

  /** Any party action or admin decision. */
  function Perform(c: Case, user: User, action: Action, routing: Routing, now: Time): ActionResult {
    match action
    case Dispatch => Dispatched(c, user, now)
    case Arrive => Arrived(c, user, now)
    case ConfirmOtp(found, serialized, matches) => OtpConfirmed(c, user, found, serialized, matches, routing, now)
    case WithholdOtp(allowed) => OtpWithheld(c, user, allowed, routing, now)
    case ReportIssue(found, serialized, category, rejections) =>
      IssueReported(c, user, found, serialized, category, rejections, now)
    case SentBack => BuyerSentItBack(c, user, now)
    case SellerReceived => SellerGotItBack(c, user, now)
    case SellerResolution(found, act, allowed) => SellerResolved(c, user, found, act, allowed, routing, now)
    case Reconfirm(accepted) => Reconfirmed(c, user, accepted, routing, now)
    case Escalate => Escalated(c, user, now)
    case ForceResolve(i, blank, decision, share, supported) =>
      ForceResolved(c, i, blank, decision, share, supported, routing, now)
  }

  // ----- timeouts

  const HOUR: int := 3600
  const AT_DOOR_WINDOW: int := HOUR
  const NO_DISPATCH_WINDOW: int := 48 * HOUR
  const HOLD_WINDOW: int := 24 * HOUR
  const RETURN_SEND_WINDOW: int := 3 * 24 * HOUR
  const RETURN_RECEIPT_WINDOW: int := 3 * 24 * HOUR

  function After(start: Option<Time>, window: int): Option<Time> {
    if start.None? then None else Some(start.value + window)
  }

  /** deadlines_for: the one deadline of the current state, if it has one. */
  function Deadline(tx: Tx): Option<Time> {
    match tx.status
    case Locked => After(tx.lockedAt, NO_DISPATCH_WINDOW)
    case AtDoorPendingInspection => After(tx.atDoorAt, AT_DOOR_WINDOW)
    case Hold24h => After(tx.holdStartedAt, HOLD_WINDOW)
    case DisputedFunctional => Some(tx.updatedAt + RETURN_SEND_WINDOW)
    case ReturnInTransit => Some(tx.updatedAt + RETURN_RECEIPT_WINDOW)
    case _ => None
  }

  predicate PastDeadline(tx: Tx, now: Time) {
    Deadline(tx).Some? && Deadline(tx).value <= now
  }

  /** The sweep's rules, in the order it runs them. */
  datatype Rule = AtDoorRule | NoDispatchRule | HoldRule | NotSentBackRule | NotReceivedRule

  /** The moment up to which a rule's query looks. */
  function Cutoff(rule: Rule, now: Time): Time {
    match rule
    case AtDoorRule => now - AT_DOOR_WINDOW
    case NoDispatchRule => now - NO_DISPATCH_WINDOW
    case HoldRule => now - HOLD_WINDOW
    case NotSentBackRule => now - RETURN_SEND_WINDOW
    case NotReceivedRule => now - RETURN_RECEIPT_WINDOW
  }

  /** The condition of each rule's query on a transaction row. */
  predicate Selects(rule: Rule, tx: Tx, cutoff: Time) {
    match rule
    case AtDoorRule => tx.status.AtDoorPendingInspection? && tx.atDoorAt.Some? && tx.atDoorAt.value <= cutoff
    case NoDispatchRule => tx.status.Locked? && tx.lockedAt.Some? && tx.lockedAt.value <= cutoff
    case HoldRule => tx.status.Hold24h? && tx.holdStartedAt.Some? && tx.holdStartedAt.value <= cutoff
    case NotSentBackRule => tx.status.DisputedFunctional? && tx.updatedAt <= cutoff
    case NotReceivedRule => tx.status.ReturnInTransit? && tx.updatedAt <= cutoff
  }

  predicate SelectedBy(rule: Rule, tx: Tx, now: Time) {
    Selects(rule, tx, Cutoff(rule, now))
  }

  /** The first rule whose query returns the transaction, if any does. */
  function DueRule(tx: Tx, now: Time): Option<Rule> {
    if SelectedBy(AtDoorRule, tx, now) then Some(AtDoorRule)
    else if SelectedBy(NoDispatchRule, tx, now) then Some(NoDispatchRule)
    else if SelectedBy(HoldRule, tx, now) then Some(HoldRule)
    else if SelectedBy(NotSentBackRule, tx, now) then Some(NotSentBackRule)
    else if SelectedBy(NotReceivedRule, tx, now) then Some(NotReceivedRule)
    else None
  }

  /** The state a rule's deadline belongs to. */
  function WatchedStatus(rule: Rule): Status {
    match rule
    case AtDoorRule => AtDoorPendingInspection
    case NoDispatchRule => Locked
    case HoldRule => Hold24h
    case NotSentBackRule => DisputedFunctional
    case NotReceivedRule => ReturnInTransit
  }

  /** The queries agree with the deadlines that clients read: a rule's query returns exactly the
      transactions of its state whose deadline is at or before now, and no two queries return one row. */
  lemma {:induction false} QueriesMirrorDeadlines(tx: Tx, now: Time, rule: Rule)
    ensures SelectedBy(rule, tx, now) <==> tx.status == WatchedStatus(rule) && PastDeadline(tx, now)
    ensures SelectedBy(rule, tx, now) <==> DueRule(tx, now) == Some(rule)
    ensures DueRule(tx, now).Some? <==> PastDeadline(tx, now)
  {
    match rule
    case AtDoorRule =>
    case NoDispatchRule =>
    case HoldRule =>
    case NotSentBackRule =>
    case NotReceivedRule =>
  }

  /** What a rule does to a transaction its query returned; None where queueing its payout raises. */
  function TimeoutMove(rule: Rule, c: Case, routing: Routing, now: Time): Option<Case> {
    match rule
    case AtDoorRule =>
      Enqueue(WithheldFlow(c, now), TimeoutAtDoorRefund, Refund, c.tx.amount, routing, now)
    case NoDispatchRule =>
      var moved := Moved(c, RefundedBuyer, now);
      Enqueue(moved.(tx := moved.tx.(refundedAt := Some(now))), TimeoutRefund, Refund, c.tx.amount, routing, now)
    case HoldRule =>
      var moved := Moved(c, Released, now);
      Enqueue(moved.(tx := moved.tx.(releasedAt := Some(now))), HoldRelease, Release, c.tx.amount, routing, now)
    case NotSentBackRule =>
      var moved := Moved(c, Released, now);
      var stamped := moved.(tx := moved.tx.(releasedAt := Some(now)));
      var closed := if c.disputes != [] && OpenDispute(LatestDispute(c).value.status) then
          CloseDispute(stamped, Canceled, now)
        else stamped;
      Enqueue(closed, DisputeTimeoutRelease, Release, c.tx.amount, routing, now)
    case NotReceivedRule =>
      var moved := Moved(c, EscalatedAdminReview, now);
      Some(if c.disputes != [] && OpenDispute(LatestDispute(c).value.status) then
             EscalateDispute(moved, now)
           else moved)
  }
}
