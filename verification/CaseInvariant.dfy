/** What every reachable case satisfies, and that party actions, decisions and timeouts keep it. */
module CaseInvariant {
  import opened Domain
  import opened Payouts
  import opened Rounding
  import opened Actions

  // ----- the recorded transitions

  function TrailEnd(trail: seq<Transition>): Status {
    if trail == [] then AwaitingPayment else trail[|trail| - 1].now
  }

  predicate Follows(trail: seq<Transition>, i: nat)
    requires i < |trail|
  {
    trail[i].was == TrailEnd(trail[..i])
  }

  /** Every transition starts where the one before it ended, the first one at awaiting_payment. */
  ghost predicate IsPath(trail: seq<Transition>) {
    forall i :: 0 <= i < |trail| ==> Follows(trail, i)
  }

  ghost predicate TrailOk(c: Case) {
    IsPath(c.trail) && TrailEnd(c.trail) == c.tx.status
  }

  lemma {:induction false} PathExtends(trail: seq<Transition>, t: Transition)
    requires IsPath(trail) && t.was == TrailEnd(trail)
    ensures IsPath(trail + [t])
  {
    var longer := trail + [t];
    forall i | 0 <= i < |longer|
      ensures Follows(longer, i)
    {
      if i < |trail| {
        assert longer[..i] == trail[..i] && Follows(trail, i);
      } else {
        assert longer[..i] == trail;
      }
    }
  }

  lemma {:induction false} MovedTrail(c: Case, to: Status, now: Time)
    requires TrailOk(c)
    ensures TrailOk(Moved(c, to, now)) && c.trail <= Moved(c, to, now).trail
  {
    PathExtends(c.trail, Transition(c.tx.status, to));
  }

  // ----- the payout plan

  /** The purposes of the two shares of a split. */
  predicate ShareOf(p: Purpose) {
    p.AdminSplitRelease? || p.AdminSplitRefund?
  }

  predicate FullPayout(attempts: seq<Attempt>, kind: Kind, amount: int) {
    |attempts| == 1 && attempts[0].kind == kind && attempts[0].amount == amount && !ShareOf(attempts[0].purpose)
  }

  predicate SplitPayout(attempts: seq<Attempt>, amount: int) {
    && |attempts| == 2 && attempts[0].purpose.AdminSplitRelease?
    && attempts[1].purpose == AdminSplitRefund(attempts[0].purpose.dispute)
    && attempts[0].kind.Release? && attempts[1].kind.Refund?
    && attempts[0].amount > 0 && attempts[1].amount > 0
    && attempts[0].amount + attempts[1].amount == amount
  }

  /** Which payouts a state has queued: none before the end, and at the end exactly the amount. */
  predicate PlanOk(c: Case) {
    match c.tx.status
    case Released => FullPayout(c.attempts, Release, c.tx.amount)
    case ResolvedRelease => FullPayout(c.attempts, Release, c.tx.amount)
    case RefundedBuyer => FullPayout(c.attempts, Refund, c.tx.amount)
    case ResolvedRefund => FullPayout(c.attempts, Refund, c.tx.amount)
    case ResolvedSplit => SplitPayout(c.attempts, c.tx.amount) && c.attempts[0].purpose.dispute < |c.disputes|
    case _ => c.attempts == []
  }

  // ----- the dispute

  predicate OneDispute(c: Case, allowed: set<DisputeStatus>) {
    |c.disputes| == 1 && c.disputes[0].status in allowed
  }

  /** At most one dispute, in step with the transaction. */
  predicate DisputesOk(c: Case) {
    match c.tx.status
    case DisputedFunctional => OneDispute(c, {Open, DisputeEscalated})
    case ReturnInTransit => OneDispute(c, {Open, DisputeEscalated})
    case ReturnReceived => OneDispute(c, {Open, DisputeEscalated, DisputeReturnReceived})
    case AwaitingBuyerReconfirmation => OneDispute(c, {AwaitingReconfirmation})
    case EscalatedAdminReview => OneDispute(c, {DisputeEscalated})
    case Released => c.disputes == [] || OneDispute(c, {Canceled, DisputeEscalated})
    case RefundedBuyer => c.disputes == [] || OneDispute(c, {DisputeRefund})
    case ResolvedRelease => OneDispute(c, {DisputeRelease})
    case ResolvedRefund => OneDispute(c, {DisputeRefund})
    case ResolvedSplit => OneDispute(c, {DisputeSplit})
    case _ => c.disputes == []
  }

  // ----- the escrow and its custody

  predicate PromptOk(p: Prompt) {
    p.custody.Econfirm? && p.reference.Some? && !p.flagged
  }

  predicate EscrowOk(c: Case) {
    && (c.tx.custody.Econfirm? ==> c.escrow.Some?)
    && (c.escrow.Some? ==>
         var e := c.escrow.value;
         && e.total == c.tx.amount && e.custody == c.tx.custody
         && (e.reference.Some? ==> e.custody.Econfirm? && !e.needsReconciliation)
         && (c.tx.status.AwaitingPayment? ==> e.funded == 0)
         && (e.custody.Econfirm? && !c.tx.status.AwaitingPayment? ==> e.funded == e.total && e.reference.Some?)
         && (e.custody.Econfirm? ==> forall a <- c.attempts :: a.rail.EconfirmRail?))
    && (!c.opening.Finished? ==> c.escrow.Some? && c.escrow.value.custody.Econfirm?)
    && (c.opening.AwaitingOpen? ==> c.tx.status.AwaitingPayment? && c.escrow.value.reference.None?)
    && (c.opening.AwaitingPrompt? ==> c.escrow.value.reference.Some?)
    && (forall p <- c.prompts :: PromptOk(p))
  }

  /** The stored payout status is always the one the attempts give. */
  predicate PayoutOk(c: Case) {
    c.tx.payoutStatus == StatusOf(c.attempts) && (c.attempts != [] ==> c.escrow.Some?)
  }

  /** A state the sweep watches has its timestamp. */
  predicate Timed(tx: Tx) {
    && (tx.status.Locked? ==> tx.lockedAt.Some?)
    && (tx.status.AtDoorPendingInspection? ==> tx.atDoorAt.Some?)
    && (tx.status.Hold24h? ==> tx.holdStartedAt.Some?)
  }

  // ----- how much can still happen

  /** Rejections the buyer has left before a case must go to support. */
  function RetriesLeft(c: Case): nat {
    if RejectionCount(LatestDispute(c)) < RETRY_LIMIT then 1 else 0
  }

  /** The most status changes a case can still go through. */
  function Measure(c: Case): nat {
    match c.tx.status
    case AwaitingPayment => 12
    case Locked => 11
    case OutForDelivery => 10
    case AtDoorPendingInspection => 9
    case Hold24h => 8
    case DisputedFunctional => 5 + 2 * RetriesLeft(c)
    case ReturnInTransit => 4 + 2 * RetriesLeft(c)
    case ReturnReceived => 3 + 2 * RetriesLeft(c)
    case AwaitingBuyerReconfirmation => 2 + 2 * RetriesLeft(c)
    case EscalatedAdminReview => 1
    case _ => 0
  }

  const MAX_CHANGES: nat := 12

  /** Everything but the payout plan. */
  ghost predicate Core(c: Case) {
    && c.tx.amount > 0 && c.tx.buyer != c.tx.seller
    && c.tx.status !in {Initiated, Domain.Dispatched, ReturnedToSeller}
    && TrailOk(c) && DisputesOk(c) && EscrowOk(c) && PayoutOk(c) && Timed(c.tx)
    && |c.trail| + Measure(c) <= MAX_CHANGES
  }

  ghost predicate CaseInv(c: Case) {
    Core(c) && PlanOk(c)
  }

  // ----- changes that move no money

  /** A change of a case that moves no money: counters stay, new attempts are all undecided, and the
      recorded transitions only grow, at the expense of the measure. */
  predicate Quiet(c: Case, d: Case) {
    && d.tx.amount == c.tx.amount
    && c.trail <= d.trail && |d.trail| + Measure(d) <= |c.trail| + Measure(c)
    && (d.escrow == c.escrow || (c.escrow.None? && d.escrow.Some? &&
         d.escrow.value.funded == 0 && d.escrow.value.released == 0 && d.escrow.value.refunded == 0 &&
         d.escrow.value.total == c.tx.amount))
    && (d.attempts == c.attempts || (c.attempts == [] && forall a <- d.attempts :: a.outcome.Unknown?))
  }

  // ----- queueing

  lemma {:induction false} OnePending(a: Attempt)
    requires Waiting(a)
    ensures StatusOf([a]) == Pending
  {
    assert Latest([a], 0) && Waiting([a][0]);
  }

  lemma {:induction false} TwoPending(a: Attempt, b: Attempt)
    requires Waiting(a) && Waiting(b)
    ensures StatusOf([a, b]) == Pending
  {
    assert Latest([a, b], 1) && Waiting([a, b][1]);
  }

  /** Queueing into an empty outbox adds exactly one waiting attempt. */
  lemma {:induction false} QueueEffect(c: Case, purpose: Purpose, kind: Kind, amount: int, routing: Routing, now: Time)
    requires c.attempts == []
    ensures var r := Enqueue(c, purpose, kind, amount, routing, now);
            r.Some? ==>
              && |r.value.attempts| == 1 && StatusOf(r.value.attempts) == Pending
              && r.value.attempts[0] ==
                 Attempt(purpose, kind, Destination(c, kind), amount, r.value.attempts[0].rail, Unknown, None, now)
              && (EscrowOrNew(c, now).custody.Econfirm? ==> r.value.attempts[0].rail.EconfirmRail?)
              && r.value == c.(attempts := r.value.attempts, escrow := Some(EscrowOrNew(c, now)),
                               tx := c.tx.(payoutStatus := Pending))
  {
    var r := Enqueue(c, purpose, kind, amount, routing, now);
    if r.Some? {
      assert !Exists(c.attempts, purpose);
      assert r.value.attempts == [r.value.attempts[0]];
      OnePending(r.value.attempts[0]);
    }
  }

  /** Queueing the full amount completes a case that has just reached the matching final state. */
  lemma {:induction false} QueueFull(c: Case, purpose: Purpose, kind: Kind, routing: Routing, now: Time)
    requires Core(c) && c.attempts == [] && !c.tx.status.AwaitingPayment? && !ShareOf(purpose)
    requires c.tx.status in (if kind.Release? then {Released, ResolvedRelease} else {RefundedBuyer, ResolvedRefund})
    ensures var r := Enqueue(c, purpose, kind, c.tx.amount, routing, now);
            r.Some? ==> CaseInv(r.value) && Quiet(c, r.value)
  {
    QueueEffect(c, purpose, kind, c.tx.amount, routing, now);
    var r := Enqueue(c, purpose, kind, c.tx.amount, routing, now);
    if r.Some? {
      assert forall a <- r.value.attempts :: a == r.value.attempts[0];
      assert Measure(r.value) == Measure(c);
    }
  }

  /** Queueing a second payout for another purpose adds a second waiting attempt. */
  lemma {:induction false} QueueSecond(c: Case, purpose: Purpose, kind: Kind, amount: int, routing: Routing, now: Time)
    requires |c.attempts| == 1 && Waiting(c.attempts[0]) && c.attempts[0].purpose != purpose && c.escrow.Some?
    ensures var r := Enqueue(c, purpose, kind, amount, routing, now);
            r.Some? ==>
              && |r.value.attempts| == 2 && r.value.attempts[0] == c.attempts[0]
              && StatusOf(r.value.attempts) == Pending
              && r.value.attempts[1] ==
                 Attempt(purpose, kind, Destination(c, kind), amount, r.value.attempts[1].rail, Unknown, None, now)
              && (c.escrow.value.custody.Econfirm? ==> r.value.attempts[1].rail.EconfirmRail?)
              && r.value == c.(attempts := r.value.attempts, tx := c.tx.(payoutStatus := Pending))
  {
    var r := Enqueue(c, purpose, kind, amount, routing, now);
    assert !Exists(c.attempts, purpose);
    if r.Some? {
      assert r.value.attempts == [c.attempts[0], r.value.attempts[1]];
      TwoPending(c.attempts[0], r.value.attempts[1]);
    }
  }

  lemma {:induction false} QueueSplitPlan(c: Case, i: nat, release: int, refund: int, routing: Routing, now: Time)
    requires Core(c) && c.attempts == [] && release > 0 && refund > 0 && !c.tx.status.AwaitingPayment?
    ensures var r := QueueSplit(c, i, release, refund, routing, now);
            r.Some? ==>
              && Quiet(c, r.value) && |r.value.attempts| == 2 && SplitPayout(r.value.attempts, release + refund)
              && r.value.attempts[0].amount == release && r.value.attempts[1].amount == refund
              && r.value.attempts[0].purpose == AdminSplitRelease(i)
              && r.value.escrow == Some(EscrowOrNew(c, now)) && StatusOf(r.value.attempts) == Pending
              && r.value == c.(attempts := r.value.attempts, escrow := r.value.escrow,
                               tx := c.tx.(payoutStatus := Pending))
              && (r.value.escrow.value.custody.Econfirm? ==> forall a <- r.value.attempts :: a.rail.EconfirmRail?)
  {
    var r := QueueSplit(c, i, release, refund, routing, now);
    if r.Some? {
      QueueEffect(c, AdminSplitRelease(i), Release, release, routing, now);
      var first := Enqueue(c, AdminSplitRelease(i), Release, release, routing, now).value;
      QueueSecond(first, AdminSplitRefund(i), Refund, refund, routing, now);
      var a := r.value.attempts;
      assert forall x <- a :: x == a[0] || x == a[1];
      assert Measure(r.value) == Measure(c);
    }
  }

  /** Whether a call committed or raised, its case satisfies the invariant and no money moved. */
  ghost predicate ResultOk(c: Case, r: ActionResult) {
    CaseInv(r.c) && Quiet(c, r.c)
  }

  // ----- actions

  /** A change of status, timestamps and dispute that ends in a consistent state. */
  ghost predicate GoodMove(c: Case, m: Case) {
    && CaseInv(c) && !c.tx.status.AwaitingPayment? && c.attempts == []
    && m == c.(tx := m.tx, disputes := m.disputes, trail := m.trail)
    && m.tx == c.tx.(status := m.tx.status, lockedAt := m.tx.lockedAt, atDoorAt := m.tx.atDoorAt,
                     holdStartedAt := m.tx.holdStartedAt, releasedAt := m.tx.releasedAt,
                     refundedAt := m.tx.refundedAt, updatedAt := m.tx.updatedAt)
    && m.tx.status !in {Initiated, AwaitingPayment, Domain.Dispatched, ReturnedToSeller}
    && TrailOk(m) && DisputesOk(m) && Timed(m.tx)
    && c.trail <= m.trail && |m.trail| + Measure(m) <= |c.trail| + Measure(c)
  }

  /** A move to another undecided state, with the timestamps and dispute it needs. */
  lemma {:induction false} MoveKeeps(c: Case, m: Case)
    requires GoodMove(c, m)
    ensures Core(m) && (!Terminal(m.tx.status) ==> CaseInv(m)) && Quiet(c, m)
  {
  }

  /** A move to a final state that queues the full amount, or is undone. */
  lemma {:induction false} DecidedKeeps(c: Case, m: Case, purpose: Purpose, kind: Kind, routing: Routing, now: Time)
    requires GoodMove(c, m) && !ShareOf(purpose)
    requires m.tx.status in (if kind.Release? then {Released, ResolvedRelease} else {RefundedBuyer, ResolvedRefund})
    ensures ResultOk(c, CommitIfQueued(Enqueue(m, purpose, kind, c.tx.amount, routing, now), c))
  {
    MoveKeeps(c, m);
    QueueFull(m, purpose, kind, routing, now);
  }

  lemma {:induction false} DispatchedKeeps(c: Case, user: User, now: Time)
    requires CaseInv(c)
    ensures ResultOk(c, Actions.Dispatched(c, user, now))
  {
    MovedTrail(c, OutForDelivery, now);
    if c.tx.status.Locked? {
      MoveKeeps(c, Moved(c, OutForDelivery, now));
    }
  }

  lemma {:induction false} ArrivedKeeps(c: Case, user: User, now: Time)
    requires CaseInv(c)
    ensures ResultOk(c, Arrived(c, user, now))
  {
    MovedTrail(c, AtDoorPendingInspection, now);
    if c.tx.status.OutForDelivery? {
      var moved := Moved(c, AtDoorPendingInspection, now);
      MoveKeeps(c, moved.(tx := moved.tx.(atDoorAt := Some(now))));
    }
  }

  lemma {:induction false} HeldKeeps(c: Case, now: Time)
    requires CaseInv(c) && c.tx.status.AtDoorPendingInspection?
    ensures var held := Moved(c, Hold24h, now);
            var r := held.(tx := held.tx.(holdStartedAt := Some(now), releasedAt := None));
            CaseInv(r) && Quiet(c, r)
  {
    MovedTrail(c, Hold24h, now);
    var held := Moved(c, Hold24h, now);
    MoveKeeps(c, held.(tx := held.tx.(holdStartedAt := Some(now), releasedAt := None)));
  }

  lemma {:induction false} OtpConfirmedKeeps(c: Case, user: User, found: bool, serialized: bool, matches: bool,
        routing: Routing, now: Time)
    requires CaseInv(c)
    ensures ResultOk(c, OtpConfirmed(c, user, found, serialized, matches, routing, now))
  {
    if c.tx.status.AtDoorPendingInspection? {
      HeldKeeps(c, now);
      MovedTrail(c, Released, now);
      var out := Moved(c, Released, now);
      var stamped := out.(tx := out.tx.(releasedAt := Some(now), holdStartedAt := None));
      DecidedKeeps(c, stamped, TxRelease, Release, routing, now);
    }
  }

  lemma {:induction false} OtpWithheldKeeps(c: Case, user: User, allowed: bool, routing: Routing, now: Time)
    requires CaseInv(c)
    ensures ResultOk(c, OtpWithheld(c, user, allowed, routing, now))
  {
    if c.tx.status.AtDoorPendingInspection? {
      WithheldKeeps(c, now);
      DecidedKeeps(c, WithheldFlow(c, now), TxRefund, Refund, routing, now);
    }
  }

  lemma {:induction false} WithheldTrail(c: Case, now: Time)
    requires TrailOk(c)
    ensures TrailOk(WithheldFlow(c, now)) && c.trail <= WithheldFlow(c, now).trail
    ensures |WithheldFlow(c, now).trail| == |c.trail| + 3
  {
    MovedTrail(c, ReturnInTransit, now);
    MovedTrail(Moved(c, ReturnInTransit, now), ReturnedToSeller, now);
    MovedTrail(Moved(Moved(c, ReturnInTransit, now), ReturnedToSeller, now), RefundedBuyer, now);
  }

  lemma {:induction false} WithheldKeeps(c: Case, now: Time)
    requires CaseInv(c) && c.tx.status.AtDoorPendingInspection?
    ensures GoodMove(c, WithheldFlow(c, now))
  {
    WithheldTrail(c, now);
  }

  lemma {:induction false} IssueReportedKeeps(c: Case, user: User, found: bool, serialized: bool,
        category: Category, rejections: Option<int>, now: Time)
    requires CaseInv(c)
    ensures ResultOk(c, IssueReported(c, user, found, serialized, category, rejections, now))
  {
    var r := IssueReported(c, user, found, serialized, category, rejections, now);
    MovedTrail(c, DisputedFunctional, now);
    if r.Committed? {
      MoveKeeps(c, r.c);
    }
  }

  lemma {:induction false} SentBackKeeps(c: Case, user: User, now: Time)
    requires CaseInv(c)
    ensures ResultOk(c, BuyerSentItBack(c, user, now))
  {
    MovedTrail(c, ReturnInTransit, now);
    if c.tx.status.DisputedFunctional? {
      MoveKeeps(c, Moved(c, ReturnInTransit, now));
    }
  }

  lemma {:induction false} SellerReceivedKeeps(c: Case, user: User, now: Time)
    requires CaseInv(c)
    ensures ResultOk(c, SellerGotItBack(c, user, now))
  {
    MovedTrail(c, ReturnReceived, now);
    if c.tx.status.ReturnInTransit? {
      MoveKeeps(c, Moved(c, ReturnReceived, now));
    }
  }

  lemma {:induction false} EscalatedKeeps(c: Case, user: User, now: Time)
    requires CaseInv(c)
    ensures ResultOk(c, Actions.Escalated(c, user, now))
  {
    var r := Actions.Escalated(c, user, now);
    MovedTrail(c, EscalatedAdminReview, now);
    if r.Committed? {
      MoveKeeps(c, r.c);
    }
  }

  lemma {:induction false} RefundIssuedKeeps(c: Case, user: User, found: bool, allowed: bool, routing: Routing,
        now: Time)
    requires CaseInv(c)
    ensures ResultOk(c, SellerResolved(c, user, found, Some(RefundIssued), allowed, routing, now))
  {
    if c.tx.status.ReturnReceived? {
      MovedTrail(c, RefundedBuyer, now);
      var back := Moved(c, RefundedBuyer, now);
      var stamped := back.(tx := back.tx.(refundedAt := Some(now)));
      var closed := CloseDispute(NoteSellerAction(stamped, Some(RefundIssued)), DisputeRefund, now);
      DecidedKeeps(c, closed, SellerRefund, Refund, routing, now);
    }
  }

  lemma {:induction false} ShippedKeeps(c: Case, action: Option<SellerAction>, now: Time)
    requires CaseInv(c) && c.tx.status.ReturnReceived?
    ensures ResultOk(c, Committed(ReplacementSent(c, action, now)))
  {
    MovedTrail(c, AwaitingBuyerReconfirmation, now);
    MoveKeeps(c, ReplacementSent(c, action, now));
  }

  lemma {:induction false} ResolutionShips(c: Case, user: User, found: bool, action: Option<SellerAction>,
        allowed: bool, routing: Routing, now: Time)
    requires action != Some(RefundIssued)
    ensures var r := SellerResolved(c, user, found, action, allowed, routing, now);
            if r.Committed? then c.tx.status.ReturnReceived? && r.c == ReplacementSent(c, action, now) else r.c == c
  {
  }

  lemma {:induction false} SellerResolvedKeeps(c: Case, user: User, found: bool, action: Option<SellerAction>,
        allowed: bool, routing: Routing, now: Time)
    requires CaseInv(c)
    ensures ResultOk(c, SellerResolved(c, user, found, action, allowed, routing, now))
  {
    if action == Some(RefundIssued) {
      RefundIssuedKeeps(c, user, found, allowed, routing, now);
    } else {
      ResolutionShips(c, user, found, action, allowed, routing, now);
      if c.tx.status.ReturnReceived? {
        ShippedKeeps(c, action, now);
      }
    }
  }

  lemma {:induction false} AcceptedKeeps(c: Case, user: User, routing: Routing, now: Time)
    requires CaseInv(c)
    ensures ResultOk(c, Reconfirmed(c, user, true, routing, now))
  {
    if c.tx.status.AwaitingBuyerReconfirmation? {
      MovedTrail(c, ResolvedRelease, now);
      var moved := Moved(c, ResolvedRelease, now);
      var stamped := moved.(tx := moved.tx.(releasedAt := Some(now)));
      var closed := CloseDispute(stamped, DisputeRelease, now);
      DecidedKeeps(c, closed, ReconfirmRelease, Release, routing, now);
    }
  }

  lemma {:induction false} RejectedIsGood(c: Case, user: User, routing: Routing, now: Time)
    requires CaseInv(c)
    ensures var r := Reconfirmed(c, user, false, routing, now); r.Committed? ==> GoodMove(c, r.c)
  {
    MovedTrail(c, ReturnReceived, now);
    MovedTrail(c, EscalatedAdminReview, now);
  }

  lemma {:induction false} RejectedKeeps(c: Case, user: User, routing: Routing, now: Time)
    requires CaseInv(c)
    ensures ResultOk(c, Reconfirmed(c, user, false, routing, now))
  {
    RejectedIsGood(c, user, routing, now);
    var r := Reconfirmed(c, user, false, routing, now);
    if r.Committed? {
      MoveKeeps(c, r.c);
    }
  }

  lemma {:induction false} RefundDecisionKeeps(c: Case, share: Option<Decimal>, supported: bool,
        routing: Routing, now: Time)
    requires CaseInv(c) && c.tx.status.EscalatedAdminReview?
    ensures ResultOk(c, ForceResolved(c, 0, false, DecideRefund, share, supported, routing, now))
  {
    MovedTrail(c, ResolvedRefund, now);
    var moved := Moved(c, ResolvedRefund, now);
    var stamped := moved.(tx := moved.tx.(releasedAt := None, refundedAt := Some(now)));
    var closed := Decided(stamped, 0, DisputeRefund, DecideRefund, None, now);
    DecidedKeeps(c, closed, AdminRefund(0), Refund, routing, now);
  }

  lemma {:induction false} ReleaseDecisionKeeps(c: Case, share: Option<Decimal>, supported: bool,
        routing: Routing, now: Time)
    requires CaseInv(c) && c.tx.status.EscalatedAdminReview?
    ensures ResultOk(c, ForceResolved(c, 0, false, DecideRelease, share, supported, routing, now))
  {
    MovedTrail(c, ResolvedRelease, now);
    var moved := Moved(c, ResolvedRelease, now);
    var stamped := moved.(tx := moved.tx.(releasedAt := Some(now), refundedAt := None));
    var closed := Decided(stamped, 0, DisputeRelease, DecideRelease, None, now);
    DecidedKeeps(c, closed, AdminRelease(0), Release, routing, now);
  }

  /** Deciding a case whose two shares are queued completes it. */
  lemma {:induction false} SplitCompletes(c: Case, q: Case, ratio: int, now: Time)
    requires CaseInv(c) && c.tx.status.EscalatedAdminReview? && Quiet(c, q)
    requires q == c.(attempts := q.attempts, escrow := q.escrow, tx := c.tx.(payoutStatus := Pending))
    requires q.escrow == Some(EscrowOrNew(c, now)) && StatusOf(q.attempts) == Pending
    requires SplitPayout(q.attempts, c.tx.amount) && q.attempts[0].purpose.dispute == 0
    requires q.escrow.value.custody.Econfirm? ==> forall a <- q.attempts :: a.rail.EconfirmRail?
    ensures var r := SplitClosed(q, 0, ratio, now); CaseInv(r) && Quiet(c, r)
  {
    MovedTrail(q, ResolvedSplit, now);
  }

  lemma {:induction false} SplitDecisionKeeps(c: Case, share: Option<Decimal>, supported: bool,
        routing: Routing, now: Time)
    requires CaseInv(c) && c.tx.status.EscalatedAdminReview?
    ensures ResultOk(c, ForceResolved(c, 0, false, DecideSplit, share, supported, routing, now))
  {
    var r := ForceResolved(c, 0, false, DecideSplit, share, supported, routing, now);
    if r.Committed? {
      var ratio := ChosenRatio(share);
      var (release, refund) := SplitAmounts(c.tx.amount, ratio);
      QueueSplitPlan(c, 0, release, refund, routing, now);
      SplitCompletes(c, QueueSplit(c, 0, release, refund, routing, now).value, ratio, now);
    }
  }

  lemma {:induction false} ForceResolvedKeeps(c: Case, i: nat, blank: bool, decision: Decision,
        share: Option<Decimal>, supported: bool, routing: Routing, now: Time)
    requires CaseInv(c)
    ensures ResultOk(c, ForceResolved(c, i, blank, decision, share, supported, routing, now))
  {
    if c.tx.status.EscalatedAdminReview? && i < |c.disputes| && !blank {
      assert i == 0;
      match decision
      case DecideRefund => RefundDecisionKeeps(c, share, supported, routing, now);
      case DecideRelease => ReleaseDecisionKeeps(c, share, supported, routing, now);
      case DecideSplit => SplitDecisionKeeps(c, share, supported, routing, now);
    }
  }

  /** Every party action and admin decision keeps the invariant. */
  lemma {:induction false} PerformKeeps(c: Case, user: User, action: Action, routing: Routing, now: Time)
    requires CaseInv(c)
    ensures CaseInv(Perform(c, user, action, routing, now).c) && Quiet(c, Perform(c, user, action, routing, now).c)
  {
    match action
    case Dispatch => DispatchedKeeps(c, user, now);
    case Arrive => ArrivedKeeps(c, user, now);
    case ConfirmOtp(found, serialized, matches) => OtpConfirmedKeeps(c, user, found, serialized, matches, routing, now);
    case WithholdOtp(allowed) => OtpWithheldKeeps(c, user, allowed, routing, now);
    case ReportIssue(found, serialized, category, rejections) =>
      IssueReportedKeeps(c, user, found, serialized, category, rejections, now);
    case SentBack => SentBackKeeps(c, user, now);
    case SellerReceived => SellerReceivedKeeps(c, user, now);
    case SellerResolution(found, act, allowed) => SellerResolvedKeeps(c, user, found, act, allowed, routing, now);
    case Reconfirm(accepted) =>
      if accepted {
        AcceptedKeeps(c, user, routing, now);
      } else {
        RejectedKeeps(c, user, routing, now);
      }
    case Escalate => EscalatedKeeps(c, user, now);
    case ForceResolve(i, blank, decision, share, supported) =>
      ForceResolvedKeeps(c, i, blank, decision, share, supported, routing, now);
  }

  /** A timeout's result satisfies the invariant and moved no money. */
  ghost predicate TimeoutOk(c: Case, r: Option<Case>) {
    r.Some? ==> CaseInv(r.value) && Quiet(c, r.value)
  }

  lemma {:induction false} NoDispatchKeeps(c: Case, routing: Routing, now: Time)
    requires CaseInv(c) && c.tx.status.Locked?
    ensures TimeoutOk(c, TimeoutMove(NoDispatchRule, c, routing, now))
  {
    MovedTrail(c, RefundedBuyer, now);
    var moved := Moved(c, RefundedBuyer, now);
    var stamped := moved.(tx := moved.tx.(refundedAt := Some(now)));
    DecidedKeeps(c, stamped, TimeoutRefund, Refund, routing, now);
  }

  lemma {:induction false} HoldOverKeeps(c: Case, routing: Routing, now: Time)
    requires CaseInv(c) && c.tx.status.Hold24h?
    ensures TimeoutOk(c, TimeoutMove(HoldRule, c, routing, now))
  {
    MovedTrail(c, Released, now);
    var moved := Moved(c, Released, now);
    var stamped := moved.(tx := moved.tx.(releasedAt := Some(now)));
    DecidedKeeps(c, stamped, HoldRelease, Release, routing, now);
  }

  lemma {:induction false} NotSentBackKeeps(c: Case, routing: Routing, now: Time)
    requires CaseInv(c) && c.tx.status.DisputedFunctional?
    ensures TimeoutOk(c, TimeoutMove(NotSentBackRule, c, routing, now))
  {
    MovedTrail(c, Released, now);
    var moved := Moved(c, Released, now);
    var stamped := moved.(tx := moved.tx.(releasedAt := Some(now)));
    var closed := if OpenDispute(LatestDispute(c).value.status) then
        CloseDispute(stamped, Canceled, now)
      else stamped;
    DecidedKeeps(c, closed, DisputeTimeoutRelease, Release, routing, now);
  }

  lemma {:induction false} NotInspectedKeeps(c: Case, routing: Routing, now: Time)
    requires CaseInv(c) && c.tx.status.AtDoorPendingInspection?
    ensures TimeoutOk(c, TimeoutMove(AtDoorRule, c, routing, now))
  {
    WithheldKeeps(c, now);
    DecidedKeeps(c, WithheldFlow(c, now), TimeoutAtDoorRefund, Refund, routing, now);
  }

  lemma {:induction false} NotReceivedKeeps(c: Case, routing: Routing, now: Time)
    requires CaseInv(c) && c.tx.status.ReturnInTransit?
    ensures TimeoutOk(c, TimeoutMove(NotReceivedRule, c, routing, now))
  {
    MovedTrail(c, EscalatedAdminReview, now);
    MoveKeeps(c, TimeoutMove(NotReceivedRule, c, routing, now).value);
  }

  /** So does every timeout rule, on the transactions of its state. */
  lemma {:induction false} TimeoutKeeps(rule: Rule, c: Case, routing: Routing, now: Time)
    requires CaseInv(c) && c.tx.status == WatchedStatus(rule)
    ensures TimeoutOk(c, TimeoutMove(rule, c, routing, now))
  {
    match rule
    case AtDoorRule => NotInspectedKeeps(c, routing, now);
    case NoDispatchRule => NoDispatchKeeps(c, routing, now);
    case HoldRule => HoldOverKeeps(c, routing, now);
    case NotSentBackRule => NotSentBackKeeps(c, routing, now);
    case NotReceivedRule => NotReceivedKeeps(c, routing, now);
  }
}
