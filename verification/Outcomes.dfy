/** The design's transition and payout tables, column by column, and the proof that every action, admin
    decision and timeout follows them: who may call it, from which state to which, what it stamps, what
    becomes of the dispute, and who is to be paid how much. */
module Outcomes {
  import opened Domain
  import opened Payouts
  import opened Actions
  import opened CaseInvariant
  import opened Market
  import Rounding

  // ----- who may call, and when

  datatype Actor = TheBuyer | TheSeller | EitherParty | AnAdmin

  function ActorOf(action: Action): Actor {
    match action
    case Dispatch => TheSeller
    case Arrive => TheSeller
    case ConfirmOtp(_, _, _) => TheBuyer
    case WithholdOtp(_) => TheBuyer
    case ReportIssue(_, _, _, _) => TheBuyer
    case SentBack => TheBuyer
    case SellerReceived => TheSeller
    case SellerResolution(_, _, _) => TheSeller
    case Reconfirm(_) => TheBuyer
    case Escalate => EitherParty
    case ForceResolve(_, _, _, _, _) => AnAdmin
  }

  /** The admin's role is checked before the service is called. */
  predicate MayAct(tx: Tx, user: User, actor: Actor) {
    match actor
    case TheBuyer => user.role.Buyer? && user.id == tx.buyer
    case TheSeller => user.role.Seller? && user.id == tx.seller
    case EitherParty => user.id == tx.buyer || user.id == tx.seller
    case AnAdmin => true
  }

  /** The states an action starts from. */
  function StartsFrom(action: Action): set<Status> {
    match action
    case Dispatch => {Locked}
    case Arrive => {OutForDelivery}
    case ConfirmOtp(_, _, _) => {AtDoorPendingInspection}
    case WithholdOtp(_) => {AtDoorPendingInspection}
    case ReportIssue(_, _, _, _) => {Hold24h}
    case SentBack => {DisputedFunctional}
    case SellerReceived => {ReturnInTransit}
    case SellerResolution(_, _, _) => {ReturnReceived}
    case Reconfirm(_) => {AwaitingBuyerReconfirmation}
    case Escalate => {DisputedFunctional, ReturnInTransit, ReturnReceived, AwaitingBuyerReconfirmation}
    case ForceResolve(_, _, _, _, _) => {EscalatedAdminReview}
  }

  /** Earlier rejections of a replacement, as far as the evidence holds a count. */
  function Rejections(c: Case): nat {
    var d := LatestDispute(c);
    if d.Some? && d.value.rejections.Some? && d.value.rejections.value > 0 then d.value.rejections.value else 0
  }

  /** The state it ends in: one rejected replacement goes back to the seller, a second one to support. */
  function EndsIn(action: Action, rejections: nat): Status {
    match action
    case Dispatch => OutForDelivery
    case Arrive => AtDoorPendingInspection
    case ConfirmOtp(_, serialized, _) => if serialized then Hold24h else Released
    case WithholdOtp(_) => RefundedBuyer
    case ReportIssue(_, _, _, _) => DisputedFunctional
    case SentBack => ReturnInTransit
    case SellerReceived => ReturnReceived
    case SellerResolution(_, act, _) => if act == Some(RefundIssued) then RefundedBuyer else AwaitingBuyerReconfirmation
    case Reconfirm(accepted) =>
      if accepted then ResolvedRelease else if rejections == 0 then ReturnReceived else EscalatedAdminReview
    case Escalate => EscalatedAdminReview
    case ForceResolve(_, _, decision, _, _) =>
      if decision.DecideRefund? then ResolvedRefund
      else if decision.DecideRelease? then ResolvedRelease
      else ResolvedSplit
  }

  /** The states it passes through on the way. */
  function Passing(action: Action): seq<Status> {
    if action.WithholdOtp? then [ReturnInTransit, ReturnedToSeller] else []
  }

  // ----- who is paid

  /** Cents for the seller and for the buyer, and what the payouts are for. */
  datatype Award = Award(seller: int, buyer: int, release: Purpose, refund: Purpose)

  function ToSeller(amount: int, purpose: Purpose): Option<Award> {
    Some(Award(amount, 0, purpose, purpose))
  }

  function ToBuyer(amount: int, purpose: Purpose): Option<Award> {
    Some(Award(0, amount, purpose, purpose))
  }

  /** The seller's share of a split in ten-thousandths; a missing share is one half, and so is zero. */
  function Share(share: Option<Rounding.Decimal>): int {
    if share.Some? && share.value.units != 0 then Rounding.ToRatio(share.value) else 5000
  }

  function AwardOf(action: Action, amount: int): Option<Award> {
    match action
    case ConfirmOtp(_, serialized, _) => if serialized then None else ToSeller(amount, TxRelease)
    case WithholdOtp(_) => ToBuyer(amount, TxRefund)
    case SellerResolution(_, act, _) => if act == Some(RefundIssued) then ToBuyer(amount, SellerRefund) else None
    case Reconfirm(accepted) => if accepted then ToSeller(amount, ReconfirmRelease) else None
    case ForceResolve(i, _, decision, share, _) =>
      if decision.DecideRefund? then ToBuyer(amount, AdminRefund(i))
      else if decision.DecideRelease? then ToSeller(amount, AdminRelease(i))
      else
        var sellers := Rounding.RoundHalfEven(amount * Share(share), 10000);
        Some(Award(sellers, amount - sellers, AdminSplitRelease(i), AdminSplitRefund(i)))
    case _ => None
  }

  function TimeoutAward(rule: Rule, amount: int): Option<Award> {
    match rule
    case AtDoorRule => ToBuyer(amount, TimeoutAtDoorRefund)
    case NoDispatchRule => ToBuyer(amount, TimeoutRefund)
    case HoldRule => ToSeller(amount, HoldRelease)
    case NotSentBackRule => ToSeller(amount, DisputeTimeoutRelease)
    case NotReceivedRule => None
  }

  function TimeoutEndsIn(rule: Rule): Status {
    match rule
    case AtDoorRule => RefundedBuyer
    case NoDispatchRule => RefundedBuyer
    case HoldRule => Released
    case NotSentBackRule => Released
    case NotReceivedRule => EscalatedAdminReview
  }

  /** Each party that is to be paid has a phone, and there is a rail. */
  predicate Payable(c: Case, award: Option<Award>, routing: Routing) {
    award.Some? ==>
      && (award.value.seller > 0 ==> c.tx.seller !in routing.noPhone)
      && (award.value.buyer > 0 ==> c.tx.buyer !in routing.noPhone)
      && ((c.escrow.Some? && c.escrow.value.custody.Econfirm?) || routing.defaultRail.Some?)
  }

  /** The queued payouts, the seller's first. */
  function PayoutsOf(c: Case, award: Award, routing: Routing, now: Time): seq<Attempt> {
    var rail :=
      if c.escrow.Some? && c.escrow.value.custody.Econfirm? then EconfirmRail
      else if routing.defaultRail.Some? then DefaultRail(routing.defaultRail.value) else EconfirmRail;
    (if award.seller > 0 then [Attempt(award.release, Release, c.tx.seller, award.seller, rail, Unknown, None, now)]
     else []) +
    (if award.buyer > 0 then [Attempt(award.refund, Refund, c.tx.buyer, award.buyer, rail, Unknown, None, now)] else [])
  }

  // ----- what a call leaves behind

  /** What the call's own inputs must say. */
  predicate InputsOk(c: Case, action: Action) {
    match action
    case ConfirmOtp(found, _, matches) => found && matches
    case WithholdOtp(allowed) => allowed
    case ReportIssue(found, serialized, category, _) => found && serialized && !category.UnknownCategory?
    case SellerResolution(found, act, allowed) => found && act.Some? && allowed
    case Escalate => c.disputes != []
    case ForceResolve(i, blank, decision, share, supported) =>
      && !blank && i < |c.disputes| && c.disputes[i].status.DisputeEscalated?
      && (decision.DecideSplit? ==>
           && supported && 0 < Share(share) < 10000
           && AwardOf(action, c.tx.amount).value.seller > 0 && AwardOf(action, c.tx.amount).value.buyer > 0)
    case _ => true
  }

  /** Exactly when a call commits. */
  predicate Admitted(c: Case, user: User, action: Action, routing: Routing) {
    && MayAct(c.tx, user, ActorOf(action)) && c.tx.status in StartsFrom(action) && InputsOk(c, action)
    && Payable(c, AwardOf(action, c.tx.amount), routing)
  }

  /** What a call is refused for, the first of these that applies: no reason given, the wrong role, another
      party's case, a missing row, the wrong state, its other inputs, no way to pay. */
  function RefusedFor(c: Case, user: User, action: Action): Refusal {
    var actor := ActorOf(action);
    if actor.AnAdmin? && action.reasonBlank then ReasonRequired
    else if (actor.TheBuyer? && !user.role.Buyer?) || (actor.TheSeller? && !user.role.Seller?) then WrongRole
    else if !MayAct(c.tx, user, actor) then Forbidden
    else if actor.AnAdmin? && action.dispute >= |c.disputes| then NotFound
    else if c.tx.status !in StartsFrom(action) then InvalidState
    else
      match action
      case ConfirmOtp(found, _, matches) => if !found then NotFound else if !matches then InvalidOtp else NotRoutable
      case WithholdOtp(allowed) => if !allowed then Invalid else NotRoutable
      case ReportIssue(found, serialized, _, _) =>
        if !found then NotFound else if !serialized then InvalidState else Invalid
      case SellerResolution(found, act, allowed) =>
        if !found then NotFound else if act.None? || !allowed then Invalid else NotRoutable
      case Escalate => InvalidState
      case ForceResolve(i, _, decision, share, supported) =>
        if !c.disputes[i].status.DisputeEscalated? then InvalidState
        else if decision.DecideSplit? && !supported then SplitUnsupported
        else if !InputsOk(c, action) then Invalid
        else NotRoutable
      case _ => NotRoutable
  }

  /** The columns of the transaction row, each with the actions that set or clear it. */
  function TxAfter(tx: Tx, action: Action, rejections: nat, now: Time): Tx {
    tx.(status := EndsIn(action, rejections), updatedAt := now,
        payoutStatus := if AwardOf(action, tx.amount).Some? then Pending else tx.payoutStatus,
        atDoorAt := if action.Arrive? then Some(now) else tx.atDoorAt,
        holdStartedAt :=
          if action.ConfirmOtp? then (if action.serialized then Some(now) else None) else tx.holdStartedAt,
        releasedAt :=
          if (action.ConfirmOtp? && !action.serialized) || action == Reconfirm(true) ||
             (action.ForceResolve? && !action.decision.DecideRefund?) then Some(now)
          else if action.ConfirmOtp? || action.ForceResolve? then None
          else tx.releasedAt,
        refundedAt :=
          if action.WithholdOtp? || (action.SellerResolution? && action.action == Some(RefundIssued)) ||
             (action.ForceResolve? && !action.decision.DecideRelease?) then Some(now)
          else if action.ForceResolve? then None
          else tx.refundedAt)
  }

  /** The dispute a report opens. */
  function Opened(category: Category, rejections: Option<int>, now: Time): Dispute {
    if category.OtherCategory? then Dispute(DisputeEscalated, rejections, Some(now), None, None, None, None)
    else Dispute(Open, rejections, None, None, None, None, None)
  }

  /** The columns of the dispute row. */
  function DisputeAfter(d: Dispute, action: Action, rejections: nat, now: Time): Dispute {
    match action
    case SellerResolution(_, act, _) =>
      if act == Some(RefundIssued) then d.(sellerAction := act, status := DisputeRefund, resolvedAt := Some(now))
      else d.(sellerAction := act, status := AwaitingReconfirmation)
    case Reconfirm(accepted) =>
      if accepted then d.(status := DisputeRelease, resolvedAt := Some(now))
      else if rejections == 0 then d.(status := DisputeReturnReceived, rejections := Some(1))
      else d.(status := DisputeEscalated, rejections := Some(rejections + 1), escalatedAt := Some(now))
    case Escalate => d.(status := DisputeEscalated, escalatedAt := Some(now))
    case ForceResolve(_, _, decision, share, _) =>
      var status := if decision.DecideRefund? then DisputeRefund
                    else if decision.DecideRelease? then DisputeRelease else DisputeSplit;
      d.(status := status, decision := Some(decision), resolvedAt := Some(now),
         splitRatio := if decision.DecideSplit? then Some(Share(share)) else None)
    case _ => d
  }

  function DisputesAfter(c: Case, action: Action, now: Time): seq<Dispute> {
    if action.ReportIssue? then c.disputes + [Opened(action.category, action.rejections, now)]
    else if |c.disputes| == 1 then [DisputeAfter(c.disputes[0], action, Rejections(c), now)]
    else c.disputes
  }

  /** A path through some states, as transitions. */
  function Path(was: Status, via: seq<Status>, to: Status): seq<Transition>
    decreases |via|
  {
    if via == [] then [Transition(was, to)] else [Transition(was, via[0])] + Path(via[0], via[1..], to)
  }

  /** An award opens the escrow where there is none and queues its payouts. */
  function Awarded(c: Case, award: Option<Award>, routing: Routing, now: Time): Case {
    if award.None? then c
    else
      c.(attempts := PayoutsOf(c, award.value, routing, now),
         escrow := if c.escrow.Some? then c.escrow
                   else Some(Escrow(c.tx.amount, 0, 0, 0, Simulated, None, false, now)))
  }

  /** The case after a committed call, by the tables. */
  function ByTable(c: Case, action: Action, routing: Routing, now: Time): Case {
    var rejections := Rejections(c);
    Awarded(c, AwardOf(action, c.tx.amount), routing, now).(
      tx := TxAfter(c.tx, action, rejections, now),
      disputes := DisputesAfter(c, action, now),
      trail := c.trail + Path(c.tx.status, Passing(action), EndsIn(action, rejections)))
  }

  /** A result that follows the tables: committed exactly when admitted, with that case; otherwise nothing
      has changed, but for the touched row after a wrong delivery code. */
  predicate Follows(c: Case, user: User, action: Action, routing: Routing, now: Time, r: ActionResult) {
    if Admitted(c, user, action, routing) then r == Committed(ByTable(c, action, routing, now))
    else
      var why := RefusedFor(c, user, action);
      r == Raised(why, if why.InvalidOtp? then c.(tx := c.tx.(updatedAt := now)) else c)
  }

  // ----- each action

  /** What queueing the first payout of a case comes to. */
  lemma {:induction false} FirstPayout(m: Case, purpose: Purpose, kind: Kind, amount: int, routing: Routing, now: Time)
    requires m.attempts == [] && amount > 0
    ensures var r := Enqueue(m, purpose, kind, amount, routing, now);
            var econfirm := m.escrow.Some? && m.escrow.value.custody.Econfirm?;
            var payee := if kind.Release? then m.tx.seller else m.tx.buyer;
            && (r.Some? <==> payee !in routing.noPhone && (econfirm || routing.defaultRail.Some?))
            && (r.Some? ==>
                 var rail := if econfirm then EconfirmRail else DefaultRail(routing.defaultRail.value);
                 r.value == m.(
                   attempts := [Attempt(purpose, kind, payee, amount, rail, Unknown, None, now)],
                   tx := m.tx.(payoutStatus := Pending),
                   escrow := if m.escrow.Some? then m.escrow
                             else Some(Escrow(m.tx.amount, 0, 0, 0, Simulated, None, false, now))))
  {
    assert !Exists(m.attempts, purpose);
  }

  /** A decided case with one full payout is what the tables say. */
  lemma {:induction false} FullFollows(c: Case, m: Case, purpose: Purpose, kind: Kind, award: Option<Award>,
        routing: Routing, now: Time)
    requires c.attempts == [] && c.tx.amount > 0 && m.attempts == [] && m.escrow == c.escrow
    requires m.tx.amount == c.tx.amount && m.tx.buyer == c.tx.buyer && m.tx.seller == c.tx.seller
    requires award == (if kind.Release? then ToSeller(c.tx.amount, purpose) else ToBuyer(c.tx.amount, purpose))
    ensures var r := Enqueue(m, purpose, kind, c.tx.amount, routing, now);
            if Payable(c, award, routing) then
              r == Some(Awarded(c, award, routing, now).(
                          tx := m.tx.(payoutStatus := Pending), disputes := m.disputes, trail := m.trail,
                          opening := m.opening, prompts := m.prompts))
            else r == None
  {
    FirstPayout(m, purpose, kind, c.tx.amount, routing, now);
    var payouts := PayoutsOf(c, award.value, routing, now);
    assert |payouts| == 1 && payouts == [payouts[0]];
  }

  lemma {:induction false} DispatchFollows(c: Case, user: User, routing: Routing, now: Time)
    requires CaseInv(c)
    ensures Follows(c, user, Dispatch, routing, now, Actions.Dispatched(c, user, now))
  {
  }

  lemma {:induction false} ArriveFollows(c: Case, user: User, routing: Routing, now: Time)
    requires CaseInv(c)
    ensures Follows(c, user, Arrive, routing, now, Arrived(c, user, now))
  {
  }

  lemma {:induction false} OtpFollows(c: Case, user: User, found: bool, serialized: bool, matches: bool,
        routing: Routing,
        now: Time)
    requires CaseInv(c)
    ensures Follows(c, user, ConfirmOtp(found, serialized, matches), routing, now,
                    OtpConfirmed(c, user, found, serialized, matches, routing, now))
  {
    if c.tx.status.AtDoorPendingInspection? && !serialized {
      var moved := Moved(c, Released, now);
      var stamped := moved.(tx := moved.tx.(releasedAt := Some(now), holdStartedAt := None));
      FullFollows(c, stamped, TxRelease, Release, ToSeller(c.tx.amount, TxRelease), routing, now);
    }
  }

  lemma {:induction false} WithholdFollows(c: Case, user: User, allowed: bool, routing: Routing, now: Time)
    requires CaseInv(c)
    ensures Follows(c, user, WithholdOtp(allowed), routing, now, OtpWithheld(c, user, allowed, routing, now))
  {
    if c.tx.status.AtDoorPendingInspection? {
      FullFollows(c, WithheldFlow(c, now), TxRefund, Refund, ToBuyer(c.tx.amount, TxRefund), routing, now);
      WithheldPath(c, now);
    }
  }

  lemma {:induction false} WithheldPath(c: Case, now: Time)
    requires c.tx.status.AtDoorPendingInspection?
    ensures WithheldFlow(c, now).trail ==
            c.trail + Path(AtDoorPendingInspection, [ReturnInTransit, ReturnedToSeller], RefundedBuyer)
  {
    assert [ReturnInTransit, ReturnedToSeller][1..] == [ReturnedToSeller] && [ReturnedToSeller][1..] == [];
  }

  lemma {:induction false} ReportFollows(c: Case, user: User, found: bool, serialized: bool, category: Category,
        rejections: Option<int>, routing: Routing, now: Time)
    requires CaseInv(c)
    ensures Follows(c, user, ReportIssue(found, serialized, category, rejections), routing, now,
                    IssueReported(c, user, found, serialized, category, rejections, now))
  {
  }

  lemma {:induction false} ReturnFollows(c: Case, user: User, routing: Routing, now: Time)
    requires CaseInv(c)
    ensures Follows(c, user, SentBack, routing, now, BuyerSentItBack(c, user, now))
    ensures Follows(c, user, SellerReceived, routing, now, SellerGotItBack(c, user, now))
  {
  }

  lemma {:induction false} ResolutionFollows(c: Case, user: User, found: bool, act: Option<SellerAction>, allowed: bool,
        routing: Routing, now: Time)
    requires CaseInv(c)
    ensures Follows(c, user, SellerResolution(found, act, allowed), routing, now,
                    SellerResolved(c, user, found, act, allowed, routing, now))
  {
    if c.tx.status.ReturnReceived? && act == Some(RefundIssued) {
      var moved := Moved(c, RefundedBuyer, now);
      var stamped := moved.(tx := moved.tx.(refundedAt := Some(now)));
      var closed := CloseDispute(NoteSellerAction(stamped, act), DisputeRefund, now);
      FullFollows(c, closed, SellerRefund, Refund, ToBuyer(c.tx.amount, SellerRefund), routing, now);
    }
  }

  lemma {:induction false} RejectFollows(c: Case, user: User, routing: Routing, now: Time)
    requires CaseInv(c)
    ensures Follows(c, user, Reconfirm(false), routing, now, Reconfirmed(c, user, false, routing, now))
  {
  }

  lemma {:induction false} ReconfirmFollows(c: Case, user: User, accepted: bool, routing: Routing, now: Time)
    requires CaseInv(c)
    ensures Follows(c, user, Reconfirm(accepted), routing, now, Reconfirmed(c, user, accepted, routing, now))
  {
    if !accepted {
      RejectFollows(c, user, routing, now);
    } else if c.tx.status.AwaitingBuyerReconfirmation? {
      var moved := Moved(c, ResolvedRelease, now);
      var stamped := moved.(tx := moved.tx.(releasedAt := Some(now)));
      var closed := CloseDispute(stamped, DisputeRelease, now);
      FullFollows(c, closed, ReconfirmRelease, Release, ToSeller(c.tx.amount, ReconfirmRelease), routing, now);
    }
  }

  lemma {:induction false} EscalateFollows(c: Case, user: User, routing: Routing, now: Time)
    requires CaseInv(c)
    ensures Follows(c, user, Escalate, routing, now, Actions.Escalated(c, user, now))
  {
  }

  // ----- the admin's decision

  lemma {:induction false} RefundFollows(c: Case, user: User, i: nat, blank: bool, share: Option<Rounding.Decimal>,
        supported: bool, routing: Routing, now: Time)
    requires CaseInv(c)
    ensures Follows(c, user, ForceResolve(i, blank, DecideRefund, share, supported), routing, now,
                    ForceResolved(c, i, blank, DecideRefund, share, supported, routing, now))
  {
    if c.tx.status.EscalatedAdminReview? && i == 0 {
      var moved := Moved(c, ResolvedRefund, now);
      var stamped := moved.(tx := moved.tx.(releasedAt := None, refundedAt := Some(now)));
      var decided := Decided(stamped, i, DisputeRefund, DecideRefund, None, now);
      FullFollows(c, decided, AdminRefund(i), Refund, ToBuyer(c.tx.amount, AdminRefund(i)), routing, now);
    }
  }

  lemma {:induction false} ReleaseFollows(c: Case, user: User, i: nat, blank: bool, share: Option<Rounding.Decimal>,
        supported: bool, routing: Routing, now: Time)
    requires CaseInv(c)
    ensures Follows(c, user, ForceResolve(i, blank, DecideRelease, share, supported), routing, now,
                    ForceResolved(c, i, blank, DecideRelease, share, supported, routing, now))
  {
    if c.tx.status.EscalatedAdminReview? && i == 0 {
      var moved := Moved(c, ResolvedRelease, now);
      var stamped := moved.(tx := moved.tx.(releasedAt := Some(now), refundedAt := None));
      var decided := Decided(stamped, i, DisputeRelease, DecideRelease, None, now);
      FullFollows(c, decided, AdminRelease(i), Release, ToSeller(c.tx.amount, AdminRelease(i)), routing, now);
    }
  }

  /** Queueing both shares of a split. */
  lemma {:induction false} SharesFollow(c: Case, i: nat, award: Award, routing: Routing, now: Time)
    requires CaseInv(c) && c.tx.status.EscalatedAdminReview? && award.seller > 0 && award.buyer > 0
    requires award.release == AdminSplitRelease(i) && award.refund == AdminSplitRefund(i)
    ensures var q := QueueSplit(c, i, award.seller, award.buyer, routing, now);
            if Payable(c, Some(award), routing) then
              q == Some(Awarded(c, Some(award), routing, now).(tx := c.tx.(payoutStatus := Pending)))
            else q == None
  {
    FirstPayout(c, AdminSplitRelease(i), Release, award.seller, routing, now);
    var first := Enqueue(c, AdminSplitRelease(i), Release, award.seller, routing, now);
    if first.Some? {
      SecondPayout(first.value, i, award.buyer, routing, now);
      if QueueSplit(c, i, award.seller, award.buyer, routing, now).Some? {
        QueueSplitPlan(c, i, award.seller, award.buyer, routing, now);
      }
    }
  }

  lemma {:induction false} SecondPayout(m: Case, i: nat, amount: int, routing: Routing, now: Time)
    requires |m.attempts| == 1 && m.attempts[0].purpose == AdminSplitRelease(i) && m.escrow.Some? && amount > 0
    ensures var r := Enqueue(m, AdminSplitRefund(i), Refund, amount, routing, now);
            var econfirm := m.escrow.value.custody.Econfirm?;
            && (r.Some? <==> m.tx.buyer !in routing.noPhone && (econfirm || routing.defaultRail.Some?))
            && (r.Some? ==>
                 var rail := if econfirm then EconfirmRail else DefaultRail(routing.defaultRail.value);
                 r.value == m.(
                   attempts := m.attempts +
                               [Attempt(AdminSplitRefund(i), Refund, m.tx.buyer, amount, rail, Unknown, None, now)],
                   tx := m.tx.(payoutStatus := Pending)))
  {
    assert !Exists(m.attempts, AdminSplitRefund(i));
  }

  lemma {:induction false} SplitFollows(c: Case, user: User, i: nat, blank: bool, share: Option<Rounding.Decimal>,
        supported: bool, routing: Routing, now: Time)
    requires CaseInv(c)
    ensures Follows(c, user, ForceResolve(i, blank, DecideSplit, share, supported), routing, now,
                    ForceResolved(c, i, blank, DecideSplit, share, supported, routing, now))
  {
    SplitGuards(c, user, i, blank, share, supported, routing, now);
    if c.tx.status.EscalatedAdminReview? && InputsOk(c, ForceResolve(i, blank, DecideSplit, share, supported)) {
      SplitCommits(c, user, i, blank, share, supported, routing, now);
    }
  }

  lemma {:induction false} SplitCommits(c: Case, user: User, i: nat, blank: bool, share: Option<Rounding.Decimal>,
        supported: bool, routing: Routing, now: Time)
    requires CaseInv(c) && c.tx.status.EscalatedAdminReview?
    requires InputsOk(c, ForceResolve(i, blank, DecideSplit, share, supported))
    ensures var r := ForceResolved(c, i, blank, DecideSplit, share, supported, routing, now);
            var action := ForceResolve(i, blank, DecideSplit, share, supported);
            r == if Payable(c, AwardOf(action, c.tx.amount), routing) then Committed(ByTable(c, action, routing, now))
                 else Raised(NotRoutable, c)
  {
    var award := AwardOf(ForceResolve(i, blank, DecideSplit, share, supported), c.tx.amount).value;
    SplitGuards(c, user, i, blank, share, supported, routing, now);
    SharesFollow(c, i, award, routing, now);
    if Payable(c, Some(award), routing) {
      SplitClosedFollows(c, i, blank, share, supported, routing, now);
    }
  }

  /** The guards of a split, in the tables' terms. */
  lemma {:induction false} SplitGuards(c: Case, user: User, i: nat, blank: bool, share: Option<Rounding.Decimal>,
        supported: bool,
        routing: Routing, now: Time)
    ensures var r := ForceResolved(c, i, blank, DecideSplit, share, supported, routing, now);
            var action := ForceResolve(i, blank, DecideSplit, share, supported);
            var award := AwardOf(action, c.tx.amount).value;
            if c.tx.status.EscalatedAdminReview? && InputsOk(c, action) then
              var q := QueueSplit(c, i, award.seller, award.buyer, routing, now);
              if q.None? then r == Raised(NotRoutable, c)
              else r == Committed(SplitClosed(q.value, i, Share(share), now))
            else r == Raised(RefusedFor(c, user, action), c)
  {
    SplitAward(share, c.tx.amount, i, blank, supported);
  }

  lemma {:induction false} SplitAward(share: Option<Rounding.Decimal>, amount: int, i: nat, blank: bool,
        supported: bool)
    ensures var award := AwardOf(ForceResolve(i, blank, DecideSplit, share, supported), amount);
            ChosenRatio(share) == Share(share) && award.Some?
            && Rounding.SplitAmounts(amount, Share(share)) == (award.value.seller, award.value.buyer)
  {
  }

  lemma {:induction false} SplitClosedFollows(c: Case, i: nat, blank: bool, share: Option<Rounding.Decimal>,
        supported: bool, routing: Routing, now: Time)
    requires CaseInv(c) && c.tx.status.EscalatedAdminReview? && i == 0
    ensures var action := ForceResolve(i, blank, DecideSplit, share, supported);
            var q := Awarded(c, AwardOf(action, c.tx.amount), routing, now).(tx := c.tx.(payoutStatus := Pending));
            SplitClosed(q, i, Share(share), now) == ByTable(c, action, routing, now)
  {
  }

  lemma {:induction false} DecisionFollows(c: Case, user: User, i: nat, blank: bool, decision: Decision,
        share: Option<Rounding.Decimal>, supported: bool, routing: Routing, now: Time)
    requires CaseInv(c)
    ensures Follows(c, user, ForceResolve(i, blank, decision, share, supported), routing, now,
                    ForceResolved(c, i, blank, decision, share, supported, routing, now))
  {
    match decision
    case DecideRefund => RefundFollows(c, user, i, blank, share, supported, routing, now);
    case DecideRelease => ReleaseFollows(c, user, i, blank, share, supported, routing, now);
    case DecideSplit => SplitFollows(c, user, i, blank, share, supported, routing, now);
  }

  // ----- any action

  /** Every party action and admin decision commits exactly when the tables admit it, and then leaves the
      case that they give. */
  lemma {:induction false} PerformFollows(c: Case, user: User, action: Action, routing: Routing, now: Time)
    requires CaseInv(c)
    ensures Follows(c, user, action, routing, now, Perform(c, user, action, routing, now))
  {
    match action
    case Dispatch => DispatchFollows(c, user, routing, now);
    case Arrive => ArriveFollows(c, user, routing, now);
    case ConfirmOtp(found, serialized, matches) => OtpFollows(c, user, found, serialized, matches, routing, now);
    case WithholdOtp(allowed) => WithholdFollows(c, user, allowed, routing, now);
    case ReportIssue(found, serialized, category, rejections) =>
      ReportFollows(c, user, found, serialized, category, rejections, routing, now);
    case SentBack => ReturnFollows(c, user, routing, now);
    case SellerReceived => ReturnFollows(c, user, routing, now);
    case SellerResolution(found, act, allowed) => ResolutionFollows(c, user, found, act, allowed, routing, now);
    case Reconfirm(accepted) => ReconfirmFollows(c, user, accepted, routing, now);
    case Escalate => EscalateFollows(c, user, routing, now);
    case ForceResolve(i, blank, decision, share, supported) =>
      DecisionFollows(c, user, i, blank, decision, share, supported, routing, now);
  }

  // ----- timeouts

  /** Since when a state is timed, and for how many seconds: two days to dispatch, an hour at the door, a
      day of hold, three days to send the item back and three for it to arrive. */
  function TimedSince(tx: Tx): Option<Time> {
    match tx.status
    case Locked => tx.lockedAt
    case AtDoorPendingInspection => tx.atDoorAt
    case Hold24h => tx.holdStartedAt
    case DisputedFunctional => Some(tx.updatedAt)
    case ReturnInTransit => Some(tx.updatedAt)
    case _ => None
  }

  function TimedFor(s: Status): int {
    match s
    case Locked => 172800
    case AtDoorPendingInspection => 3600
    case Hold24h => 86400
    case DisputedFunctional => 259200
    case ReturnInTransit => 259200
    case _ => 0
  }

  predicate TimedOut(tx: Tx, now: Time) {
    TimedSince(tx).Some? && TimedSince(tx).value + TimedFor(tx.status) <= now
  }

  function TimeoutRule(s: Status): Option<Rule> {
    match s
    case Locked => Some(NoDispatchRule)
    case AtDoorPendingInspection => Some(AtDoorRule)
    case Hold24h => Some(HoldRule)
    case DisputedFunctional => Some(NotSentBackRule)
    case ReturnInTransit => Some(NotReceivedRule)
    case _ => None
  }

  /** The deadlines in seconds, and the rule that each state's deadline sets off. */
  lemma {:induction false} DeadlinesAre(tx: Tx, now: Time)
    ensures Deadline(tx) == if TimedSince(tx).Some? then Some(TimedSince(tx).value + TimedFor(tx.status)) else None
    ensures DueRule(tx, now) == if TimedOut(tx, now) then TimeoutRule(tx.status) else None
  {
    var rule := DueRule(tx, now);
    QueriesMirrorDeadlines(tx, now, if rule.Some? then rule.value else AtDoorRule);
  }

  function TxAfterTimeout(tx: Tx, rule: Rule, now: Time): Tx {
    tx.(status := TimeoutEndsIn(rule), updatedAt := now,
        payoutStatus := if TimeoutAward(rule, tx.amount).Some? then Pending else tx.payoutStatus,
        releasedAt := if rule.HoldRule? || rule.NotSentBackRule? then Some(now) else tx.releasedAt,
        refundedAt := if rule.AtDoorRule? || rule.NoDispatchRule? then Some(now) else tx.refundedAt)
  }

  /** A missed send-back cancels a dispute in progress, a missed receipt hands it to support. */
  function DisputesAfterTimeout(c: Case, rule: Rule, now: Time): seq<Dispute> {
    if |c.disputes| == 1 && OpenDispute(c.disputes[0].status) then
      if rule.NotSentBackRule? then [c.disputes[0].(status := Canceled, resolvedAt := Some(now))]
      else if rule.NotReceivedRule? then [c.disputes[0].(status := DisputeEscalated, escalatedAt := Some(now))]
      else c.disputes
    else c.disputes
  }

  function TimeoutByTable(c: Case, rule: Rule, routing: Routing, now: Time): Case {
    Awarded(c, TimeoutAward(rule, c.tx.amount), routing, now).(
      tx := TxAfterTimeout(c.tx, rule, now),
      disputes := DisputesAfterTimeout(c, rule, now),
      trail := c.trail + Path(c.tx.status, if rule.AtDoorRule? then [ReturnInTransit, ReturnedToSeller] else [],
                              TimeoutEndsIn(rule)))
  }

  predicate TimeoutFollowsTable(c: Case, rule: Rule, routing: Routing, now: Time) {
    TimeoutMove(rule, c, routing, now) ==
    if Payable(c, TimeoutAward(rule, c.tx.amount), routing) then Some(TimeoutByTable(c, rule, routing, now)) else None
  }

  lemma {:induction false} AtDoorFollows(c: Case, routing: Routing, now: Time)
    requires CaseInv(c) && c.tx.status.AtDoorPendingInspection?
    ensures TimeoutFollowsTable(c, AtDoorRule, routing, now)
  {
    FullFollows(c, WithheldFlow(c, now), TimeoutAtDoorRefund, Refund, ToBuyer(c.tx.amount, TimeoutAtDoorRefund),
                routing, now);
    WithheldPath(c, now);
  }

  lemma {:induction false} NoDispatchFollows(c: Case, routing: Routing, now: Time)
    requires CaseInv(c) && c.tx.status.Locked?
    ensures TimeoutFollowsTable(c, NoDispatchRule, routing, now)
  {
    var moved := Moved(c, RefundedBuyer, now);
    FullFollows(c, moved.(tx := moved.tx.(refundedAt := Some(now))), TimeoutRefund, Refund,
                ToBuyer(c.tx.amount, TimeoutRefund), routing, now);
  }

  lemma {:induction false} HoldFollows(c: Case, routing: Routing, now: Time)
    requires CaseInv(c) && c.tx.status.Hold24h?
    ensures TimeoutFollowsTable(c, HoldRule, routing, now)
  {
    var moved := Moved(c, Released, now);
    FullFollows(c, moved.(tx := moved.tx.(releasedAt := Some(now))), HoldRelease, Release,
                ToSeller(c.tx.amount, HoldRelease), routing, now);
  }

  lemma {:induction false} NotSentBackFollows(c: Case, routing: Routing, now: Time)
    requires CaseInv(c) && c.tx.status.DisputedFunctional?
    ensures TimeoutFollowsTable(c, NotSentBackRule, routing, now)
  {
    var moved := Moved(c, Released, now);
    var stamped := moved.(tx := moved.tx.(releasedAt := Some(now)));
    var closed := if OpenDispute(LatestDispute(c).value.status) then CloseDispute(stamped, Canceled, now) else stamped;
    assert c.disputes == [c.disputes[0]] && closed.disputes == DisputesAfterTimeout(c, NotSentBackRule, now);
    FullFollows(c, closed, DisputeTimeoutRelease, Release, ToSeller(c.tx.amount, DisputeTimeoutRelease), routing, now);
  }

  lemma {:induction false} NotReceivedFollows(c: Case, routing: Routing, now: Time)
    requires CaseInv(c) && c.tx.status.ReturnInTransit?
    ensures TimeoutFollowsTable(c, NotReceivedRule, routing, now)
  {
    assert c.disputes == [c.disputes[0]];
    var d := TimeoutMove(NotReceivedRule, c, routing, now).value;
    assert d.disputes == DisputesAfterTimeout(c, NotReceivedRule, now);
  }

  /** A sweep leaves a case alone until its time is over, and then does what the tables say, or fails where
      the payout has no destination or no rail. */
  lemma {:induction false} SweepFollows(c: Case, routing: Routing, now: Time)
    requires CaseInv(c)
    ensures SweepOne(c, routing, now) ==
            if !TimedOut(c.tx, now) then Some(c)
            else
              var rule := TimeoutRule(c.tx.status).value;
              if Payable(c, TimeoutAward(rule, c.tx.amount), routing) then Some(TimeoutByTable(c, rule, routing, now))
              else None
  {
    DeadlinesAre(c.tx, now);
    if TimedOut(c.tx, now) {
      match TimeoutRule(c.tx.status).value
      case AtDoorRule => AtDoorFollows(c, routing, now);
      case NoDispatchRule => NoDispatchFollows(c, routing, now);
      case HoldRule => HoldFollows(c, routing, now);
      case NotSentBackRule => NotSentBackFollows(c, routing, now);
      case NotReceivedRule => NotReceivedFollows(c, routing, now);
    }
  }

  // ----- who is paid, read off the queue

  /** What some payouts come to for one user. */
  function PaidTo(attempts: seq<Attempt>, user: UserId): int {
    if attempts == [] then 0
    else
      var a := attempts[|attempts| - 1];
      PaidTo(attempts[..|attempts| - 1], user) + if a.payee == user then a.amount else 0
  }

  /** The queue of an award pays the seller and the buyer just that. */
  lemma {:induction false} PayoutsPay(c: Case, award: Award, routing: Routing, now: Time)
    requires c.tx.buyer != c.tx.seller && award.seller >= 0 && award.buyer >= 0
    ensures var payouts := PayoutsOf(c, award, routing, now);
            PaidTo(payouts, c.tx.seller) == award.seller && PaidTo(payouts, c.tx.buyer) == award.buyer
  {
    PaidToIs(PayoutsOf(c, award, routing, now), c.tx.seller);
    PaidToIs(PayoutsOf(c, award, routing, now), c.tx.buyer);
  }

  lemma {:induction false} PaidToIs(attempts: seq<Attempt>, user: UserId)
    requires |attempts| <= 2
    ensures PaidTo(attempts, user) ==
            (if |attempts| > 0 && attempts[0].payee == user then attempts[0].amount else 0) +
            (if |attempts| > 1 && attempts[1].payee == user then attempts[1].amount else 0)
  {
    if |attempts| == 2 {
      PaidToIs(attempts[..1], user);
    } else if |attempts| == 1 {
      assert attempts[..0] == [];
    }
  }

  /** Every committed call that decides a case queues its amount, all of it: to the seller, to the buyer, or
      in the two shares of a split. */
  lemma {:induction false} DecidedCallPays(c: Case, user: User, action: Action, routing: Routing, now: Time)
    requires CaseInv(c) && Perform(c, user, action, routing, now).Committed?
    ensures var d, award := Perform(c, user, action, routing, now).c, AwardOf(action, c.tx.amount);
            && d.tx.status == EndsIn(action, Rejections(c)) && (Terminal(d.tx.status) <==> award.Some?)
            && (award.Some? ==>
                 && PaidTo(d.attempts, c.tx.seller) == award.value.seller >= 0
                 && PaidTo(d.attempts, c.tx.buyer) == award.value.buyer >= 0
                 && award.value.seller + award.value.buyer == c.tx.amount)
            && (award.None? ==> d.attempts == c.attempts)
  {
    PerformFollows(c, user, action, routing, now);
    AwardSums(c, action);
    if AwardOf(action, c.tx.amount).Some? {
      PayoutsPay(c, AwardOf(action, c.tx.amount).value, routing, now);
    }
  }

  /** Exactly the calls that end a case award something, and they award its amount. */
  lemma {:induction false} AwardSums(c: Case, action: Action)
    requires c.tx.amount > 0 && InputsOk(c, action)
    ensures var award := AwardOf(action, c.tx.amount);
            && (Terminal(EndsIn(action, Rejections(c))) <==> award.Some?)
            && (award.Some? ==> award.value.seller >= 0 && award.value.buyer >= 0
                                && award.value.seller + award.value.buyer == c.tx.amount)
  {
  }
}
