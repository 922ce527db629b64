/** Two service calls that both read a transaction before either locks its chain. The second one to get
    the lock still acts on the status it read, and its write does not look at the row again. */
module Races {
  import opened Domain
  import opened Payouts
  import opened Actions
  import opened Ledger
  import opened CaseInvariant
  import opened Market
  import opened MarketInvariant
  import opened MarketRuns
  import Rounding

  datatype Call =
    | Party(user: User, action: Action, routing: Routing, now: Time)
    | Sweeping(rule: Rule, routing: Routing, now: Time)

  /** What a call that read the case would commit, if it commits. */
  function Commits(c: Case, call: Call): Option<Case> {
    match call
    case Party(user, action, routing, now) =>
      var r := Perform(c, user, action, routing, now);
      if r.Committed? then Some(r.c) else None
    case Sweeping(rule, routing, now) =>
      if SelectedBy(rule, c.tx, now) then TimeoutMove(rule, c, routing, now) else None
  }

  /** A split queues its shares, and opens the escrow where there is none, before it locks the chain. Every
      other call queues after the lock. */
  predicate QueuesBeforeLock(call: Call) {
    call.Party? && call.action.ForceResolve? && call.action.decision.DecideSplit?
  }

  /** One escrow per transaction and one live intent per purpose: the rows a call inserted before the lock
      meet what the other one committed. */
  predicate Clashes(c: Case, first: Case, second: Case) {
    || c.escrow.None?
    || exists i :: 0 <= i < |second.attempts| && Exists(first.attempts, second.attempts[i].purpose)
  }

  /** What the second call to lock commits once the first one has: nothing where an index refuses its rows. */
  function CommitsAfter(c: Case, one: Call, two: Call): Option<Case> {
    var a, b := Commits(c, one), Commits(c, two);
    if a.Some? && b.Some? && QueuesBeforeLock(two) && Clashes(c, a.value, b.value) then None else b
  }

  /** The second call's intents on top of the first one's. A call that queues after the lock finds what the
      first one queued; one that queued before it has only new purposes, or has raised. */
  function Merged(first: seq<Attempt>, second: seq<Attempt>): seq<Attempt>
    decreases |second|
  {
    if second == [] then first
    else Merged(if Exists(first, second[0].purpose) then first else first + [second[0]], second[1..])
  }

  /** Status, recorded transitions and intents after both have committed. */
  datatype Raced = Raced(status: Status, trail: seq<Transition>, attempts: seq<Attempt>)

  function NewTransitions(c: Case, r: Case): seq<Transition> {
    if |c.trail| <= |r.trail| then r.trail[|c.trail|..] else []
  }

  function Race(c: Case, first: Case, second: Case): Raced {
    Raced(second.tx.status, first.trail + NewTransitions(c, second), Merged(first.attempts, second.attempts))
  }

  lemma {:induction false} CommitsKeeps(c: Case, call: Call)
    requires CaseInv(c)
    ensures var r := Commits(c, call); r.Some? ==> CaseInv(r.value) && Quiet(c, r.value)
  {
    match call
    case Party(user, action, routing, now) => PerformKeeps(c, user, action, routing, now);
    case Sweeping(rule, routing, now) =>
      QueriesMirrorDeadlines(c.tx, now, rule);
      if SelectedBy(rule, c.tx, now) {
        TimeoutKeeps(rule, c, routing, now);
      }
  }

  // ----- the intents

  lemma {:induction false} QueuedAppend(a: seq<Attempt>, b: seq<Attempt>)
    ensures Queued(a + b) == Queued(a) + Queued(b)
    decreases |b|
  {
    if b == [] {
      assert a + b == a;
    } else {
      assert (a + b)[..|a + b| - 1] == a + b[..|b| - 1];
      QueuedAppend(a, b[..|b| - 1]);
    }
  }

  lemma {:induction false} MergedFound(a: seq<Attempt>, b: seq<Attempt>)
    requires forall i :: 0 <= i < |b| ==> Exists(a, b[i].purpose)
    ensures Merged(a, b) == a
    decreases |b|
  {
    if b != [] {
      MergedFound(a, b[1..]);
    }
  }

  lemma {:induction false} MergedStep(a: seq<Attempt>, b: seq<Attempt>, x: Attempt)
    requires b != [] && b[0] == x && !Exists(a, x.purpose)
    ensures Merged(a, b) == Merged(a + [x], b[1..])
  {
  }

  lemma {:induction false} NotAppended(a: seq<Attempt>, x: Attempt, purpose: Purpose)
    requires !Exists(a, purpose) && x.purpose != purpose
    ensures !Exists(a + [x], purpose)
  {
  }

  /** One or two intents of which the first call queued none. */
  lemma {:induction false} MergedNew(a: seq<Attempt>, b: seq<Attempt>)
    requires 1 <= |b| <= 2 && forall i :: 0 <= i < |b| ==> !Exists(a, b[i].purpose)
    requires |b| == 2 ==> b[0].purpose != b[1].purpose
    ensures Merged(a, b) == a + b
  {
    MergedStep(a, b, b[0]);
    if |b| == 1 {
      assert b[1..] == [] && a + [b[0]] == a + b;
    } else {
      NotAppended(a, b[0], b[1].purpose);
      MergedStep(a + [b[0]], b[1..], b[1]);
      assert b[1..][1..] == [] && a + [b[0]] + [b[1]] == a + b;
    }
  }

  /** The intents of a case decided just now. */
  predicate Fresh(attempts: seq<Attempt>) {
    attempts != [] && forall i :: 0 <= i < |attempts| ==> attempts[i].outcome.Unknown?
  }

  /** One payout in full, or the two shares of the only dispute. */
  predicate FullOrShares(attempts: seq<Attempt>) {
    || (|attempts| == 1 && !ShareOf(attempts[0].purpose))
    || (|attempts| == 2 && attempts[0].purpose == AdminSplitRelease(0) && attempts[1].purpose == AdminSplitRefund(0))
  }

  lemma {:induction false} FinalPayouts(c: Case)
    requires CaseInv(c) && Fresh(c.attempts)
    ensures FullOrShares(c.attempts)
  {
  }

  lemma {:induction false} FinalsMerge(x: seq<Attempt>, y: seq<Attempt>)
    requires FullOrShares(x) && FullOrShares(y) && Fresh(x)
    ensures Merged(x, y) == if x[0].purpose == y[0].purpose then x else x + y
  {
    if x[0].purpose == y[0].purpose {
      forall i | 0 <= i < |y|
        ensures Exists(x, y[i].purpose)
      {
        assert x[i].purpose == y[i].purpose;
      }
      MergedFound(x, y);
    } else {
      MergedNew(x, y);
    }
  }

  /** What a call decides the payout to be for, when it decides the case. */
  function DecidedFor(c: Case): Option<Purpose> {
    if Terminal(c.tx.status) && c.attempts != [] then Some(c.attempts[0].purpose) else None
  }

  /** What a call will have decided the payout to be for if it commits, from its inputs alone. */
  function Decides(call: Call): Option<Purpose> {
    match call
    case Party(_, ConfirmOtp(_, serialized, _), _, _) => if serialized then None else Some(TxRelease)
    case Party(_, WithholdOtp(_), _, _) => Some(TxRefund)
    case Party(_, SellerResolution(_, act, _), _, _) => if act == Some(RefundIssued) then Some(SellerRefund) else None
    case Party(_, Reconfirm(accepted), _, _) => if accepted then Some(ReconfirmRelease) else None
    case Party(_, ForceResolve(i, _, DecideRefund, _, _), _, _) => Some(AdminRefund(i))
    case Party(_, ForceResolve(i, _, DecideRelease, _, _), _, _) => Some(AdminRelease(i))
    case Party(_, ForceResolve(i, _, DecideSplit, _, _), _, _) => Some(AdminSplitRelease(i))
    case Sweeping(AtDoorRule, _, _) => Some(TimeoutAtDoorRefund)
    case Sweeping(NoDispatchRule, _, _) => Some(TimeoutRefund)
    case Sweeping(HoldRule, _, _) => Some(HoldRelease)
    case Sweeping(NotSentBackRule, _, _) => Some(DisputeTimeoutRelease)
    case _ => None
  }

  /** A committed call leaves the status it read, and decides what its inputs say. */
  predicate MovesAs(c: Case, d: Case, purpose: Option<Purpose>) {
    d.tx.status != c.tx.status && (c.attempts == [] ==> DecidedFor(d) == purpose)
  }

  lemma {:induction false} QueuedAlone(m: Case, purpose: Purpose, kind: Kind, amount: int, routing: Routing, now: Time)
    requires m.attempts == [] && Terminal(m.tx.status)
    ensures var r := Enqueue(m, purpose, kind, amount, routing, now); r.Some? ==> DecidedFor(r.value) == Some(purpose)
  {
    assert !Exists(m.attempts, purpose);
  }

  lemma {:induction false} RefundMoves(c: Case, i: nat, blank: bool, share: Option<Rounding.Decimal>, supported: bool,
        routing: Routing, now: Time)
    ensures var r := ForceResolved(c, i, blank, DecideRefund, share, supported, routing, now);
            r.Committed? ==> MovesAs(c, r.c, Some(AdminRefund(i)))
  {
  }

  lemma {:induction false} ReleaseMoves(c: Case, i: nat, blank: bool, share: Option<Rounding.Decimal>, supported: bool,
        routing: Routing, now: Time)
    ensures var r := ForceResolved(c, i, blank, DecideRelease, share, supported, routing, now);
            r.Committed? ==> MovesAs(c, r.c, Some(AdminRelease(i)))
  {
  }

  lemma {:induction false} SplitMoves(c: Case, i: nat, blank: bool, share: Option<Rounding.Decimal>, supported: bool,
        routing: Routing, now: Time)
    ensures var r := ForceResolved(c, i, blank, DecideSplit, share, supported, routing, now);
            r.Committed? ==> MovesAs(c, r.c, Some(AdminSplitRelease(i)))
  {
  }

  lemma {:induction false} DecisionMoves(
        c: Case, i: nat, blank: bool, decision: Decision, share: Option<Rounding.Decimal>, supported: bool,
        call: Call, routing: Routing, now: Time)
    requires call.Party? && call.action == ForceResolve(i, blank, decision, share, supported)
    ensures var r := ForceResolved(c, i, blank, decision, share, supported, routing, now);
            r.Committed? ==> MovesAs(c, r.c, Decides(call))
  {
    match decision
    case DecideRefund => RefundMoves(c, i, blank, share, supported, routing, now);
    case DecideRelease => ReleaseMoves(c, i, blank, share, supported, routing, now);
    case DecideSplit => SplitMoves(c, i, blank, share, supported, routing, now);
  }

  lemma {:induction false} ResolutionMoves(c: Case, user: User, found: bool, action: Option<SellerAction>,
        allowed: bool, routing: Routing, now: Time)
    ensures var r := SellerResolved(c, user, found, action, allowed, routing, now);
            r.Committed? ==> MovesAs(c, r.c, if action == Some(RefundIssued) then Some(SellerRefund) else None)
  {
  }

  lemma {:induction false} OtpMoves(c: Case, user: User, found: bool, serialized: bool, matches: bool, routing: Routing,
        now: Time)
    ensures var r := OtpConfirmed(c, user, found, serialized, matches, routing, now);
            r.Committed? ==> MovesAs(c, r.c, if serialized then None else Some(TxRelease))
  {
  }

  lemma {:induction false} ReconfirmMoves(c: Case, user: User, accepted: bool, routing: Routing, now: Time)
    ensures var r := Reconfirmed(c, user, accepted, routing, now);
            r.Committed? ==> MovesAs(c, r.c, if accepted then Some(ReconfirmRelease) else None)
  {
  }

  lemma {:induction false} WithheldMoves(c: Case, user: User, allowed: bool, routing: Routing, now: Time)
    ensures var r := OtpWithheld(c, user, allowed, routing, now); r.Committed? ==> MovesAs(c, r.c, Some(TxRefund))
  {
  }

  lemma {:induction false} TimeoutMoves(rule: Rule, c: Case, routing: Routing, now: Time)
    requires c.tx.status == WatchedStatus(rule)
    ensures var r := TimeoutMove(rule, c, routing, now);
            r.Some? ==> MovesAs(c, r.value, Decides(Sweeping(rule, routing, now)))
  {
  }

  /** Every call that commits moves the status, and whether and for what it decides the case is known
      before. */
  lemma {:induction false} CommitsMove(c: Case, call: Call)
    ensures Commits(c, call).Some? ==> MovesAs(c, Commits(c, call).value, Decides(call))
  {
    match call
    case Party(user, action, routing, now) =>
      match action {
        case SellerResolution(found, act, allowed) => ResolutionMoves(c, user, found, act, allowed, routing, now);
        case ConfirmOtp(found, serialized, matches) =>
          OtpMoves(c, user, found, serialized, matches, routing, now);
        case WithholdOtp(allowed) => WithheldMoves(c, user, allowed, routing, now);
        case Reconfirm(accepted) => ReconfirmMoves(c, user, accepted, routing, now);
        case ForceResolve(i, blank, decision, share, supported) =>
          DecisionMoves(c, i, blank, decision, share, supported, call, routing, now);
        case _ =>
      }
    case Sweeping(rule, routing, now) =>
      if SelectedBy(rule, c.tx, now) {
        TimeoutMoves(rule, c, routing, now);
      }
  }

  /** Exactly when a race queues twice: both calls are of a kind that decides the case, and for different
      purposes. Then twice the amount is queued; otherwise the amount, or nothing while undecided. */
  lemma {:induction false} RaceQueues(c: Case, one: Call, two: Call, a: Case, b: Case)
    requires CaseInv(c) && !Terminal(c.tx.status)
    requires Commits(c, one) == Some(a) && CommitsAfter(c, one, two) == Some(b)
    ensures Queued(Race(c, a, b).attempts) ==
            if Decides(one).None? && Decides(two).None? then 0
            else if Decides(one).Some? && Decides(two).Some? && Decides(one) != Decides(two) then 2 * c.tx.amount
            else c.tx.amount
  {
    CommitsMove(c, one);
    CommitsMove(c, two);
    CommitsKeeps(c, one);
    CommitsKeeps(c, two);
    FreshPlan(c, a);
    FreshPlan(c, b);
    MergedQueues(c.tx.amount, a, b);
  }

  /** Of two racing splits only the first commits, whatever shares they chose. */
  lemma {:induction false} SecondSplitRaises(c: Case, one: Call, two: Call)
    requires CaseInv(c) && Commits(c, one).Some? && Commits(c, two).Some?
    requires QueuesBeforeLock(one) && QueuesBeforeLock(two)
    ensures CommitsAfter(c, one, two).None?
  {
    var a, b := Commits(c, one).value, Commits(c, two).value;
    CommitsKeeps(c, one);
    CommitsKeeps(c, two);
    FreshPlan(c, a);
    FreshPlan(c, b);
    SplitsQueueAlike(c, one, a);
    SplitsQueueAlike(c, two, b);
    assert Exists(a.attempts, b.attempts[0].purpose);
  }

  lemma {:induction false} SplitsQueueAlike(c: Case, call: Call, r: Case)
    requires CaseInv(c) && QueuesBeforeLock(call) && Commits(c, call) == Some(r) && PlanOf(r, c.tx.amount)
    ensures Fresh(r.attempts) && r.attempts[0].purpose == AdminSplitRelease(0)
  {
    CommitsMove(c, call);
  }

  /** A case with its payouts fresh, or none while it is undecided. */
  ghost predicate PlanOf(c: Case, amount: int) {
    && CaseInv(c)
    && (if Terminal(c.tx.status) then Fresh(c.attempts) && Queued(c.attempts) == amount else c.attempts == [])
  }

  lemma {:induction false} MergedQueues(amount: int, a: Case, b: Case)
    requires PlanOf(a, amount) && PlanOf(b, amount)
    ensures Queued(Merged(a.attempts, b.attempts)) ==
            if DecidedFor(a).None? && DecidedFor(b).None? then 0
            else if DecidedFor(a).Some? && DecidedFor(b).Some? && DecidedFor(a) != DecidedFor(b) then 2 * amount
            else amount
  {
    if Terminal(a.tx.status) && Terminal(b.tx.status) {
      FinalPayouts(a);
      FinalPayouts(b);
      FinalsMerge(a.attempts, b.attempts);
      QueuedAppend(a.attempts, b.attempts);
    } else if Terminal(b.tx.status) {
      FinalPayouts(b);
      NothingFirst(b.attempts);
    }
  }

  lemma {:induction false} FreshPlan(c: Case, r: Case)
    requires CaseInv(c) && !Terminal(c.tx.status) && CaseInv(r) && Quiet(c, r)
    ensures PlanOf(r, c.tx.amount)
  {
    assert c.attempts == [];
    PlanTotals(r);
    assert forall i :: 0 <= i < |r.attempts| ==> r.attempts[i] in r.attempts;
  }

  lemma {:induction false} NothingFirst(b: seq<Attempt>)
    requires FullOrShares(b)
    ensures Merged([], b) == b
  {
    assert [] + b == b;
    MergedNew([], b);
  }

  // ----- the recorded transitions

  /** A longer path whose last part starts elsewhere is no path. */
  lemma {:induction false} BrokenPath(path: seq<Transition>, before: seq<Transition>, more: seq<Transition>)
    requires more != [] && more[0].was == TrailEnd(before) != TrailEnd(path)
    ensures !IsPath(path + more)
  {
    var trail := path + more;
    assert trail[|path|] == more[0] && trail[..|path|] == path;
    assert !Follows(trail, |path|);
  }

  /** No race replays: when both calls commit, the second one's first transition starts from the status it
      read, which the first one has left. */
  lemma {:induction false} RaceNeverReplays(c: Case, one: Call, two: Call, a: Case, b: Case)
    requires CaseInv(c) && Commits(c, one) == Some(a) && CommitsAfter(c, one, two) == Some(b)
    ensures !IsPath(Race(c, a, b).trail)
  {
    CommitsKeeps(c, one);
    CommitsKeeps(c, two);
    CommitsMove(c, one);
    CommitsMove(c, two);
    FirstNew(c, b);
    BrokenPath(a.trail, c.trail, NewTransitions(c, b));
  }

  lemma {:induction false} FirstNew(c: Case, r: Case)
    requires TrailOk(c) && TrailOk(r) && c.trail <= r.trail && r.tx.status != c.tx.status
    ensures NewTransitions(c, r) != [] && NewTransitions(c, r)[0].was == TrailEnd(c.trail)
  {
    assert |r.trail| == |c.trail| ==> r.trail == c.trail;
    assert Follows(r.trail, |c.trail|) && r.trail[..|c.trail|] == c.trail;
  }

  // ----- inputs that pay twice, and what still holds

  /** At the door the buyer confirms the code and withholds it at once: a full release and a full refund
      are queued. */
  lemma {:induction false} ConfirmAndWithhold(c: Case, routing: Routing, now: Time)
    requires CaseInv(c) && c.tx.status.AtDoorPendingInspection? && routing.noPhone == {} && routing.defaultRail.Some?
    ensures var buyer := User(c.tx.buyer, Buyer);
            var one := Party(buyer, ConfirmOtp(true, false, true), routing, now);
            var a, b := Commits(c, one), CommitsAfter(c, one, Party(buyer, WithholdOtp(true), routing, now));
            a.Some? && b.Some? && Queued(Race(c, a.value, b.value).attempts) == 2 * c.tx.amount
  {
    var buyer := User(c.tx.buyer, Buyer);
    var one := Party(buyer, ConfirmOtp(true, false, true), routing, now);
    var two := Party(buyer, WithholdOtp(true), routing, now);
    assert !Exists(c.attempts, TxRelease) && !Exists(c.attempts, TxRefund);
    RaceQueues(c, one, two, Commits(c, one).value, Commits(c, two).value);
  }

  /** Whatever is queued, the counters never exceed the funding: a confirmed payout that it does not cover
      is left undecided. The rail has been asked before that, so this bounds the books, not the rail. */
  lemma {:induction false} CountersWithinFunding(id: TxId, c: Case, entries: Entries, i: nat, answer: RailAnswer)
    requires i < |c.attempts| && c.escrow.Some?
    requires c.escrow.value.released + c.escrow.value.refunded <= c.escrow.value.funded
    ensures var d := Settle(id, c, entries, i, answer).0;
            && d.escrow.Some? && d.escrow.value.funded == c.escrow.value.funded
            && d.escrow.value.released + d.escrow.value.refunded <= d.escrow.value.funded
  {
  }

  /** Two full payouts that the rail has not been asked for, one of which the funding covers. */
  ghost predicate QueuedTwice(id: TxId, c: Case, entries: Entries) {
    && Sound(entries) && !Used(entries, Outbox(id, 0)) && c.escrow.Some? && |c.attempts| == 2
    && (forall i :: 0 <= i < 2 ==> Waiting(c.attempts[i]) && c.attempts[i].amount == c.escrow.value.funded > 0)
    && c.escrow.value.released == c.escrow.value.refunded == 0
  }

  /** The rail pays both. The first is booked, and the second is left exactly as it was, so the next run asks
      for it again. */
  lemma {:induction false} PaidTwiceBookedOnce(id: TxId, c: Case, entries: Entries, inquiry: PayoutReply)
    requires QueuedTwice(id, c, entries)
    ensures var answer := Available(inquiry, Replied(PayoutReply(Succeeded, None)));
            var (d, between) := Settle(id, c, entries, 0, answer);
            var e := Settle(id, d, between, 1, answer).0;
            && e.attempts[0].outcome.Succeeded? && e.attempts[1] == c.attempts[1]
            && PaidOutOf(e) == FundedOf(e) == FundedOf(c)
  {
    var m := PayoutMovement(id, 0, c.attempts[0]);
    PostDecision(entries, m);
  }
}
