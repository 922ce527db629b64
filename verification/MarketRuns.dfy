/** Every run of the marketplace, and what holds at the end of it. */
module MarketRuns {
  import opened Domain
  import opened Payouts
  import opened Actions
  import opened Ledger
  import opened CaseInvariant
  import opened Market
  import opened RepairRules
  import opened MarketInvariant
  import Rounding

  // ----- steps over many cases

  lemma {:induction false} CandidatesPollable(cases: seq<Case>)
    ensures forall i :: 0 <= i < |PollCandidates(cases)| ==> Pollable(cases[PollCandidates(cases)[i]])
    ensures forall i, j :: 0 <= i < j < |PollCandidates(cases)| ==> PollCandidates(cases)[i] < PollCandidates(cases)[j]
  {
    if cases != [] {
      var n := |cases| - 1;
      CandidatesPollable(cases[..n]);
      assert forall i :: 0 <= i < n ==> cases[..n][i] == cases[i];
    }
  }

  ghost predicate PollOk(cases: seq<Case>, ids: seq<TxId>) {
    && (forall i :: 0 <= i < |ids| ==> ids[i] < |cases| && Pollable(cases[ids[i]]))
    && (forall i, j :: 0 <= i < j < |ids| ==> ids[i] < ids[j])
  }

  lemma {:induction false} BatchPollable(cases: seq<Case>, budget: nat)
    ensures PollOk(cases, PollBatch(cases, budget))
  {
    CandidatesPollable(cases);
  }

  lemma {:induction false} PollAllKeeps(w: World, ids: seq<TxId>, reported: set<TxId>, now: Time, timeout: int)
    requires Inv(w) && PollOk(w.cases, ids)
    ensures PollAll(w, ids, reported, now, timeout).Some?
    ensures Inv(PollAll(w, ids, reported, now, timeout).value)
    decreases |ids|
  {
    if ids != [] {
      var id := ids[0];
      var r := Polled(id, w.cases[id], w.entries, id in reported, now, timeout);
      CaseAt(w, id);
      PollKeeps(id, w.cases[id], w.entries, id in reported, now, timeout);
      WithCaseKeeps(w, id, r);
      assert forall i :: 0 <= i < |ids[1..]| ==> ids[1..][i] == ids[i + 1] && ids[i + 1] > id;
      PollAllKeeps(WithCase(w, id, r), ids[1..], reported, now, timeout);
    }
  }

  lemma {:induction false} SettleTouchesOne(id: TxId, c: Case, entries: Entries, i: nat, answer: RailAnswer)
    requires i < |c.attempts|
    ensures var d := Settle(id, c, entries, i, answer).0;
            |d.attempts| == |c.attempts| && forall j :: 0 <= j < |c.attempts| && j != i ==>
                d.attempts[j] == c.attempts[j]
  {
  }

  lemma {:induction false} SettleAllKeeps(w: World, claims: seq<Claim>, rail: Claim -> RailAnswer)
    requires Inv(w) && ValidClaims(w.cases, claims, |claims|)
    ensures Inv(SettleAll(w, claims, rail))
    decreases |claims|
  {
    if claims != [] {
      var k := claims[0];
      var r := Settle(k.id, w.cases[k.id], w.entries, k.attempt, rail(k));
      CaseAt(w, k.id);
      SettleKeeps(k.id, w.cases[k.id], w.entries, k.attempt, rail(k));
      SettleTouchesOne(k.id, w.cases[k.id], w.entries, k.attempt, rail(k));
      WithCaseKeeps(w, k.id, r);
      var next := WithCase(w, k.id, r);
      forall i | 0 <= i < |claims[1..]|
        ensures Claimable(next.cases, claims[1..][i])
      {
        assert claims[1..][i] == claims[i + 1] && claims[i + 1] != k;
        assert Claimable(w.cases, claims[i + 1]);
      }
      SettleAllKeeps(next, claims[1..], rail);
    }
  }

  lemma {:induction false} SweepKeeps(w: World, routing: Routing, now: Time)
    requires Inv(w) && Sweepable(w.cases, routing, now)
    ensures Inv(w.(cases := Sweep(w.cases, routing, now)))
  {
    var cases := Sweep(w.cases, routing, now);
    forall id | 0 <= id < |cases|
      ensures CaseOk(w.(cases := cases), id)
    {
      CaseAt(w, id);
      var c := w.cases[id];
      assert SweepOne(c, routing, now).Some?;
      var rule := DueRule(c.tx, now);
      if rule.Some? {
        QueriesMirrorDeadlines(c.tx, now, rule.value);
        TimeoutKeeps(rule.value, c, routing, now);
        QuietKeepsMoney(id, c, cases[id], w.entries);
      }
    }
  }

  // ----- runs

  lemma {:induction false} CaseStepKeeps(w: World, id: TxId, d: Case)
    requires Inv(w) && id < |w.cases| && CaseInv(d) && MoneyOk(id, d, w.entries)
    ensures Inv(WithCase(w, id, (d, w.entries)))
  {
    assert OwnPost(id, w.entries, w.entries);
    WithCaseKeeps(w, id, (d, w.entries));
  }

  lemma {:induction false} QuietStepKeeps(w: World, id: TxId, d: Case)
    requires Inv(w) && id < |w.cases| && CaseInv(d) && Quiet(w.cases[id], d)
    ensures Inv(WithCase(w, id, (d, w.entries)))
  {
    CaseAt(w, id);
    QuietKeepsMoney(id, w.cases[id], d, w.entries);
    CaseStepKeeps(w, id, d);
  }

  predicate CustodyStep(step: Step) {
    step.OpenReturns? || step.SendPrompt? || step.ResendPrompt? || step.Callback?
  }

  lemma {:induction false} CustodyStepKeeps(w: World, step: Step)
    requires Inv(w) && CustodyStep(step) && step.id < |w.cases|
    ensures Inv(Next(w, step))
  {
    var c := w.cases[step.id];
    CaseAt(w, step.id);
    match step
    case OpenReturns(id, answer, now) =>
      OpenKeeps(id, c, w.entries, answer, now);
      CaseStepKeeps(w, id, OpenReturned(c, answer, now));
    case SendPrompt(id) =>
      PromptKeeps(id, c, w.entries);
      CaseStepKeeps(w, id, PromptRequested(c));
    case ResendPrompt(id, buyer, tooSoon) =>
      ResendKeeps(id, c, w.entries, buyer, tooSoon);
      CaseStepKeeps(w, id, PromptResent(c, buyer, tooSoon));
    case Callback(id, code, production, now) =>
      CallbackKeeps(id, c, w.entries, code, production, now);
      WithCaseKeeps(w, id, CalledBack(id, c, w.entries, code, production, now));
  }

  lemma {:induction false} CaseNotStranded(c: Case)
    requires CaseInv(c)
    ensures StrandedAction(c).None?
  {
  }

  lemma {:induction false} CaseHasNoGap(id: TxId, c: Case, entries: Entries)
    requires MoneyOk(id, c, entries)
    ensures GapOf(id, c, entries).None?
  {
  }

  /** Where the invariant holds neither repair finds anything, so neither changes anything. */
  lemma {:induction false} RepairsFindNothing(w: World, now: Time)
    requires Inv(w)
    ensures StrandedCases(w.cases) == [] && RepairedCases(w.cases, now) == w.cases
    ensures Gaps(w.cases, w.entries) == []
  {
    forall id | 0 <= id < |w.cases|
      ensures StrandedAction(w.cases[id]).None? && GapOf(id, w.cases[id], w.entries).None?
    {
      CaseAt(w, id);
      CaseNotStranded(w.cases[id]);
      CaseHasNoGap(id, w.cases[id], w.entries);
    }
    NoneStranded(w.cases);
    NoneMissing(w.cases, w.entries);
  }

  lemma {:induction false} NextKeeps(w: World, step: Step)
    requires Inv(w)
    ensures Inv(Next(w, step))
  {
    match step
    case Create(buyer, seller, listing, price, asked, econfirm, now) =>
      if CreateRefused(buyer, seller, listing, price, asked).None? {
        CreateKeeps(w, price, buyer.id, seller, econfirm, now);
      }
    case OpenReturns(id, _, _) =>
      if id < |w.cases| {
        CustodyStepKeeps(w, step);
      }
    case SendPrompt(id) =>
      if id < |w.cases| {
        CustodyStepKeeps(w, step);
      }
    case ResendPrompt(id, _, _) =>
      if id < |w.cases| {
        CustodyStepKeeps(w, step);
      }
    case Callback(id, _, _, _) =>
      if id < |w.cases| {
        CustodyStepKeeps(w, step);
      }
    case Poll(reported, now, timeout, budget) =>
      BatchPollable(w.cases, budget);
      PollAllKeeps(w, PollBatch(w.cases, budget), reported, now, timeout);
    case Act(id, user, action, routing, now) =>
      if id < |w.cases| {
        CaseAt(w, id);
        PerformKeeps(w.cases[id], user, action, routing, now);
        QuietStepKeeps(w, id, Perform(w.cases[id], user, action, routing, now).c);
      }
    case RunTimeouts(routing, now) =>
      if Sweepable(w.cases, routing, now) {
        SweepKeeps(w, routing, now);
      }
    case RunExecutor(claims, batch, rail) =>
      if ValidClaims(w.cases, claims, batch) {
        SettleAllKeeps(w, claims, rail);
      }
    case RunReturnRepair(_, now) => RepairsFindNothing(w, now);
    case RunFundingRepair(_) => RepairsFindNothing(w, 0);
  }

  lemma {:induction false} RunsKeepInv(steps: seq<Step>)
    ensures Inv(Run(steps))
    decreases |steps|
  {
    if steps != [] {
      RunsKeepInv(steps[..|steps| - 1]);
      NextKeeps(Run(steps[..|steps| - 1]), steps[|steps| - 1]);
    } else {
      NothingIsSound();
    }
  }

  /** Every reachable case satisfies the invariant, alone and against the ledger. */
  lemma {:induction false} ReachedCase(steps: seq<Step>, id: TxId)
    requires id < |Run(steps).cases|
    ensures var w := Run(steps);
            CaseInv(w.cases[id]) && MoneyOk(id, w.cases[id], w.entries) && Sound(w.entries)
  {
    RunsKeepInv(steps);
    CaseAt(Run(steps), id);
  }

  // ----- paid out exactly once

  function Queued(attempts: seq<Attempt>): int {
    if attempts == [] then 0 else Queued(attempts[..|attempts| - 1]) + attempts[|attempts| - 1].amount
  }

  function QueuedBy(attempts: seq<Attempt>, kind: Kind): int {
    if attempts == [] then 0
    else
      QueuedBy(attempts[..|attempts| - 1], kind) +
      if attempts[|attempts| - 1].kind == kind then attempts[|attempts| - 1].amount else 0
  }

  lemma {:induction false} QueuedSnoc(attempts: seq<Attempt>, a: Attempt, kind: Kind)
    ensures Queued(attempts + [a]) == Queued(attempts) + a.amount
    ensures QueuedBy(attempts + [a], kind) == QueuedBy(attempts, kind) + if a.kind == kind then a.amount else 0
  {
    assert (attempts + [a])[..|attempts|] == attempts;
  }

  lemma {:induction false} TotalsOfOne(a: Attempt, kind: Kind)
    ensures Queued([a]) == a.amount && QueuedBy([a], kind) == if a.kind == kind then a.amount else 0
  {
    assert [] + [a] == [a];
    QueuedSnoc([], a, kind);
  }

  lemma {:induction false} TotalsOfTwo(a: Attempt, b: Attempt, kind: Kind)
    ensures Queued([a, b]) == a.amount + b.amount
    ensures QueuedBy([a, b], kind) ==
            (if a.kind == kind then a.amount else 0) + (if b.kind == kind then b.amount else 0)
  {
    assert [a] + [b] == [a, b];
    TotalsOfOne(a, kind);
    QueuedSnoc([a], b, kind);
  }

  lemma {:induction false} TotalsOf(attempts: seq<Attempt>, kind: Kind)
    requires |attempts| <= 2
    ensures |attempts| == 0 ==> Queued(attempts) == QueuedBy(attempts, kind) == 0
    ensures |attempts| == 1 ==>
              var a := attempts[0];
              Queued(attempts) == a.amount && QueuedBy(attempts, kind) == if a.kind == kind then a.amount else 0
    ensures |attempts| == 2 ==>
              var a, b := attempts[0], attempts[1];
              && Queued(attempts) == a.amount + b.amount
              && QueuedBy(attempts, kind) ==
                 (if a.kind == kind then a.amount else 0) + (if b.kind == kind then b.amount else 0)
  {
    if |attempts| == 1 {
      assert attempts == [attempts[0]];
      TotalsOfOne(attempts[0], kind);
    } else if |attempts| == 2 {
      assert attempts == [attempts[0], attempts[1]];
      TotalsOfTwo(attempts[0], attempts[1], kind);
    }
  }

  lemma {:induction false} PlanTotals(c: Case)
    requires CaseInv(c)
    ensures Queued(c.attempts) == if Terminal(c.tx.status) then c.tx.amount else 0
    ensures QueuedBy(c.attempts, Release) + QueuedBy(c.attempts, Refund) == Queued(c.attempts)
    ensures QueuedBy(c.attempts, Release) >= 0 && QueuedBy(c.attempts, Refund) >= 0
    ensures c.tx.status in {Released, ResolvedRelease} ==> QueuedBy(c.attempts, Release) == c.tx.amount
    ensures c.tx.status in {RefundedBuyer, ResolvedRefund} ==> QueuedBy(c.attempts, Refund) == c.tx.amount
  {
    assert |c.attempts| <= 2;
    TotalsOf(c.attempts, Release);
    TotalsOf(c.attempts, Refund);
  }

  /** Paid out exactly once, whatever the parties, the admins, the sweep and the rail do: nothing is
      queued before a transaction is decided, and then exactly its amount; both a full release and a
      full refund is impossible. */
  lemma {:induction false} PaidOutExactlyOnce(steps: seq<Step>, id: TxId)
    requires id < |Run(steps).cases|
    ensures var c := Run(steps).cases[id];
            && Queued(c.attempts) == (if Terminal(c.tx.status) then c.tx.amount else 0)
            && !(QueuedBy(c.attempts, Release) == c.tx.amount && QueuedBy(c.attempts, Refund) == c.tx.amount)
            && (forall i, j :: 0 <= i < j < |c.attempts| ==> c.attempts[i].purpose != c.attempts[j].purpose)
  {
    ReachedCase(steps, id);
    PlanTotals(Run(steps).cases[id]);
  }

  // ----- conservation and settlement

  /** Escrow conservation in every reachable state: each key's entries balance, money in is the
      funding and at most the total, money out is what was released and refunded, and the held
      balance is the difference and never negative. */
  lemma {:induction false} EscrowConserved(steps: seq<Step>, id: TxId, key: Key)
    requires id < |Run(steps).cases|
    ensures var c, entries := Run(steps).cases[id], Run(steps).entries;
            && Balanced(EntriesUnder(entries, key))
            && Held(entries, id, Debit) == FundedOf(c) <= c.tx.amount
            && Held(entries, id, Credit) == PaidOutOf(c)
            && HeldBalance(entries, id) == FundedOf(c) - PaidOutOf(c) >= 0
  {
    ReachedCase(steps, id);
    var w := Run(steps);
    assert Balanced(EntriesUnder(w.entries, key));
  }

  /** Every account of every escrow, in every reachable state: the seller's is debited what was released, the
      buyer's what was refunded, clearing is credited what was paid in, and nothing is booked anywhere
      else. */
  lemma {:induction false} AccountsConserved(steps: seq<Step>, id: TxId)
    requires id < |Run(steps).cases|
    ensures var c, entries := Run(steps).cases[id], Run(steps).entries;
            var e := c.escrow;
            && TotalIn(entries, id, EscrowHeld, Debit) == (if e.Some? then e.value.funded else 0)
            && TotalIn(entries, id, EscrowHeld, Credit) == (if e.Some? then e.value.released + e.value.refunded else 0)
            && TotalIn(entries, id, SellerPayable, Debit) == (if e.Some? then e.value.released else 0)
            && TotalIn(entries, id, BuyerRefundable, Debit) == (if e.Some? then e.value.refunded else 0)
            && TotalIn(entries, id, BuyerClearing, Credit) == (if e.Some? then e.value.funded else 0)
            && forall row <- entries ::
                 || row.account.EscrowHeld? || (row.account.BuyerClearing? && row.side.Credit?)
                 || (row.account.SellerPayable? && row.side.Debit?) || (row.account.BuyerRefundable? && row.side.Debit?)
  {
    ReachedCase(steps, id);
    RunsKeepInv(steps);
    HeldIsTotal(Run(steps).entries, id, Debit);
    HeldIsTotal(Run(steps).entries, id, Credit);
    forall row | row in Run(steps).entries
      ensures BookedTo(row)
    {
      var i :| 0 <= i < |Run(steps).entries| && Run(steps).entries[i] == row;
    }
  }

  lemma {:induction false} AllSucceeded(attempts: seq<Attempt>)
    requires forall a <- attempts :: a.outcome.Succeeded?
    ensures PaidBy(attempts, Release) + PaidBy(attempts, Refund) == Queued(attempts)
  {
    if attempts != [] {
      assert attempts[|attempts| - 1] in attempts;
      AllSucceeded(attempts[..|attempts| - 1]);
    }
  }

  /** With one attempt per purpose every attempt is the latest for its purpose. */
  lemma {:induction false} SucceededMeansAll(c: Case)
    requires CaseInv(c) && StatusOf(c.attempts) == PayoutSucceeded
    ensures forall a <- c.attempts :: a.outcome.Succeeded?
  {
    forall i | 0 <= i < |c.attempts|
      ensures c.attempts[i].outcome.Succeeded?
    {
      assert Latest(c.attempts, i);
    }
  }

  /** End-to-end settlement: a payout status of succeeded, stored or freshly derived, means the whole
      amount left the escrow, split as it was queued, and the ledger holds nothing for it. */
  lemma {:induction false} SucceededIsSettled(steps: seq<Step>, id: TxId)
    requires id < |Run(steps).cases|
    ensures var c, entries := Run(steps).cases[id], Run(steps).entries;
            && c.tx.payoutStatus == StatusOf(c.attempts)
            && (c.tx.payoutStatus == PayoutSucceeded ==>
                 && c.escrow.Some? && Terminal(c.tx.status) && PaidOutOf(c) == c.tx.amount
                 && HeldBalance(entries, id) == 0
                 && c.escrow.value.released == QueuedBy(c.attempts, Release)
                 && c.escrow.value.refunded == QueuedBy(c.attempts, Refund))
  {
    ReachedCase(steps, id);
    var w := Run(steps);
    var c := w.cases[id];
    if c.tx.payoutStatus == PayoutSucceeded {
      SucceededMeansAll(c);
      AllSucceeded(c.attempts);
      PaidIsQueued(c.attempts, Release);
      PaidIsQueued(c.attempts, Refund);
      PlanTotals(c);
    }
  }

  lemma {:induction false} PaidIsQueued(attempts: seq<Attempt>, kind: Kind)
    requires forall a <- attempts :: a.outcome.Succeeded?
    ensures PaidBy(attempts, kind) == QueuedBy(attempts, kind)
  {
    if attempts != [] {
      assert attempts[|attempts| - 1] in attempts;
      PaidIsQueued(attempts[..|attempts| - 1], kind);
    }
  }

  // ----- transaction and dispute

  /** The dispute's resolved status that goes with a resolved transaction. */
  predicate ResolvedAlike(t: Status, d: DisputeStatus) {
    (t.ResolvedRelease? <==> d.DisputeRelease?) && (t.ResolvedSplit? <==> d.DisputeSplit?) &&
    (t.ResolvedRefund? ==> d.DisputeRefund?) && (d.DisputeRefund? ==> t.ResolvedRefund? || t.RefundedBuyer?)
  }

  /** Transaction and dispute agree in every reachable state: there is at most one dispute, it is
      escalated whenever the transaction is, resolutions match, and no dispute is left in progress behind
      an escalated or finished transaction. An escalated dispute does not imply an escalated transaction,
      and a finished one may leave it escalated: MarketHistory says exactly when. */
  lemma {:induction false} TransactionAndDisputeAgree(steps: seq<Step>, id: TxId)
    requires id < |Run(steps).cases|
    ensures var c := Run(steps).cases[id];
            && |c.disputes| <= 1
            && (c.tx.status.EscalatedAdminReview? ==> |c.disputes| == 1 && c.disputes[0].status.DisputeEscalated?)
            && (c.tx.status in {ResolvedRelease, ResolvedRefund, ResolvedSplit} ==> |c.disputes| == 1)
            && (|c.disputes| == 1 ==> ResolvedAlike(c.tx.status, c.disputes[0].status))
            && (|c.disputes| == 1 && (Terminal(c.tx.status) || c.tx.status.EscalatedAdminReview?) ==>
                 !OpenDispute(c.disputes[0].status))
  {
    ReachedCase(steps, id);
  }

  /** An admin can always decide an escalated case: with a reason and a routable payout, releasing or
      refunding it commits. */
  lemma {:induction false} EscalatedCanBeResolved(steps: seq<Step>, id: TxId, decision: Decision,
        routing: Routing, now: Time)
    requires id < |Run(steps).cases| && Run(steps).cases[id].tx.status.EscalatedAdminReview?
    requires !decision.DecideSplit? && routing.noPhone == {} && routing.defaultRail.Some?
    ensures ForceResolved(Run(steps).cases[id], 0, false, decision, None, true, routing, now).Committed?
  {
    ReachedCase(steps, id);
    var c := Run(steps).cases[id];
    assert !Exists(c.attempts, AdminRefund(0)) && !Exists(c.attempts, AdminRelease(0));
  }

  /** The converse of the agreement fails: reporting an issue under "other" leaves an escalated dispute
      on a transaction that is only disputed, where an admin's decision is refused. */
  lemma {:induction false} OtherCategoryEscalatesAlone(c: Case, routing: Routing, now: Time)
    requires CaseInv(c) && c.tx.status.Hold24h?
    ensures var r := IssueReported(c, User(c.tx.buyer, Buyer), true, true, OtherCategory, None, now);
            && r.Committed? && r.c.tx.status.DisputedFunctional? && r.c.disputes[0].status.DisputeEscalated?
            && ForceResolved(r.c, 0, false, DecideRefund, None, true, routing, now).Raised?
  {
  }

  /** Dispute and transaction are escalated together. */
  predicate EscalatedTogether(c: Case) {
    c.tx.status.EscalatedAdminReview? <==> LatestDispute(c).Some? && LatestDispute(c).value.status.DisputeEscalated?
  }

  /** The action of a committed call leaves dispute and transaction escalated together, unless it is a
      report under "other". */
  ghost predicate PartsOnlyByOther(r: ActionResult, other: bool) {
    r.Committed? ==> (EscalatedTogether(r.c) <==> !other)
  }

  lemma {:induction false} DeliveryKeepsTogether(c: Case, user: User, action: Action, routing: Routing, now: Time)
    requires CaseInv(c) && (action.Dispatch? || action.Arrive? || action.ConfirmOtp? || action.WithholdOtp?)
    ensures PartsOnlyByOther(Perform(c, user, action, routing, now), false)
  {
  }

  lemma {:induction false} ReportParts(
        c: Case, user: User, found: bool, serialized: bool, category: Category, rejections: Option<int>, now: Time)
    requires CaseInv(c)
    ensures PartsOnlyByOther(IssueReported(c, user, found, serialized, category, rejections, now),
            category.OtherCategory?)
  {
  }

  lemma {:induction false} ReturnKeepsTogether(c: Case, user: User, action: Action, routing: Routing, now: Time)
    requires CaseInv(c) && EscalatedTogether(c) && (action.SentBack? || action.SellerReceived? || action.Escalate?)
    ensures PartsOnlyByOther(Perform(c, user, action, routing, now), false)
  {
  }

  lemma {:induction false} ResolutionKeepsTogether(
        c: Case, user: User, found: bool, action: Option<SellerAction>, allowed: bool, routing: Routing, now: Time)
    requires CaseInv(c) && EscalatedTogether(c)
    ensures PartsOnlyByOther(SellerResolved(c, user, found, action, allowed, routing, now), false)
  {
  }

  lemma {:induction false} ReconfirmKeepsTogether(c: Case, user: User, accepted: bool, routing: Routing, now: Time)
    requires CaseInv(c) && EscalatedTogether(c)
    ensures PartsOnlyByOther(Reconfirmed(c, user, accepted, routing, now), false)
  {
  }

  lemma {:induction false} DecisionKeepsTogether(
        c: Case, i: nat, blank: bool, decision: Decision, share: Option<Rounding.Decimal>, supported: bool,
        routing: Routing, now: Time)
    requires CaseInv(c)
    ensures PartsOnlyByOther(ForceResolved(c, i, blank, decision, share, supported, routing, now), false)
  {
  }

  /** Of all party actions and decisions, on any reachable case where the two agree, only a report under
      "other" parts them, and every such report that commits does. */
  lemma {:induction false} OnlyOtherParts(c: Case, user: User, action: Action, routing: Routing, now: Time)
    requires CaseInv(c) && EscalatedTogether(c) && Perform(c, user, action, routing, now).Committed?
    ensures EscalatedTogether(Perform(c, user, action, routing, now).c) <==>
            !(action.ReportIssue? && action.category.OtherCategory?)
  {
    match action
    case ReportIssue(found, serialized, category, rejections) =>
      ReportParts(c, user, found, serialized, category, rejections, now);
    case SellerResolution(found, act, allowed) => ResolutionKeepsTogether(c, user, found, act, allowed, routing, now);
    case Reconfirm(accepted) => ReconfirmKeepsTogether(c, user, accepted, routing, now);
    case ForceResolve(i, blank, decision, share, supported) =>
      DecisionKeepsTogether(c, i, blank, decision, share, supported, routing, now);
    case SentBack => ReturnKeepsTogether(c, user, action, routing, now);
    case SellerReceived => ReturnKeepsTogether(c, user, action, routing, now);
    case Escalate => ReturnKeepsTogether(c, user, action, routing, now);
    case _ => DeliveryKeepsTogether(c, user, action, routing, now);
  }

  // ----- what a split pays

  /** A case's two payouts are the given release and refund. */
  predicate PaysShares(c: Case, shares: (int, int)) {
    |c.attempts| == 2 && c.attempts[0].kind.Release? && c.attempts[1].kind.Refund?
    && (c.attempts[0].amount, c.attempts[1].amount) == shares
  }

  lemma {:induction false} CommittedSplitPays(
        c: Case, i: nat, share: Option<Rounding.Decimal>, routing: Routing, now: Time)
    requires CaseInv(c) && ForceResolved(c, i, false, DecideSplit, share, true, routing, now).Committed?
    ensures var d := ForceResolved(c, i, false, DecideSplit, share, true, routing, now).c;
            PaysShares(d, Rounding.SplitAmounts(c.tx.amount, ChosenRatio(share))) && d.attempts[0].amount > 0
  {
    assert i == 0;
    var (release, refund) := Rounding.SplitAmounts(c.tx.amount, ChosenRatio(share));
    QueueSplitPlan(c, i, release, refund, routing, now);
  }

  /** A committed split pays the share that was asked for if and only if that share is not zero: zero
      counts as not given and means one half. */
  lemma {:induction false} SplitPaysAsAskedExactly(
        c: Case, i: nat, asked: Rounding.Decimal, routing: Routing, now: Time)
    requires CaseInv(c) && ForceResolved(c, i, false, DecideSplit, Some(asked), true, routing, now).Committed?
    ensures var d := ForceResolved(c, i, false, DecideSplit, Some(asked), true, routing, now).c;
            PaysShares(d, Rounding.SplitAmounts(c.tx.amount, Rounding.ToRatio(asked))) <==> asked.units != 0
  {
    CommittedSplitPays(c, i, Some(asked), routing, now);
    if asked.units == 0 {
      Rounding.ZeroRatio(asked, c.tx.amount);
    }
  }

  /** The failing input: a share of zero, which commits and pays the seller half. */
  lemma {:induction false} ZeroSharePaysHalf(c: Case, places: nat, routing: Routing, now: Time)
    requires CaseInv(c) && c.tx.status.EscalatedAdminReview? && c.tx.amount > 1
    requires routing.noPhone == {} && routing.defaultRail.Some?
    ensures var zero := Some(Rounding.Decimal(0, places));
            var r := ForceResolved(c, 0, false, DecideSplit, zero, true, routing, now);
            r.Committed? && PaysShares(r.c, Rounding.SplitAmounts(c.tx.amount, 5000))
  {
    var (release, refund) := Rounding.SplitAmounts(c.tx.amount, 5000);
    Rounding.SplitPositive(c.tx.amount, 5000);
    SplitQueues(c, 0, release, refund, routing, now);
    QueueSplitPlan(c, 0, release, refund, routing, now);
  }

  /** Where both parties can be paid, both shares of an undecided case are queued. */
  lemma {:induction false} SplitQueues(c: Case, i: nat, release: int, refund: int, routing: Routing, now: Time)
    requires c.attempts == [] && routing.noPhone == {} && routing.defaultRail.Some? && release > 0 && refund > 0
    ensures QueueSplit(c, i, release, refund, routing, now).Some?
  {
    assert !Exists(c.attempts, AdminSplitRelease(i));
    QueueEffect(c, AdminSplitRelease(i), Release, release, routing, now);
    var first := Enqueue(c, AdminSplitRelease(i), Release, release, routing, now);
    assert !Exists(first.value.attempts, AdminSplitRefund(i));
  }

  // ----- recorded transitions

  /** Status replay: in every reachable state the recorded transitions form a path from
      awaiting_payment to the row's status, and there are at most twelve of them. */
  lemma {:induction false} StatusReplays(steps: seq<Step>, id: TxId)
    requires id < |Run(steps).cases|
    ensures var c := Run(steps).cases[id];
            IsPath(c.trail) && TrailEnd(c.trail) == c.tx.status && |c.trail| <= MAX_CHANGES
  {
    ReachedCase(steps, id);
  }

  /** Every action that changes the status lowers the measure, whatever the evidence claims about
      earlier rejections. */
  lemma {:induction false} ActionsMakeProgress(c: Case, user: User, action: Action, routing: Routing, now: Time)
    requires CaseInv(c)
    ensures var d := Perform(c, user, action, routing, now).c;
            c.trail <= d.trail && (d.tx.status != c.tx.status ==> Measure(d) < Measure(c))
  {
    PerformKeeps(c, user, action, routing, now);
  }

  /** A finished case stays as decided. */
  lemma {:induction false} TerminalIsFinal(c: Case, user: User, action: Action, routing: Routing, now: Time)
    requires Terminal(c.tx.status)
    ensures Perform(c, user, action, routing, now).c == c && SweepOne(c, routing, now) == Some(c)
  {
    if action.ForceResolve? {
      OnlyEscalatedDecided(c, action.dispute, action.reasonBlank, action.decision, action.share, action.splitSupported,
                           routing, now);
    }
  }

  lemma {:induction false} OnlyEscalatedDecided(
        c: Case, i: nat, blank: bool, decision: Decision, share: Option<Rounding.Decimal>, supported: bool,
        routing: Routing, now: Time)
    ensures c.tx.status.EscalatedAdminReview? ||
            ForceResolved(c, i, blank, decision, share, supported, routing, now).c == c
  {
  }

  // ----- custody

  /** Custody in every reachable state: every eConfirm prompt went out for an escrow with a provider
      reference and no reconciliation flag; an escrow on simulated custody has no provider reference;
      an eConfirm transaction past awaiting_payment is fully funded, on the ledger too, and pays out
      only through eConfirm. */
  lemma {:induction false} CustodyHonoured(steps: seq<Step>, id: TxId)
    requires id < |Run(steps).cases|
    ensures var c, entries := Run(steps).cases[id], Run(steps).entries;
            && (forall p <- c.prompts :: PromptOk(p))
            && (c.escrow.Some? && c.escrow.value.custody.Simulated? ==> c.escrow.value.reference.None?)
            && (c.tx.custody.Econfirm? && !c.tx.status.AwaitingPayment? ==>
                 FundedOf(c) == c.tx.amount && Held(entries, id, Debit) == c.tx.amount)
            && (c.tx.custody.Econfirm? ==> forall a <- c.attempts :: a.rail.EconfirmRail?)
  {
    ReachedCase(steps, id);
  }

  /** Custody changes only while the opening call is in flight, before any provider reference exists. */
  lemma {:induction false} SwitchOnlyBeforeReference(c: Case, answer: OpenAnswer, now: Time)
    requires CaseInv(c)
    ensures OpenReturned(c, answer, now).tx.custody != c.tx.custody ==>
              answer.OpenRejected? && c.opening.AwaitingOpen? && c.escrow.value.reference.None?
              && c.tx.status.AwaitingPayment?
    ensures c.escrow.Some? && c.escrow.value.reference.Some? ==>
              OpenReturned(c, answer, now).escrow.value.reference == c.escrow.value.reference
  {
  }

  // ----- the sweep

  /** The sweep, which selects by its own queries, moves exactly the transactions whose deadline has
      passed, each by the one rule of its state. */
  lemma {:induction false} SweepMovesExactlyTheDue(cases: seq<Case>, routing: Routing, now: Time, i: nat)
    requires Sweepable(cases, routing, now) && i < |cases|
    ensures var after := Sweep(cases, routing, now)[i];
            && (after.tx.status != cases[i].tx.status <==> PastDeadline(cases[i].tx, now))
            && (!PastDeadline(cases[i].tx, now) ==> after == cases[i])
            && (PastDeadline(cases[i].tx, now) ==> exists rule ::
                 && cases[i].tx.status == WatchedStatus(rule)
                 && TimeoutMove(rule, cases[i], routing, now) == Some(after)
                 && after.tx.status in {RefundedBuyer, Released, EscalatedAdminReview})
  {
    assert SweepOne(cases[i], routing, now).Some?;
    var rule := DueRule(cases[i].tx, now);
    QueriesMirrorDeadlines(cases[i].tx, now, if rule.Some? then rule.value else AtDoorRule);
  }

  /** A second sweep at the same moment changes nothing. */
  lemma {:induction false} SecondSweepChangesNothing(cases: seq<Case>, routing: Routing, again: Routing, now: Time)
    requires Sweepable(cases, routing, now)
    ensures Sweepable(Sweep(cases, routing, now), again, now)
    ensures Sweep(Sweep(cases, routing, now), again, now) == Sweep(cases, routing, now)
  {
    var after := Sweep(cases, routing, now);
    forall i | 0 <= i < |after|
      ensures SweepOne(after[i], again, now) == Some(after[i])
    {
      SweepMovesExactlyTheDue(cases, routing, now, i);
      QueriesMirrorDeadlines(after[i].tx, now, AtDoorRule);
    }
  }

  /** Nothing can be forgotten: every reachable transaction in a watched state has a deadline. */
  lemma {:induction false} WatchedStatesHaveDeadlines(steps: seq<Step>, id: TxId)
    requires id < |Run(steps).cases|
    ensures var tx := Run(steps).cases[id].tx;
            Deadline(tx).Some? <==>
              tx.status in {Locked, AtDoorPendingInspection, Hold24h, DisputedFunctional, ReturnInTransit}
  {
    ReachedCase(steps, id);
  }
}
