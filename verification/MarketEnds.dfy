/** How cases end: with which dispute, and on which funding. Both are traced back to the step of the run
    that decided it, by the guard that step met. */
module MarketEnds {
  import opened Domain
  import opened Payouts
  import opened Actions
  import opened Ledger
  import opened CaseInvariant
  import opened Market
  import opened RepairRules
  import opened MarketInvariant
  import opened MarketRuns
  import opened MarketHistory
  import opened Outcomes
  import Rounding

  // ----- what decides it

  predicate Settled(s: DisputeStatus) {
    s.DisputeRelease? || s.DisputeRefund? || s.DisputeSplit? || s.Canceled?
  }

  predicate DisputeSettled(c: Case) {
    LatestDispute(c).None? || Settled(LatestDispute(c).value.status)
  }

  predicate DisputeStandsEscalated(c: Case) {
    LatestDispute(c).Some? && LatestDispute(c).value.status.DisputeEscalated?
  }

  /** Things a step can do to a case, told from the world before it. */
  datatype Event = ReleasesEscalated(id: TxId) | LocksUnfunded(id: TxId) | EndsAs(id: TxId, status: Status)

  /** The state in which a step ends a case, by the tables: a committed call or a timeout that awards its
      amount. */
  function Said(w: World, step: Step, id: TxId): Option<Status>
    requires id < |w.cases|
  {
    var c := w.cases[id];
    if step.Act? && step.id == id && Admitted(c, step.user, step.action, step.routing) &&
       AwardOf(step.action, c.tx.amount).Some? then Some(EndsIn(step.action, Rejections(c)))
    else if step.RunTimeouts? && Sweepable(w.cases, step.routing, step.now) && TimedOut(c.tx, step.now) &&
            TimeoutAward(TimeoutRule(c.tx.status).value, c.tx.amount).Some? then
      Some(TimeoutEndsIn(TimeoutRule(c.tx.status).value))
    else None
  }

  /** A sweep's query for items not sent back returns the case while its dispute stands escalated; a
      production callback locks the case; a step ends it in some state. */
  predicate Occurs(e: Event, w: World, step: Step) {
    e.id < |w.cases| &&
    match e
    case ReleasesEscalated(id) =>
      step.RunTimeouts? && Sweepable(w.cases, step.routing, step.now)
      && SelectedBy(NotSentBackRule, w.cases[id].tx, step.now) && DisputeStandsEscalated(w.cases[id])
    case LocksUnfunded(id) =>
      step.Callback? && step.id == id && step.production && CallbackLocks(w.cases[id], step.resultCode)
    case EndsAs(id, status) => Said(w, step, id) == Some(status)
  }

  /** Whether it happened at some step of a run. */
  predicate Occurred(steps: seq<Step>, e: Event) {
    steps != [] &&
    (Occurred(steps[..|steps| - 1], e) || Occurs(e, Run(steps[..|steps| - 1]), steps[|steps| - 1]))
  }

  predicate OccursAt(steps: seq<Step>, i: nat, e: Event)
    requires i < |steps|
  {
    Occurs(e, Run(steps[..i]), steps[i])
  }

  lemma {:induction false} EarlierOccurs(steps: seq<Step>, i: nat, e: Event)
    requires i < |steps| - 1
    ensures OccursAt(steps[..|steps| - 1], i, e) <==> OccursAt(steps, i, e)
  {
    assert steps[..|steps| - 1][..i] == steps[..i];
  }

  lemma {:induction false} OccurredBy(steps: seq<Step>, i: nat, e: Event)
    requires i < |steps| && OccursAt(steps, i, e)
    ensures Occurred(steps, e)
    decreases |steps|
  {
    if i < |steps| - 1 {
      EarlierOccurs(steps, i, e);
      OccurredBy(steps[..|steps| - 1], i, e);
    }
  }

  lemma {:induction false} OccurredWhen(steps: seq<Step>, e: Event) returns (i: nat)
    requires Occurred(steps, e)
    ensures i < |steps| && OccursAt(steps, i, e)
    decreases |steps|
  {
    if Occurs(e, Run(steps[..|steps| - 1]), steps[|steps| - 1]) {
      i := |steps| - 1;
    } else {
      i := OccurredWhen(steps[..|steps| - 1], e);
      EarlierOccurs(steps, i, e);
    }
  }

  lemma {:induction false} OccurredIs(steps: seq<Step>, e: Event)
    ensures Occurred(steps, e) <==> exists i :: 0 <= i < |steps| && OccursAt(steps, i, e)
  {
    if Occurred(steps, e) {
      var i := OccurredWhen(steps, e);
    }
    if i: nat :| i < |steps| && OccursAt(steps, i, e) {
      OccurredBy(steps, i, e);
    }
  }

  lemma {:induction false} NotYet(steps: seq<Step>, e: Event)
    requires e.id >= |Run(steps).cases|
    ensures !Occurred(steps, e)
    decreases |steps|
  {
    if steps != [] {
      NextLength(Run(steps[..|steps| - 1]), steps[|steps| - 1]);
      NotYet(steps[..|steps| - 1], e);
    }
  }

  // ----- steps that neither end a case nor leave it unfunded

  predicate Awaiting(c: Case) {
    c.tx.status.AwaitingPayment?
  }

  predicate SameParties(c: Case, d: Case) {
    d.tx.amount == c.tx.amount && d.tx.buyer == c.tx.buyer && d.tx.seller == c.tx.seller
  }

  /** Releases go to the seller and refunds to the buyer, and a split pays the recorded share. */
  predicate RightPayouts(c: Case) {
    && (forall i :: 0 <= i < |c.attempts| ==>
         c.attempts[i].payee == if c.attempts[i].kind.Release? then c.tx.seller else c.tx.buyer)
    && (c.tx.status.ResolvedSplit? ==>
         && |c.attempts| == 2 && |c.disputes| == 1 && c.disputes[0].splitRatio.Some?
         && c.attempts[0].amount == Rounding.RoundHalfEven(c.tx.amount * c.disputes[0].splitRatio.value, 10000))
  }

  predicate SameEnd(c: Case, d: Case) {
    && (if Terminal(c.tx.status) then d.tx.status == c.tx.status else !Terminal(d.tx.status))
    && d.disputes == c.disputes && SameParties(c, d) && (RightPayouts(c) ==> RightPayouts(d))
  }

  /** The funding is settled when the transaction stops awaiting payment, and then it is there. */
  predicate Funds(c: Case, d: Case) {
    if Awaiting(c) then Awaiting(d) || FundedOf(d) > 0 else !Awaiting(d) && FundedOf(d) == FundedOf(c)
  }

  predicate Carries(c: Case, d: Case) {
    SameEnd(c, d) && Funds(c, d)
  }

  lemma {:induction false} CarriesTransitive(c: Case, d: Case, e: Case)
    requires Carries(c, d) && Carries(d, e)
    ensures Carries(c, e)
  {
  }

  lemma {:induction false} OpeningCarries(c: Case, answer: OpenAnswer, now: Time, payer: UserId, tooSoon: bool)
    requires CaseInv(c)
    ensures Carries(c, OpenReturned(c, answer, now)) && Carries(c, PromptRequested(c))
    ensures Carries(c, PromptResent(c, payer, tooSoon))
  {
  }

  lemma {:induction false} CallbackCarries(id: TxId, c: Case, entries: Entries, code: int, production: bool, now: Time)
    requires Sound(entries) && CaseInv(c) && MoneyOk(id, c, entries)
    ensures var d := CalledBack(id, c, entries, code, production, now).0;
            && SameEnd(c, d)
            && (if production && CallbackLocks(c, code) then Awaiting(c) && !Awaiting(d) && FundedOf(d) == 0
                else Funds(c, d))
  {
    if CallbackLocks(c, code) && !production {
      CallbackKeeps(id, c, entries, code, production, now);
      FundedKeepsMoney(id, LockedWithEscrow(c, now), entries, CallbackFunding(id));
    }
  }

  lemma {:induction false} PollCarries(id: TxId, c: Case, entries: Entries, reported: bool, now: Time, timeout: int)
    requires Sound(entries) && CaseInv(c) && MoneyOk(id, c, entries) && Pollable(c)
    ensures var d := Polled(id, c, entries, reported, now, timeout).0; Carries(c, d) && d.attempts == c.attempts
  {
    FundedKeepsMoney(id, c, entries, EconfirmFunding(id));
  }

  lemma {:induction false} PollAllCarries(
        w: World, ids: seq<TxId>, reported: set<TxId>, now: Time, timeout: int, id: TxId)
    requires Inv(w) && PollOk(w.cases, ids) && id < |w.cases|
    ensures var r := PollAll(w, ids, reported, now, timeout);
            r.Some? ==> Carries(w.cases[id], r.value.cases[id]) && r.value.cases[id].attempts == w.cases[id].attempts
    decreases |ids|
  {
    var r := PollAll(w, ids, reported, now, timeout);
    if ids != [] && r.Some? {
      var k := ids[0];
      var polled := Polled(k, w.cases[k], w.entries, k in reported, now, timeout);
      CaseAt(w, k);
      PollCarries(k, w.cases[k], w.entries, k in reported, now, timeout);
      PollKeeps(k, w.cases[k], w.entries, k in reported, now, timeout);
      WithCaseKeeps(w, k, polled);
      assert forall i :: 0 <= i < |ids[1..]| ==> ids[1..][i] == ids[i + 1] && ids[i + 1] > k;
      PollAllCarries(WithCase(w, k, polled), ids[1..], reported, now, timeout, id);
      CarriesTransitive(w.cases[id], WithCase(w, k, polled).cases[id], r.value.cases[id]);
    }
  }

  lemma {:induction false} SettleCarries(id: TxId, c: Case, entries: Entries, i: nat, answer: RailAnswer)
    requires i < |c.attempts|
    ensures Carries(c, Settle(id, c, entries, i, answer).0)
  {
  }

  lemma {:induction false} SettleAllCarries(w: World, claims: seq<Claim>, rail: Claim -> RailAnswer, id: TxId)
    requires InRange(w.cases, claims) && id < |w.cases|
    ensures |SettleAll(w, claims, rail).cases| == |w.cases|
    ensures Carries(w.cases[id], SettleAll(w, claims, rail).cases[id])
    decreases |claims|
  {
    if claims != [] {
      var k := claims[0];
      SettleCarries(k.id, w.cases[k.id], w.entries, k.attempt, rail(k));
      SettleTouchesOne(k.id, w.cases[k.id], w.entries, k.attempt, rail(k));
      var next := WithCase(w, k.id, Settle(k.id, w.cases[k.id], w.entries, k.attempt, rail(k)));
      assert InRange(next.cases, claims[1..]);
      SettleAllCarries(next, claims[1..], rail, id);
      CarriesTransitive(w.cases[id], next.cases[id], SettleAll(w, claims, rail).cases[id]);
    }
  }

  // ----- actions and timeouts

  lemma {:induction false} QuietFunds(c: Case, d: Case)
    requires CaseInv(c) && CaseInv(d) && Quiet(c, d) && !Awaiting(c)
    ensures Funds(c, d)
  {
    assert Awaiting(d) ==> |d.trail| == 0;
  }

  /** Nothing but payment moves an unpaid transaction. */
  lemma {:induction false} UnpaidWaits(c: Case, user: User, action: Action, routing: Routing, now: Time)
    requires CaseInv(c) && Awaiting(c)
    ensures Perform(c, user, action, routing, now).c == c && SweepOne(c, routing, now) == Some(c)
  {
    match action
    case ForceResolve(i, blank, decision, share, supported) =>
      OnlyEscalatedDecided(c, i, blank, decision, share, supported, routing, now);
    case _ =>
  }

  /** An action releases a case only at the door, before there is any dispute. */
  lemma {:induction false} ReleasedWithoutDispute(c: Case, user: User, action: Action, routing: Routing, now: Time)
    requires CaseInv(c) && !c.tx.status.Released? && Perform(c, user, action, routing, now).c.tx.status.Released?
    ensures DisputeSettled(Perform(c, user, action, routing, now).c)
  {
    match action
    case ConfirmOtp(found, serialized, matches) =>
      assert c.tx.status.AtDoorPendingInspection? && c.disputes == [];
      OtpKeepsDisputes(c, user, found, serialized, matches, routing, now);
    case ForceResolve(i, blank, decision, share, supported) =>
      DecisionNeverReleases(c, i, blank, decision, share, supported, routing, now);
    case SellerResolution(found, act, allowed) => ResolutionNeverReleases(c, user, found, act, allowed, routing, now);
    case _ =>
  }

  lemma {:induction false} OtpKeepsDisputes(
        c: Case, user: User, found: bool, serialized: bool, matches: bool, routing: Routing, now: Time)
    ensures OtpConfirmed(c, user, found, serialized, matches, routing, now).c.disputes == c.disputes
  {
  }

  lemma {:induction false} ResolutionNeverReleases(c: Case, user: User, found: bool, action: Option<SellerAction>,
        allowed: bool, routing: Routing, now: Time)
    requires !c.tx.status.Released?
    ensures !SellerResolved(c, user, found, action, allowed, routing, now).c.tx.status.Released?
  {
  }

  lemma {:induction false} DecisionNeverReleases(
        c: Case, i: nat, blank: bool, decision: Decision, share: Option<Rounding.Decimal>, supported: bool,
        routing: Routing, now: Time)
    requires !c.tx.status.Released?
    ensures !ForceResolved(c, i, blank, decision, share, supported, routing, now).c.tx.status.Released?
  {
  }

  lemma {:induction false} FinalDispute(c: Case)
    requires CaseInv(c) && Terminal(c.tx.status)
    ensures DisputeSettled(c) || (c.tx.status.Released? && DisputeStandsEscalated(c))
  {
  }

  /** Every action that ends a case settles its dispute. */
  lemma {:induction false} ActionSettles(c: Case, user: User, action: Action, routing: Routing, now: Time)
    requires CaseInv(c) && !Terminal(c.tx.status) && Terminal(Perform(c, user, action, routing, now).c.tx.status)
    ensures DisputeSettled(Perform(c, user, action, routing, now).c)
  {
    PerformKeeps(c, user, action, routing, now);
    FinalDispute(Perform(c, user, action, routing, now).c);
    if Perform(c, user, action, routing, now).c.tx.status.Released? {
      ReleasedWithoutDispute(c, user, action, routing, now);
    }
  }

  /** A timeout that ends a case settles its dispute, unless the item was not sent back and the dispute
      already stands escalated. Both can be read before the sweep. */
  lemma {:induction false} TimeoutSettles(rule: Rule, c: Case, routing: Routing, now: Time)
    requires CaseInv(c) && c.tx.status == WatchedStatus(rule)
    ensures var r := TimeoutMove(rule, c, routing, now);
            r.Some? && Terminal(r.value.tx.status) ==>
                (DisputeSettled(r.value) <==> !(rule.NotSentBackRule? && DisputeStandsEscalated(c)))
    ensures var r := TimeoutMove(rule, c, routing, now);
            r.Some? && rule.NotSentBackRule? ==> Terminal(r.value.tx.status)
  {
    TimeoutKeeps(rule, c, routing, now);
    if rule.NotSentBackRule? {
      NotSentBackSettles(c, routing, now);
    } else if TimeoutMove(rule, c, routing, now).Some? && Terminal(TimeoutMove(rule, c, routing, now).value.tx.status) {
      FinalDispute(TimeoutMove(rule, c, routing, now).value);
    }
  }

  lemma {:induction false} NotSentBackSettles(c: Case, routing: Routing, now: Time)
    requires CaseInv(c) && c.tx.status.DisputedFunctional?
    ensures var r := TimeoutMove(NotSentBackRule, c, routing, now);
            r.Some? ==> r.value.tx.status.Released? && (DisputeSettled(r.value) <==> !DisputeStandsEscalated(c))
  {
  }

  // ----- any step

  /** How a step may end a case, given whether it releases it over an escalated dispute. */
  predicate Ends(c: Case, d: Case, escalated: bool) {
    && (Terminal(c.tx.status) ==> Terminal(d.tx.status) && d.disputes == c.disputes && !escalated)
    && (!Terminal(c.tx.status) && Terminal(d.tx.status) ==> (DisputeSettled(d) <==> !escalated))
    && (escalated ==> Terminal(d.tx.status))
  }

  /** And how it may lock it, given whether it is a production callback that locks. */
  predicate Locks(c: Case, d: Case, unfunded: bool) {
    if unfunded then Awaiting(c) && !Awaiting(d) && FundedOf(d) == 0 else Funds(c, d)
  }

  predicate StepOk(w: World, step: Step, id: TxId)
    requires id < |w.cases|
  {
    && id < |Next(w, step).cases|
    && Ends(w.cases[id], Next(w, step).cases[id], Occurs(ReleasesEscalated(id), w, step))
    && Locks(w.cases[id], Next(w, step).cases[id], Occurs(LocksUnfunded(id), w, step))
  }

  lemma {:induction false} ActionOk(c: Case, user: User, action: Action, routing: Routing, now: Time)
    requires CaseInv(c)
    ensures var d := Perform(c, user, action, routing, now).c; Ends(c, d, false) && Funds(c, d)
  {
    if Awaiting(c) {
      UnpaidWaits(c, user, action, routing, now);
    } else {
      PerformKeeps(c, user, action, routing, now);
      QuietFunds(c, Perform(c, user, action, routing, now).c);
    }
    if Terminal(c.tx.status) {
      TerminalIsFinal(c, user, action, routing, now);
    } else if Terminal(Perform(c, user, action, routing, now).c.tx.status) {
      ActionSettles(c, user, action, routing, now);
    }
  }

  lemma {:induction false} SweepOk(c: Case, routing: Routing, now: Time)
    requires CaseInv(c) && SweepOne(c, routing, now).Some?
    ensures var d := SweepOne(c, routing, now).value;
            && Ends(c, d, SelectedBy(NotSentBackRule, c.tx, now) && DisputeStandsEscalated(c)) && Funds(c, d)
  {
    var rule := DueRule(c.tx, now);
    QueriesMirrorDeadlines(c.tx, now, NotSentBackRule);
    if rule.Some? {
      QueriesMirrorDeadlines(c.tx, now, rule.value);
      TimeoutKeeps(rule.value, c, routing, now);
      TimeoutSettles(rule.value, c, routing, now);
      QuietFunds(c, SweepOne(c, routing, now).value);
    }
  }

  /** A step that carries the case over neither ends it nor locks it unfunded. */
  lemma {:induction false} CarriedOk(w: World, step: Step, id: TxId)
    requires id < |w.cases| && id < |Next(w, step).cases| && !step.RunTimeouts? && !step.Callback?
    requires Carries(w.cases[id], Next(w, step).cases[id])
    ensures StepOk(w, step, id)
  {
  }

  lemma {:induction false} PromptCarries(w: World, step: Step, id: TxId)
    requires id < |w.cases| && CaseInv(w.cases[id]) && (step.OpenReturns? || step.SendPrompt? || step.ResendPrompt?)
    ensures id < |Next(w, step).cases| && Carries(w.cases[id], Next(w, step).cases[id])
  {
    var c := w.cases[id];
    match step
    case OpenReturns(_, answer, now) => OpeningCarries(c, answer, now, 0, false);
    case SendPrompt(_) => OpeningCarries(c, OpenUnclear, 0, 0, false);
    case ResendPrompt(_, payer, tooSoon) => OpeningCarries(c, OpenUnclear, 0, payer, tooSoon);
  }

  lemma {:induction false} CallbackOk(w: World, step: Step, id: TxId)
    requires Inv(w) && id < |w.cases| && step.Callback?
    ensures StepOk(w, step, id)
  {
    if step.id == id {
      CaseAt(w, id);
      CallbackCarries(id, w.cases[id], w.entries, step.resultCode, step.production, step.now);
    }
  }

  lemma {:induction false} ActOk(w: World, step: Step, id: TxId)
    requires Inv(w) && id < |w.cases| && step.Act?
    ensures StepOk(w, step, id)
  {
    if step.id < |w.cases| {
      CaseAt(w, step.id);
      ActionOk(w.cases[step.id], step.user, step.action, step.routing, step.now);
    }
  }

  lemma {:induction false} PollCarriesAll(w: World, step: Step, id: TxId)
    requires Inv(w) && id < |w.cases| && step.Poll?
    ensures id < |Next(w, step).cases| && Carries(w.cases[id], Next(w, step).cases[id])
  {
    BatchPollable(w.cases, step.budget);
    PollAllCarries(w, PollBatch(w.cases, step.budget), step.reported, step.now, step.timeout, id);
  }

  lemma {:induction false} ExecutorCarries(w: World, step: Step, id: TxId)
    requires id < |w.cases| && step.RunExecutor?
    ensures id < |Next(w, step).cases| && Carries(w.cases[id], Next(w, step).cases[id])
  {
    if ValidClaims(w.cases, step.claims, step.batch) {
      SettleAllCarries(w, step.claims, step.rail, id);
    }
  }

  lemma {:induction false} SweepStepOk(w: World, step: Step, id: TxId)
    requires Inv(w) && id < |w.cases| && step.RunTimeouts?
    ensures StepOk(w, step, id)
  {
    if Sweepable(w.cases, step.routing, step.now) {
      assert SweepOne(w.cases[id], step.routing, step.now).Some?;
      CaseAt(w, id);
      SweepOk(w.cases[id], step.routing, step.now);
    }
  }

  lemma {:induction false} OtherCarries(w: World, step: Step, id: TxId)
    requires Inv(w) && id < |w.cases| && (step.RunReturnRepair? || step.RunFundingRepair? || step.Create?)
    ensures id < |Next(w, step).cases| && Carries(w.cases[id], Next(w, step).cases[id])
  {
    if step.RunReturnRepair? {
      RepairsFindNothing(w, step.now);
    }
  }

  lemma {:induction false} StepCarries(w: World, step: Step, id: TxId)
    requires Inv(w) && id < |w.cases| && !step.Callback? && !step.RunTimeouts? && !step.Act?
    ensures id < |Next(w, step).cases| && Carries(w.cases[id], Next(w, step).cases[id])
  {
    if step.Poll? {
      PollCarriesAll(w, step, id);
    } else if step.RunExecutor? {
      ExecutorCarries(w, step, id);
    } else if step.OpenReturns? || step.SendPrompt? || step.ResendPrompt? {
      CaseAt(w, id);
      PromptCarries(w, step, id);
    } else {
      OtherCarries(w, step, id);
    }
  }

  lemma {:induction false} EveryStepOk(w: World, step: Step, id: TxId)
    requires Inv(w) && id < |w.cases|
    ensures StepOk(w, step, id)
  {
    if step.Callback? {
      CallbackOk(w, step, id);
    } else if step.RunTimeouts? {
      SweepStepOk(w, step, id);
    } else if step.Act? {
      ActOk(w, step, id);
    } else {
      StepCarries(w, step, id);
      CarriedOk(w, step, id);
    }
  }

  lemma {:induction false} NewCaseAwaits(w: World, step: Step, id: TxId)
    requires |w.cases| <= id < |Next(w, step).cases|
    ensures Awaiting(Next(w, step).cases[id]) && FundedOf(Next(w, step).cases[id]) == 0
  {
    NextLength(w, step);
  }

  // ----- whole runs

  /** A final transaction's dispute is resolved or canceled, with one exception: at some step of the run
      the sweep found that the item was not sent back while the dispute stood escalated. */
  lemma {:induction false} FinalDisputesSettled(steps: seq<Step>, id: TxId)
    requires id < |Run(steps).cases| && Terminal(Run(steps).cases[id].tx.status)
    ensures DisputeSettled(Run(steps).cases[id]) <==> !Occurred(steps, ReleasesEscalated(id))
    ensures var c := Run(steps).cases[id];
            DisputeSettled(c) <==> !(c.tx.status.Released? && DisputeStandsEscalated(c))
  {
    ReachedCase(steps, id);
    FinalDispute(Run(steps).cases[id]);
    EndsTraced(steps, id);
  }

  /** Whether the dispute behind the case is settled tells what has happened. */
  predicate EndTraced(c: Case, happened: bool) {
    if Terminal(c.tx.status) then DisputeSettled(c) <==> !happened else !happened
  }

  lemma {:induction false} StepTracesEnd(w: World, step: Step, id: TxId, happened: bool)
    requires Inv(w) && id < |Next(w, step).cases|
    requires if id < |w.cases| then EndTraced(w.cases[id], happened) else !happened
    ensures EndTraced(Next(w, step).cases[id], happened || Occurs(ReleasesEscalated(id), w, step))
  {
    if id < |w.cases| {
      EveryStepOk(w, step, id);
    } else {
      NewCaseAwaits(w, step, id);
    }
  }

  lemma {:induction false} EndsTraced(steps: seq<Step>, id: TxId)
    requires id < |Run(steps).cases|
    ensures EndTraced(Run(steps).cases[id], Occurred(steps, ReleasesEscalated(id)))
    decreases |steps|
  {
    if steps != [] {
      var before := steps[..|steps| - 1];
      RunsKeepInv(before);
      if id < |Run(before).cases| {
        EndsTraced(before, id);
      } else {
        NotYet(before, ReleasesEscalated(id));
      }
      StepTracesEnd(Run(before), steps[|steps| - 1], id, Occurred(before, ReleasesEscalated(id)));
    }
  }

  /** A transaction past awaiting payment is funded in full, with one exception: a production callback
      locked it. */
  lemma {:induction false} FundedUnlessProductionLocked(steps: seq<Step>, id: TxId)
    requires id < |Run(steps).cases|
    ensures var c, e := Run(steps).cases[id], LocksUnfunded(id);
            && FundedOf(c) in {0, c.tx.amount}
            && (Awaiting(c) ==> FundedOf(c) == 0 && !Occurred(steps, e))
            && (!Awaiting(c) ==> (FundedOf(c) == 0 <==> Occurred(steps, e)))
  {
    ReachedCase(steps, id);
    FundingsTraced(steps, id);
  }

  predicate FundingTraced(c: Case, happened: bool) {
    if Awaiting(c) then !happened else FundedOf(c) <= 0 <==> happened
  }

  lemma {:induction false} StepTracesFunding(w: World, step: Step, id: TxId, happened: bool)
    requires Inv(w) && id < |Next(w, step).cases|
    requires if id < |w.cases| then FundingTraced(w.cases[id], happened) else !happened
    ensures FundingTraced(Next(w, step).cases[id], happened || Occurs(LocksUnfunded(id), w, step))
  {
    if id < |w.cases| {
      EveryStepOk(w, step, id);
    } else {
      NewCaseAwaits(w, step, id);
    }
  }

  lemma {:induction false} FundingsTraced(steps: seq<Step>, id: TxId)
    requires id < |Run(steps).cases|
    ensures FundingTraced(Run(steps).cases[id], Occurred(steps, LocksUnfunded(id)))
    decreases |steps|
  {
    if steps != [] {
      var before := steps[..|steps| - 1];
      RunsKeepInv(before);
      if id < |Run(before).cases| {
        FundingsTraced(before, id);
      } else {
        NotYet(before, LocksUnfunded(id));
      }
      StepTracesFunding(Run(before), steps[|steps| - 1], id, Occurred(before, LocksUnfunded(id)));
    }
  }

  /** The exception needs a report under "other". */
  lemma {:induction false} FinalDisputesSettledWithoutOther(steps: seq<Step>, id: TxId)
    requires NoOtherReports(steps) && id < |Run(steps).cases| && Terminal(Run(steps).cases[id].tx.status)
    ensures DisputeSettled(Run(steps).cases[id])
  {
    ReachedCase(steps, id);
    TogetherWithoutOther(steps, id);
  }

  /** And every such report can lead there: when the buyer then lets the time to send the item back run
      out, the sweep releases the money, the dispute stays escalated, no admin can decide it, and the
      repair of stranded cases does not list it. */
  lemma {:induction false} ReleasedWithEscalatedDispute(c: Case, routing: Routing, now: Time, later: Time)
    requires CaseInv(c) && c.tx.status.Hold24h? && later >= now + RETURN_SEND_WINDOW
    requires routing.noPhone == {} && routing.defaultRail.Some?
    ensures var r := IssueReported(c, User(c.tx.buyer, Buyer), true, true, OtherCategory, None, now).c;
            var d := SweepOne(r, routing, later);
            && DueRule(r.tx, later) == Some(NotSentBackRule)
            && d.Some? && d.value.tx.status.Released? && !DisputeSettled(d.value)
            && StrandedAction(d.value).None?
            && forall decision :: ForceResolved(d.value, 0, false, decision, None, true, routing, later).Raised?
  {
    var r := IssueReported(c, User(c.tx.buyer, Buyer), true, true, OtherCategory, None, now).c;
    assert r.tx.status.DisputedFunctional? && r.tx.updatedAt == now;
    assert SelectedBy(NotSentBackRule, r.tx, later);
    assert r.attempts == [] && !Exists(r.attempts, DisputeTimeoutRelease);
    assert LatestDispute(r).value.status.DisputeEscalated?;
  }
}
