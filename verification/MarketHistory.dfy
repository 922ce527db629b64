/** What a case keeps from one moment of a run to any later one. */
module MarketHistory {
  import opened Domain
  import opened Payouts
  import opened Actions
  import opened Ledger
  import opened CaseInvariant
  import opened Market
  import opened RepairRules
  import opened MarketInvariant
  import opened MarketRuns
  import Rounding

  // ----- custody

  predicate HasReference(c: Case) {
    c.escrow.Some? && c.escrow.value.reference.Some?
  }

  /** Between two moments: a provider reference is never lost or replaced and fixes the custody, and the
      custody changes only from eConfirm to simulated, only while the opening call is still out and no
      reference exists. */
  predicate CustodyStays(c: Case, d: Case) {
    && (HasReference(c) ==>
         && HasReference(d) && d.tx.custody == c.tx.custody
         && d.escrow.value.reference == c.escrow.value.reference && d.escrow.value.custody == c.escrow.value.custody)
    && (d.tx.custody != c.tx.custody ==>
         c.tx.custody.Econfirm? && d.tx.custody.Simulated? && c.opening.AwaitingOpen? && !HasReference(c))
    && (d.opening.AwaitingOpen? ==> c.opening.AwaitingOpen?)
  }

  /** Transaction and dispute, if escalated together before, still are. */
  predicate TogetherStays(c: Case, d: Case) {
    EscalatedTogether(c) ==> EscalatedTogether(d)
  }

  predicate Stays(c: Case, d: Case) {
    CustodyStays(c, d) && TogetherStays(c, d)
  }

  lemma {:induction false} StaysTransitive(c: Case, d: Case, e: Case)
    requires Stays(c, d) && Stays(d, e)
    ensures Stays(c, e)
  {
  }

  lemma {:induction false} StaysReflexive(c: Case)
    ensures Stays(c, c)
  {
  }

  /** A step on one case leaves every other as it is. */
  lemma {:induction false} OneCase(w: World, k: TxId, r: (Case, Entries), id: TxId)
    requires k < |w.cases| && id < |w.cases|
    ensures CustodyStays(w.cases[k], r.0) ==> CustodyStays(w.cases[id], WithCase(w, k, r).cases[id])
    ensures TogetherStays(w.cases[k], r.0) ==> TogetherStays(w.cases[id], WithCase(w, k, r).cases[id])
  {
    StaysReflexive(w.cases[id]);
  }

  // ----- each step on its case

  lemma {:induction false} OpeningStays(c: Case, answer: OpenAnswer, now: Time)
    requires CaseInv(c)
    ensures Stays(c, OpenReturned(c, answer, now)) && Stays(c, PromptRequested(c))
  {
  }

  lemma {:induction false} ResendStays(c: Case, buyer: UserId, tooSoon: bool)
    ensures Stays(c, PromptResent(c, buyer, tooSoon))
  {
  }

  lemma {:induction false} CallbackStays(id: TxId, c: Case, entries: Entries, code: int, production: bool, now: Time)
    requires CaseInv(c)
    ensures Stays(c, CalledBack(id, c, entries, code, production, now).0)
  {
  }

  lemma {:induction false} PollStays(id: TxId, c: Case, entries: Entries, reported: bool, now: Time, timeout: int)
    requires CaseInv(c)
    ensures Stays(c, Polled(id, c, entries, reported, now, timeout).0)
  {
  }

  lemma {:induction false} SettleStays(id: TxId, c: Case, entries: Entries, i: nat, answer: RailAnswer)
    requires i < |c.attempts|
    ensures Stays(c, Settle(id, c, entries, i, answer).0)
  {
  }

  lemma {:induction false} TimeoutStays(rule: Rule, c: Case, routing: Routing, now: Time)
    requires CaseInv(c) && c.tx.status == WatchedStatus(rule)
    ensures var r := TimeoutMove(rule, c, routing, now); r.Some? ==> Stays(c, r.value)
  {
    if rule.NotSentBackRule? {
      NotSentBackStays(c, routing, now);
    }
  }

  lemma {:induction false} NotSentBackStays(c: Case, routing: Routing, now: Time)
    requires CaseInv(c) && c.tx.status == WatchedStatus(NotSentBackRule)
    ensures var r := TimeoutMove(NotSentBackRule, c, routing, now); r.Some? ==> Stays(c, r.value)
  {
  }

  lemma {:induction false} SweepStays(c: Case, routing: Routing, now: Time)
    requires CaseInv(c)
    ensures var r := SweepOne(c, routing, now); r.Some? ==> Stays(c, r.value)
  {
    var rule := DueRule(c.tx, now);
    if rule.Some? {
      QueriesMirrorDeadlines(c.tx, now, rule.value);
      TimeoutStays(rule.value, c, routing, now);
    }
  }

  /** The custody choice and the state of the opening call, which no party action touches. */
  predicate SameOpening(c: Case, d: Case) {
    d.tx.custody == c.tx.custody && d.opening == c.opening
  }

  lemma {:induction false} DecisionKeepsOpening(
        c: Case, i: nat, blank: bool, decision: Decision, share: Option<Rounding.Decimal>, supported: bool,
        routing: Routing, now: Time)
    ensures SameOpening(c, ForceResolved(c, i, blank, decision, share, supported, routing, now).c)
  {
  }

  lemma {:induction false} ActionKeepsOpening(c: Case, user: User, action: Action, routing: Routing, now: Time)
    ensures SameOpening(c, Perform(c, user, action, routing, now).c)
  {
    match action
    case ForceResolve(i, blank, decision, share, supported) =>
      DecisionKeepsOpening(c, i, blank, decision, share, supported, routing, now);
    case _ =>
  }

  lemma {:induction false} QuietKeepsCustody(c: Case, d: Case)
    requires SameOpening(c, d) && Quiet(c, d)
    ensures CustodyStays(c, d)
  {
  }

  lemma {:induction false} ActionKeepsCustody(c: Case, user: User, action: Action, routing: Routing, now: Time)
    requires CaseInv(c)
    ensures CustodyStays(c, Perform(c, user, action, routing, now).c)
  {
    PerformKeeps(c, user, action, routing, now);
    ActionKeepsOpening(c, user, action, routing, now);
    QuietKeepsCustody(c, Perform(c, user, action, routing, now).c);
  }

  predicate IsOtherReport(action: Action) {
    action.ReportIssue? && action.category.OtherCategory?
  }

  /** Whether a call commits a report under "other". */
  predicate ReportsOther(c: Case, user: User, action: Action, routing: Routing, now: Time) {
    IsOtherReport(action) && Perform(c, user, action, routing, now).Committed?
  }

  /** A call that raises leaves the status and the disputes alone. */
  lemma {:induction false} RaisedStays(c: Case, user: User, action: Action, routing: Routing, now: Time)
    requires CaseInv(c) && Perform(c, user, action, routing, now).Raised?
    ensures TogetherStays(c, Perform(c, user, action, routing, now).c)
  {
  }

  lemma {:induction false} ActionStays(c: Case, user: User, action: Action, routing: Routing, now: Time)
    requires CaseInv(c)
    ensures var d := Perform(c, user, action, routing, now).c;
            CustodyStays(c, d) && (!ReportsOther(c, user, action, routing, now) ==> TogetherStays(c, d))
  {
    ActionKeepsCustody(c, user, action, routing, now);
    if Perform(c, user, action, routing, now).Raised? {
      RaisedStays(c, user, action, routing, now);
    } else if EscalatedTogether(c) {
      OnlyOtherParts(c, user, action, routing, now);
    }
  }

  // ----- steps over many cases

  /** Listed once each, and each within the invariant. */
  ghost predicate Listed(cases: seq<Case>, ids: seq<TxId>) {
    && (forall j :: 0 <= j < |ids| ==> ids[j] < |cases| && CaseInv(cases[ids[j]]))
    && (forall j, k :: 0 <= j < k < |ids| ==> ids[j] < ids[k])
  }

  lemma {:induction false} BatchListed(w: World, budget: nat)
    requires Inv(w)
    ensures Listed(w.cases, PollBatch(w.cases, budget))
  {
    BatchPollable(w.cases, budget);
    forall id: TxId | id < |w.cases|
      ensures CaseInv(w.cases[id])
    {
      CaseAt(w, id);
    }
  }

  lemma {:induction false} RestListed(cases: seq<Case>, ids: seq<TxId>, c: Case)
    requires Listed(cases, ids) && ids != []
    ensures Listed(cases[ids[0] := c], ids[1..])
  {
    assert forall j :: 0 <= j < |ids[1..]| ==> ids[1..][j] == ids[j + 1] && ids[j + 1] > ids[0];
  }

  lemma {:induction false} PollAllStays(
        w: World, ids: seq<TxId>, reported: set<TxId>, now: Time, timeout: int, id: TxId)
    requires Listed(w.cases, ids) && id < |w.cases|
    ensures var r := PollAll(w, ids, reported, now, timeout);
            r.Some? ==> Stays(w.cases[id], r.value.cases[id])
    decreases |ids|
  {
    StaysReflexive(w.cases[id]);
    var r := PollAll(w, ids, reported, now, timeout);
    if ids != [] && r.Some? {
      var k := ids[0];
      var polled := Polled(k, w.cases[k], w.entries, k in reported, now, timeout);
      PollStays(k, w.cases[k], w.entries, k in reported, now, timeout);
      OneCase(w, k, polled, id);
      RestListed(w.cases, ids, polled.0);
      PollAllStays(WithCase(w, k, polled), ids[1..], reported, now, timeout, id);
      StaysTransitive(w.cases[id], WithCase(w, k, polled).cases[id], r.value.cases[id]);
    }
  }

  lemma {:induction false} SettleAllStays(w: World, claims: seq<Claim>, rail: Claim -> RailAnswer, id: TxId)
    requires InRange(w.cases, claims) && id < |w.cases|
    ensures |SettleAll(w, claims, rail).cases| == |w.cases|
    ensures Stays(w.cases[id], SettleAll(w, claims, rail).cases[id])
    decreases |claims|
  {
    if claims != [] {
      var k := claims[0];
      SettleStays(k.id, w.cases[k.id], w.entries, k.attempt, rail(k));
      SettleTouchesOne(k.id, w.cases[k.id], w.entries, k.attempt, rail(k));
      var next := WithCase(w, k.id, Settle(k.id, w.cases[k.id], w.entries, k.attempt, rail(k)));
      assert InRange(next.cases, claims[1..]);
      SettleAllStays(next, claims[1..], rail, id);
      StaysTransitive(w.cases[id], next.cases[id], SettleAll(w, claims, rail).cases[id]);
    }
  }

  // ----- any step

  /** Whether a step commits a report under "other". */
  predicate StepReportsOther(w: World, step: Step) {
    step.Act? && step.id < |w.cases| && ReportsOther(w.cases[step.id], step.user, step.action, step.routing, step.now)
  }

  lemma {:induction false} ActStays(w: World, id: TxId, user: User, action: Action, routing: Routing, now: Time,
        k: TxId)
    requires Inv(w) && k < |w.cases|
    ensures var step := Act(id, user, action, routing, now);
            && k < |Next(w, step).cases| && CustodyStays(w.cases[k], Next(w, step).cases[k])
            && (!StepReportsOther(w, step) ==> TogetherStays(w.cases[k], Next(w, step).cases[k]))
  {
    StaysReflexive(w.cases[k]);
    if id < |w.cases| {
      CaseAt(w, id);
      ActionStays(w.cases[id], user, action, routing, now);
      OneCase(w, id, (Perform(w.cases[id], user, action, routing, now).c, w.entries), k);
    }
  }

  lemma {:induction false} CustodyStepStays(w: World, step: Step, id: TxId)
    requires Inv(w) && id < |w.cases| && CustodyStep(step)
    ensures id < |Next(w, step).cases| && Stays(w.cases[id], Next(w, step).cases[id])
  {
    StaysReflexive(w.cases[id]);
    var k := step.id;
    if k < |w.cases| {
      var c := w.cases[k];
      CaseAt(w, k);
      match step
      case OpenReturns(_, answer, now) =>
        OpeningStays(c, answer, now);
        OneCase(w, k, (OpenReturned(c, answer, now), w.entries), id);
      case SendPrompt(_) =>
        OpeningStays(c, OpenUnclear, 0);
        OneCase(w, k, (PromptRequested(c), w.entries), id);
      case ResendPrompt(_, buyer, tooSoon) =>
        ResendStays(c, buyer, tooSoon);
        OneCase(w, k, (PromptResent(c, buyer, tooSoon), w.entries), id);
      case Callback(_, code, production, now) =>
        CallbackStays(k, c, w.entries, code, production, now);
        OneCase(w, k, CalledBack(k, c, w.entries, code, production, now), id);
    }
  }

  lemma {:induction false} NextStays(w: World, step: Step, id: TxId)
    requires Inv(w) && id < |w.cases|
    ensures id < |Next(w, step).cases| && CustodyStays(w.cases[id], Next(w, step).cases[id])
    ensures !StepReportsOther(w, step) ==> TogetherStays(w.cases[id], Next(w, step).cases[id])
  {
    match step
    case Poll(reported, now, timeout, budget) =>
      BatchListed(w, budget);
      PollAllStays(w, PollBatch(w.cases, budget), reported, now, timeout, id);
    case RunTimeouts(routing, now) =>
      if Sweepable(w.cases, routing, now) {
        assert SweepOne(w.cases[id], routing, now).Some?;
        CaseAt(w, id);
        SweepStays(w.cases[id], routing, now);
      }
    case RunExecutor(claims, batch, rail) =>
      if ValidClaims(w.cases, claims, batch) {
        SettleAllStays(w, claims, rail, id);
      }
    case RunReturnRepair(_, now) => RepairsFindNothing(w, now);
    case RunFundingRepair(_) =>
    case Act(k, user, action, routing, now) => ActStays(w, k, user, action, routing, now, id);
    case Create(_, _, _, _, _, _, _) => StaysReflexive(w.cases[id]);
    case _ => CustodyStepStays(w, step, id);
  }

  // ----- whole runs

  /** Custody over every run, from any moment of it to its end: a provider reference, once there, stays
      and fixes the custody; custody differs at the end only if at that moment the transaction still
      awaited payment with its opening call out and no reference. */
  lemma {:induction false} CustodyIsSticky(steps: seq<Step>, n: nat, id: TxId)
    requires n <= |steps| && id < |Run(steps[..n]).cases|
    ensures id < |Run(steps).cases|
    ensures var c, d := Run(steps[..n]).cases[id], Run(steps).cases[id];
            CustodyStays(c, d) && (d.tx.custody != c.tx.custody ==> c.tx.status.AwaitingPayment?)
    decreases |steps|
  {
    ReachedCase(steps[..n], id);
    if n == |steps| {
      assert steps[..n] == steps;
    } else {
      var before := steps[..|steps| - 1];
      assert before[..n] == steps[..n];
      CustodyIsSticky(before, n, id);
      RunsKeepInv(before);
      NextStays(Run(before), steps[|steps| - 1], id);
    }
  }

  predicate ReportsOtherAt(steps: seq<Step>, i: nat)
    requires i < |steps|
  {
    StepReportsOther(Run(steps[..i]), steps[i])
  }

  /** No step of the run commits a report under "other". */
  ghost predicate NoOtherReports(steps: seq<Step>) {
    forall i :: 0 <= i < |steps| ==> !ReportsOtherAt(steps, i)
  }

  lemma {:induction false} NoneBefore(steps: seq<Step>)
    requires steps != [] && NoOtherReports(steps)
    ensures NoOtherReports(steps[..|steps| - 1])
    ensures !StepReportsOther(Run(steps[..|steps| - 1]), steps[|steps| - 1])
  {
    var before := steps[..|steps| - 1];
    assert !ReportsOtherAt(steps, |steps| - 1);
    forall i | 0 <= i < |before|
      ensures !ReportsOtherAt(before, i)
    {
      assert before[..i] == steps[..i] && !ReportsOtherAt(steps, i);
    }
  }

  /** Without such a report every transaction and its dispute are escalated together, after any number
      of actions, decisions, sweeps, polls, executor runs and repairs. */
  lemma {:induction false} TogetherWithoutOther(steps: seq<Step>, id: TxId)
    requires NoOtherReports(steps) && id < |Run(steps).cases|
    ensures EscalatedTogether(Run(steps).cases[id])
    decreases |steps|
  {
    if steps != [] {
      var w, step := Run(steps[..|steps| - 1]), steps[|steps| - 1];
      NoneBefore(steps);
      RunsKeepInv(steps[..|steps| - 1]);
      if id < |w.cases| {
        TogetherWithoutOther(steps[..|steps| - 1], id);
      }
      StepKeepsTogether(w, step, id);
    }
  }

  lemma {:induction false} StepKeepsTogether(w: World, step: Step, id: TxId)
    requires Inv(w) && !StepReportsOther(w, step) && id < |Next(w, step).cases|
    requires id < |w.cases| ==> EscalatedTogether(w.cases[id])
    ensures EscalatedTogether(Next(w, step).cases[id])
  {
    if id < |w.cases| {
      NextStays(w, step, id);
    } else {
      NextLength(w, step);
      NewCaseTogether(w, step, id);
    }
  }

  lemma {:induction false} NewCaseTogether(w: World, step: Step, id: TxId)
    requires step.Create? && |w.cases| <= id < |Next(w, step).cases|
    ensures EscalatedTogether(Next(w, step).cases[id])
  {
  }

  lemma {:induction false} SettleAllLength(w: World, claims: seq<Claim>, rail: Claim -> RailAnswer)
    requires InRange(w.cases, claims)
    ensures |SettleAll(w, claims, rail).cases| == |w.cases|
    decreases |claims|
  {
    if claims != [] {
      var k := claims[0];
      SettleTouchesOne(k.id, w.cases[k.id], w.entries, k.attempt, rail(k));
      var next := WithCase(w, k.id, Settle(k.id, w.cases[k.id], w.entries, k.attempt, rail(k)));
      assert InRange(next.cases, claims[1..]);
      SettleAllLength(next, claims[1..], rail);
    }
  }

  /** Only creation adds a case. */
  lemma {:induction false} NextLength(w: World, step: Step)
    ensures !step.Create? ==> |Next(w, step).cases| == |w.cases|
  {
    match step
    case RunExecutor(claims, batch, rail) =>
      if ValidClaims(w.cases, claims, batch) {
        SettleAllLength(w, claims, rail);
      }
    case _ =>
  }
}
