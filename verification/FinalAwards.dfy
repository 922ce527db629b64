/** Which step decided a case, and that its money goes where that step said, over every run. */
module FinalAwards {
  import opened Domain
  import opened Payouts
  import opened Actions
  import opened CaseInvariant
  import opened Market
  import opened MarketInvariant
  import opened MarketRuns
  import opened MarketHistory
  import opened MarketEnds
  import opened Outcomes
  import Rounding

  /** The parties and the amount stay, payouts stay right, and the case ends exactly as the step says. */
  predicate AsSaid(c: Case, d: Case, said: Option<Status>) {
    && SameParties(c, d) && (RightPayouts(c) ==> RightPayouts(d))
    && (if Terminal(c.tx.status) then d.tx.status == c.tx.status && said.None?
        else if said.Some? then d.tx.status == said.value && Terminal(said.value)
        else !Terminal(d.tx.status))
  }

  lemma {:induction false} FinalIsNotAdmitted(c: Case, user: User, action: Action, routing: Routing)
    requires Terminal(c.tx.status)
    ensures !Admitted(c, user, action, routing)
  {
  }

  lemma {:induction false} TablePaysRight(c: Case, action: Action, routing: Routing, now: Time)
    requires CaseInv(c) && !Terminal(c.tx.status) && InputsOk(c, action) && c.tx.status in StartsFrom(action)
    ensures RightPayouts(ByTable(c, action, routing, now))
  {
  }

  lemma {:induction false} ActionAsSaid(c: Case, user: User, action: Action, routing: Routing, now: Time)
    requires CaseInv(c)
    ensures var d := Perform(c, user, action, routing, now).c;
            var said := if Admitted(c, user, action, routing) && AwardOf(action, c.tx.amount).Some?
                        then Some(EndsIn(action, Rejections(c))) else None;
            AsSaid(c, d, said)
  {
    PerformFollows(c, user, action, routing, now);
    if Terminal(c.tx.status) {
      FinalIsNotAdmitted(c, user, action, routing);
    } else if Admitted(c, user, action, routing) {
      TablePaysRight(c, action, routing, now);
      AwardSums(c, action);
    }
  }

  lemma {:induction false} TimeoutPaysRight(c: Case, routing: Routing, now: Time)
    requires CaseInv(c) && TimedOut(c.tx, now)
    ensures RightPayouts(TimeoutByTable(c, TimeoutRule(c.tx.status).value, routing, now))
  {
  }

  lemma {:induction false} SweepAsSaid(c: Case, routing: Routing, now: Time)
    requires CaseInv(c) && SweepOne(c, routing, now).Some?
    ensures var said := if TimedOut(c.tx, now) && TimeoutAward(TimeoutRule(c.tx.status).value, c.tx.amount).Some?
                        then Some(TimeoutEndsIn(TimeoutRule(c.tx.status).value)) else None;
            AsSaid(c, SweepOne(c, routing, now).value, said)
  {
    SweepFollows(c, routing, now);
    if TimedOut(c.tx, now) {
      TimeoutPaysRight(c, routing, now);
    }
  }

  predicate StepAsSaid(w: World, step: Step, id: TxId)
    requires id < |w.cases|
  {
    id < |Next(w, step).cases| && AsSaid(w.cases[id], Next(w, step).cases[id], Said(w, step, id))
  }

  lemma {:induction false} ActAsSaid(w: World, step: Step, id: TxId)
    requires Inv(w) && id < |w.cases| && step.Act?
    ensures StepAsSaid(w, step, id)
  {
    if step.id == id {
      CaseAt(w, id);
      ActionAsSaid(w.cases[id], step.user, step.action, step.routing, step.now);
    }
  }

  lemma {:induction false} SweepStepAsSaid(w: World, step: Step, id: TxId)
    requires Inv(w) && id < |w.cases| && step.RunTimeouts?
    ensures StepAsSaid(w, step, id)
  {
    if Sweepable(w.cases, step.routing, step.now) {
      assert SweepOne(w.cases[id], step.routing, step.now).Some?;
      CaseAt(w, id);
      SweepAsSaid(w.cases[id], step.routing, step.now);
    }
  }

  lemma {:induction false} CallbackAsSaid(w: World, step: Step, id: TxId)
    requires Inv(w) && id < |w.cases| && step.Callback?
    ensures StepAsSaid(w, step, id)
  {
    if step.id == id {
      CaseAt(w, id);
      CallbackCarries(id, w.cases[id], w.entries, step.resultCode, step.production, step.now);
    }
  }

  lemma {:induction false} EveryStepAsSaid(w: World, step: Step, id: TxId)
    requires Inv(w) && id < |w.cases|
    ensures StepAsSaid(w, step, id)
  {
    if step.Callback? {
      CallbackAsSaid(w, step, id);
    } else if step.RunTimeouts? {
      SweepStepAsSaid(w, step, id);
    } else if step.Act? {
      ActAsSaid(w, step, id);
    } else {
      StepCarries(w, step, id);
    }
  }

  // ----- whole runs

  predicate EndedAs(c: Case, s: Status, happened: bool) {
    c.tx.status == s <==> happened
  }

  lemma {:induction false} StepEndsAs(w: World, step: Step, id: TxId, s: Status, happened: bool)
    requires Inv(w) && id < |Next(w, step).cases| && Terminal(s)
    requires if id < |w.cases| then EndedAs(w.cases[id], s, happened) else !happened
    ensures EndedAs(Next(w, step).cases[id], s, happened || Occurs(EndsAs(id, s), w, step))
  {
    if id < |w.cases| {
      EveryStepAsSaid(w, step, id);
    } else {
      NewCaseAwaits(w, step, id);
    }
  }

  /** A case is in a final state if and only if some step of the run ended it there: a committed call or a
      timeout that, by the tables, leads to that state. */
  lemma {:induction false} FinalStateTraced(steps: seq<Step>, id: TxId, s: Status)
    requires id < |Run(steps).cases| && Terminal(s)
    ensures Run(steps).cases[id].tx.status == s <==> Occurred(steps, EndsAs(id, s))
    decreases |steps|
  {
    if steps != [] {
      var before := steps[..|steps| - 1];
      RunsKeepInv(before);
      if id < |Run(before).cases| {
        FinalStateTraced(before, id, s);
      } else {
        NotYet(before, EndsAs(id, s));
      }
      StepEndsAs(Run(before), steps[|steps| - 1], id, s, Occurred(before, EndsAs(id, s)));
    }
  }

  /** At step i an admin's decision on the case commits. */
  predicate DecisionAt(steps: seq<Step>, i: nat, id: TxId, decision: Decision)
    requires i < |steps|
  {
    var w, step := Run(steps[..i]), steps[i];
    && id < |w.cases| && step.Act? && step.id == id && step.action.ForceResolve? && step.action.decision == decision
    && Perform(w.cases[id], step.user, step.action, step.routing, step.now).Committed?
  }

  /** A case is resolved by refund if and only if an admin ordered a refund, and by split if and only if an
      admin ordered one. */
  lemma {:induction false} RefundedIffOrdered(steps: seq<Step>, id: TxId)
    requires id < |Run(steps).cases|
    ensures Run(steps).cases[id].tx.status.ResolvedRefund? <==>
            exists i :: 0 <= i < |steps| && DecisionAt(steps, i, id, DecideRefund)
    ensures Run(steps).cases[id].tx.status.ResolvedSplit? <==>
            exists i :: 0 <= i < |steps| && DecisionAt(steps, i, id, DecideSplit)
  {
    FinalStateTraced(steps, id, ResolvedRefund);
    FinalStateTraced(steps, id, ResolvedSplit);
    OccurredIs(steps, EndsAs(id, ResolvedRefund));
    OccurredIs(steps, EndsAs(id, ResolvedSplit));
    forall i | 0 <= i < |steps|
      ensures OccursAt(steps, i, EndsAs(id, ResolvedRefund)) <==> DecisionAt(steps, i, id, DecideRefund)
      ensures OccursAt(steps, i, EndsAs(id, ResolvedSplit)) <==> DecisionAt(steps, i, id, DecideSplit)
    {
      RunsKeepInv(steps[..i]);
      DecisionIsSaid(Run(steps[..i]), steps[i], id);
    }
  }

  lemma {:induction false} DecisionIsSaid(w: World, step: Step, id: TxId)
    requires Inv(w)
    ensures var decided := id < |w.cases| && step.Act? && step.id == id && step.action.ForceResolve? &&
                           Perform(w.cases[id], step.user, step.action, step.routing, step.now).Committed?;
            && (Occurs(EndsAs(id, ResolvedRefund), w, step) <==> decided && step.action.decision.DecideRefund?)
            && (Occurs(EndsAs(id, ResolvedSplit), w, step) <==> decided && step.action.decision.DecideSplit?)
  {
    if id < |w.cases| && step.Act? && step.id == id {
      CaseAt(w, id);
      ActIsSaid(w, step, id);
      EndsByDecision(w.cases[id], step.action);
    } else if id < |w.cases| && step.RunTimeouts? {
      assert !Occurs(EndsAs(id, ResolvedRefund), w, step) && !Occurs(EndsAs(id, ResolvedSplit), w, step);
    }
  }

  /** Only the admin's own decisions lead to the two states. */
  lemma {:induction false} EndsByDecision(c: Case, action: Action)
    ensures EndsIn(action, Rejections(c)).ResolvedRefund? <==> action.ForceResolve? && action.decision.DecideRefund?
    ensures EndsIn(action, Rejections(c)).ResolvedSplit? <==> action.ForceResolve? && action.decision.DecideSplit?
    ensures action.ForceResolve? ==> AwardOf(action, c.tx.amount).Some?
  {
  }

  lemma {:induction false} ActIsSaid(w: World, step: Step, id: TxId)
    requires id < |w.cases| && step.Act? && step.id == id && CaseInv(w.cases[id])
    ensures var c := w.cases[id];
            Said(w, step, id) ==
            if Perform(c, step.user, step.action, step.routing, step.now).Committed? &&
               AwardOf(step.action, c.tx.amount).Some? then Some(EndsIn(step.action, Rejections(c))) else None
  {
    PerformFollows(w.cases[id], step.user, step.action, step.routing, step.now);
  }

  /** The parties of a sale and its amount never change, and every queued payout goes to the party its
      direction names, in the share that was decided. */
  lemma {:induction false} PayoutsStayRight(steps: seq<Step>, n: nat, id: TxId)
    requires n <= |steps| && id < |Run(steps[..n]).cases|
    ensures id < |Run(steps).cases|
    ensures SameParties(Run(steps[..n]).cases[id], Run(steps).cases[id])
    ensures RightPayouts(Run(steps[..n]).cases[id]) ==> RightPayouts(Run(steps).cases[id])
    decreases |steps|
  {
    if n == |steps| {
      assert steps[..n] == steps;
    } else {
      var before := steps[..|steps| - 1];
      assert before[..n] == steps[..n];
      PayoutsStayRight(before, n, id);
      RunsKeepInv(before);
      EveryStepAsSaid(Run(before), steps[|steps| - 1], id);
    }
  }

  lemma {:induction false} PayoutsAreRight(steps: seq<Step>, id: TxId)
    requires id < |Run(steps).cases|
    ensures RightPayouts(Run(steps).cases[id])
    decreases |steps|
  {
    if steps != [] {
      var before := steps[..|steps| - 1];
      RunsKeepInv(before);
      if id < |Run(before).cases| {
        PayoutsAreRight(before, id);
        EveryStepAsSaid(Run(before), steps[|steps| - 1], id);
      } else {
        NewCasePaysNothing(Run(before), steps[|steps| - 1], id);
      }
    }
  }

  lemma {:induction false} NewCasePaysNothing(w: World, step: Step, id: TxId)
    requires |w.cases| <= id < |Next(w, step).cases|
    ensures RightPayouts(Next(w, step).cases[id])
  {
    NextLength(w, step);
  }

  /** What each final state pays, in every reachable state: all to the seller, all to the buyer, or to the
      seller the recorded share, rounded half to even, and to the buyer the rest. */
  lemma {:induction false} FinalStatesPay(steps: seq<Step>, id: TxId)
    requires id < |Run(steps).cases|
    ensures var c := Run(steps).cases[id];
            var seller, buyer := PaidTo(c.attempts, c.tx.seller), PaidTo(c.attempts, c.tx.buyer);
            match c.tx.status
            case Released => seller == c.tx.amount && buyer == 0
            case ResolvedRelease => seller == c.tx.amount && buyer == 0
            case RefundedBuyer => seller == 0 && buyer == c.tx.amount
            case ResolvedRefund => seller == 0 && buyer == c.tx.amount
            case ResolvedSplit =>
              && |c.disputes| == 1 && c.disputes[0].splitRatio.Some?
              && seller == Rounding.RoundHalfEven(c.tx.amount * c.disputes[0].splitRatio.value, 10000)
              && buyer == c.tx.amount - seller
            case _ => seller == 0 && buyer == 0
  {
    var c := Run(steps).cases[id];
    ReachedCase(steps, id);
    PayoutsAreRight(steps, id);
    RightPayoutsPay(c);
  }

  lemma {:induction false} RightPayoutsPay(c: Case)
    requires CaseInv(c) && RightPayouts(c)
    ensures var seller, buyer := PaidTo(c.attempts, c.tx.seller), PaidTo(c.attempts, c.tx.buyer);
            && (c.tx.status in {Released, ResolvedRelease} ==> seller == c.tx.amount && buyer == 0)
            && (c.tx.status in {RefundedBuyer, ResolvedRefund} ==> seller == 0 && buyer == c.tx.amount)
            && (c.tx.status.ResolvedSplit? ==> seller == c.attempts[0].amount && buyer == c.tx.amount - seller)
            && (!Terminal(c.tx.status) ==> seller == 0 && buyer == 0)
  {
    assert |c.attempts| <= 2;
    PaidToIs(c.attempts, c.tx.seller);
    PaidToIs(c.attempts, c.tx.buyer);
  }
}
