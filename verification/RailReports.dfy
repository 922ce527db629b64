/** What the rail reports as paid, against what the marketplace books. The executor asks the rail first and
    checks the funded balance after, so the counters stay within the funding whatever the rail has done. */
module RailReports {
  import opened Domain
  import opened Payouts
  import opened Actions
  import opened Ledger
  import opened CaseInvariant
  import opened Market
  import opened MarketInvariant
  import opened MarketRuns
  import opened MarketHistory
  import opened MarketEnds

  /** The rail says that the payout succeeded. */
  predicate Confirms(a: Attempt, answer: RailAnswer) {
    var reply := ReplyTo(a, answer);
    reply.Some? && reply.value.outcome.Succeeded?
  }

  // ----- one attempt

  lemma {:induction false} PaidIsQueuedAtMost(attempts: seq<Attempt>)
    requires forall a <- attempts :: a.amount > 0
    ensures 0 <= PaidBy(attempts, Release) + PaidBy(attempts, Refund) <= Queued(attempts)
  {
    if attempts != [] {
      assert attempts[|attempts| - 1] in attempts;
      PaidIsQueuedAtMost(attempts[..|attempts| - 1]);
    }
  }

  lemma {:induction false} UndecidedIsUnpaid(attempts: seq<Attempt>, i: nat)
    requires i < |attempts| && attempts[i].outcome.Unknown? && forall a <- attempts :: a.amount > 0
    ensures PaidBy(attempts, Release) + PaidBy(attempts, Refund) + attempts[i].amount <= Queued(attempts)
  {
    var n := |attempts| - 1;
    if i == n {
      PaidIsQueuedAtMost(attempts[..n]);
    } else {
      assert attempts[n] in attempts && attempts[..n][i] == attempts[i];
      UndecidedIsUnpaid(attempts[..n], i);
    }
  }

  /** A case with attempts is decided, and every undecided payout of a funded one is covered. */
  lemma {:induction false} FundedIsCovered(id: TxId, c: Case, entries: Entries, i: nat)
    requires CaseInv(c) && MoneyOk(id, c, entries)
    requires i < |c.attempts| && c.attempts[i].outcome.Unknown?
    ensures Terminal(c.tx.status) && c.escrow.Some? && c.attempts[i].amount > 0
    ensures if FundedOf(c) > 0 then AvailableBalance(c.escrow.value) >= c.attempts[i].amount
            else AvailableBalance(c.escrow.value) == 0
  {
    PlanTotals(c);
    forall j | 0 <= j < |c.attempts|
      ensures c.attempts[j].amount > 0
    {
      AttemptPositive(c, j);
    }
    UndecidedIsUnpaid(c.attempts, i);
  }

  /** A payout the rail confirms is booked if and only if the escrow is funded. Otherwise it stays
      undecided, and the money the rail has moved is on neither the counters nor the ledger. */
  lemma {:induction false} BookedIffFunded(id: TxId, c: Case, entries: Entries, i: nat, answer: RailAnswer)
    requires Sound(entries) && CaseInv(c) && MoneyOk(id, c, entries)
    requires i < |c.attempts| && c.attempts[i].outcome.Unknown? && Confirms(c.attempts[i], answer)
    ensures var (d, after) := Settle(id, c, entries, i, answer);
            && (d.attempts[i].outcome.Succeeded? <==> FundedOf(c) > 0)
            && PaidOutOf(d) == PaidOutOf(c) + (if FundedOf(c) > 0 then c.attempts[i].amount else 0)
            && HeldBalance(after, id) ==
               HeldBalance(entries, id) - (if FundedOf(c) > 0 then c.attempts[i].amount else 0)
            && (FundedOf(c) <= 0 ==> d.attempts[i].outcome.Unknown? && after == entries)
  {
    FundedIsCovered(id, c, entries, i);
    SettleKeeps(id, c, entries, i, answer);
    if FundedOf(c) > 0 {
      var a := Answered(c.escrow.value, c.attempts[i], ReplyTo(c.attempts[i], answer).value);
      PaidKeepsMoney(id, c, entries, i, a);
    }
  }

  /** A reply that confirms nothing books nothing. */
  lemma {:induction false} UnconfirmedBooksNothing(id: TxId, c: Case, entries: Entries, i: nat, answer: RailAnswer)
    requires i < |c.attempts| && !Confirms(c.attempts[i], answer)
    ensures PaidOutOf(Settle(id, c, entries, i, answer).0) == PaidOutOf(c)
  {
  }

  // ----- one executor run

  /** The amounts of a case that the rail confirms in one executor run. */
  function ReportedBy(cases: seq<Case>, claims: seq<Claim>, rail: Claim -> RailAnswer, id: TxId): int
    requires InRange(cases, claims)
  {
    if claims == [] then 0
    else
      var k := claims[0];
      var a := cases[k.id].attempts[k.attempt];
      (if k.id == id && Confirms(a, rail(k)) then a.amount else 0) + ReportedBy(cases, claims[1..], rail, id)
  }

  lemma {:induction false} ReportedSame(was: seq<Case>, cases: seq<Case>, claims: seq<Claim>, rail: Claim -> RailAnswer,
        id: TxId)
    requires InRange(was, claims) && InRange(cases, claims)
    requires forall k <- claims :: cases[k.id].attempts[k.attempt] == was[k.id].attempts[k.attempt]
    ensures ReportedBy(cases, claims, rail, id) == ReportedBy(was, claims, rail, id)
  {
    if claims != [] {
      assert claims[0] in claims;
      ReportedSame(was, cases, claims[1..], rail, id);
    }
  }

  /** What the run does to a case's counters and reports. */
  ghost predicate Books(c: Case, d: Case, reported: int) {
    && PaidOutOf(d) == PaidOutOf(c) + (if FundedOf(c) > 0 then reported else 0)
    && reported >= 0 && (c.attempts == [] ==> reported == 0)
  }

  /** One claim of the run, on its own case. */
  lemma {:induction false} ClaimBooks(w: World, k: Claim, answer: RailAnswer, id: TxId)
    requires Inv(w) && Claimable(w.cases, k) && id < |w.cases|
    ensures var next := WithCase(w, k.id, Settle(k.id, w.cases[k.id], w.entries, k.attempt, answer));
            var a := w.cases[k.id].attempts[k.attempt];
            && Inv(next) && FundedOf(next.cases[id]) == FundedOf(w.cases[id])
            && |next.cases[id].attempts| == |w.cases[id].attempts|
            && Books(w.cases[id], next.cases[id], if k.id == id && Confirms(a, answer) then a.amount else 0)
  {
    var c := w.cases[k.id];
    CaseAt(w, k.id);
    SettleKeeps(k.id, c, w.entries, k.attempt, answer);
    WithCaseKeeps(w, k.id, Settle(k.id, c, w.entries, k.attempt, answer));
    SettleTouchesOne(k.id, c, w.entries, k.attempt, answer);
    AttemptPositive(c, k.attempt);
    if Confirms(c.attempts[k.attempt], answer) {
      BookedIffFunded(k.id, c, w.entries, k.attempt, answer);
    } else {
      UnconfirmedBooksNothing(k.id, c, w.entries, k.attempt, answer);
    }
  }

  /** The other claims still find their attempts as they were. */
  lemma {:induction false} ClaimsLeft(w: World, claims: seq<Claim>, answer: RailAnswer)
    requires claims != [] && ValidClaims(w.cases, claims, |claims|)
    ensures var k := claims[0];
            var next := WithCase(w, k.id, Settle(k.id, w.cases[k.id], w.entries, k.attempt, answer));
            && ValidClaims(next.cases, claims[1..], |claims[1..]|)
            && forall k' <- claims[1..] ::
                 next.cases[k'.id].attempts[k'.attempt] == w.cases[k'.id].attempts[k'.attempt]
  {
    var k := claims[0];
    SettleTouchesOne(k.id, w.cases[k.id], w.entries, k.attempt, answer);
    var next := WithCase(w, k.id, Settle(k.id, w.cases[k.id], w.entries, k.attempt, answer));
    forall i | 0 <= i < |claims[1..]|
      ensures Claimable(next.cases, claims[1..][i])
      ensures next.cases[claims[1..][i].id].attempts[claims[1..][i].attempt] ==
              w.cases[claims[1..][i].id].attempts[claims[1..][i].attempt]
    {
      assert claims[1..][i] == claims[i + 1] && claims[i + 1] != k;
      assert Claimable(w.cases, claims[i + 1]);
    }
  }

  lemma {:induction false} SettleAllBooks(w: World, claims: seq<Claim>, rail: Claim -> RailAnswer, id: TxId)
    requires Inv(w) && ValidClaims(w.cases, claims, |claims|) && id < |w.cases|
    ensures |SettleAll(w, claims, rail).cases| == |w.cases|
    ensures Books(w.cases[id], SettleAll(w, claims, rail).cases[id], ReportedBy(w.cases, claims, rail, id))
    decreases |claims|
  {
    if claims != [] {
      var k := claims[0];
      assert Claimable(w.cases, k);
      ClaimBooks(w, k, rail(k), id);
      ClaimsLeft(w, claims, rail(k));
      var next := WithCase(w, k.id, Settle(k.id, w.cases[k.id], w.entries, k.attempt, rail(k)));
      ReportedSame(w.cases, next.cases, claims[1..], rail, id);
      SettleAllBooks(next, claims[1..], rail, id);
    }
  }

  // ----- any step

  /** What a step makes the rail report for a case. */
  function ReportedIn(w: World, step: Step, id: TxId): int {
    if step.RunExecutor? && ValidClaims(w.cases, step.claims, step.batch) then
      ReportedBy(w.cases, step.claims, step.rail, id)
    else 0
  }

  /** Everything the rail has ever confirmed for a transaction. An inquiry that confirms a payout again
      counts again; a payout that is booked is not asked about any more. */
  function Reported(steps: seq<Step>, id: TxId): int {
    if steps == [] then 0
    else
      var before := steps[..|steps| - 1];
      Reported(before, id) + ReportedIn(Run(before), steps[|steps| - 1], id)
  }

  /** The counters are a function of the attempts. */
  lemma {:induction false} SameAttemptsSamePaid(id: TxId, c: Case, entries: Entries, d: Case, after: Entries)
    requires CaseInv(c) && MoneyOk(id, c, entries) && CaseInv(d) && MoneyOk(id, d, after) && d.attempts == c.attempts
    ensures PaidOutOf(d) == PaidOutOf(c)
  {
  }

  lemma {:induction false} StepKeepsAttempts(w: World, step: Step, id: TxId)
    requires Inv(w) && id < |w.cases| && !step.Act? && !step.RunTimeouts? && !step.RunExecutor?
    ensures id < |Next(w, step).cases| && Next(w, step).cases[id].attempts == w.cases[id].attempts
  {
    if step.Poll? {
      BatchPollable(w.cases, step.budget);
      PollAllCarries(w, PollBatch(w.cases, step.budget), step.reported, step.now, step.timeout, id);
    } else if step.RunReturnRepair? {
      RepairsFindNothing(w, step.now);
    }
  }

  lemma {:induction false} QuietPaysNothing(c: Case, d: Case)
    requires Quiet(c, d)
    ensures Books(c, d, 0)
  {
  }

  lemma {:induction false} ActBooks(w: World, step: Step, id: TxId)
    requires Inv(w) && id < |w.cases| && step.Act?
    ensures id < |Next(w, step).cases| && Books(w.cases[id], Next(w, step).cases[id], 0)
  {
    if step.id == id {
      CaseAt(w, id);
      PerformKeeps(w.cases[id], step.user, step.action, step.routing, step.now);
      QuietPaysNothing(w.cases[id], Next(w, step).cases[id]);
    }
  }

  lemma {:induction false} SweepBooks(w: World, step: Step, id: TxId)
    requires Inv(w) && id < |w.cases| && step.RunTimeouts?
    ensures id < |Next(w, step).cases| && Books(w.cases[id], Next(w, step).cases[id], 0)
  {
    var c := w.cases[id];
    if Sweepable(w.cases, step.routing, step.now) {
      assert SweepOne(c, step.routing, step.now).Some?;
      CaseAt(w, id);
      var rule := DueRule(c.tx, step.now);
      if rule.Some? {
        QueriesMirrorDeadlines(c.tx, step.now, rule.value);
        TimeoutKeeps(rule.value, c, step.routing, step.now);
        QuietPaysNothing(c, Next(w, step).cases[id]);
      }
    }
  }

  lemma {:induction false} StepBooks(w: World, step: Step, id: TxId)
    requires Inv(w) && id < |w.cases|
    ensures id < |Next(w, step).cases| && Books(w.cases[id], Next(w, step).cases[id], ReportedIn(w, step, id))
  {
    if step.RunExecutor? {
      if ValidClaims(w.cases, step.claims, step.batch) {
        SettleAllBooks(w, step.claims, step.rail, id);
      }
    } else if step.Act? {
      ActBooks(w, step, id);
    } else if step.RunTimeouts? {
      SweepBooks(w, step, id);
    } else {
      StepKeepsAttempts(w, step, id);
      NextKeeps(w, step);
      CaseAt(w, id);
      CaseAt(Next(w, step), id);
      SameAttemptsSamePaid(id, w.cases[id], w.entries, Next(w, step).cases[id], Next(w, step).entries);
    }
  }

  // ----- whole runs

  /** The counters against the reports, as a run leaves them. */
  ghost predicate BooksReports(c: Case, reported: int) {
    && reported >= 0 && PaidOutOf(c) == (if FundedOf(c) > 0 then reported else 0)
    && (Awaiting(c) ==> reported == 0)
  }

  lemma {:induction false} StepBooksReports(w: World, step: Step, id: TxId, reported: int)
    requires Inv(w) && id < |w.cases| && BooksReports(w.cases[id], reported)
    ensures id < |Next(w, step).cases| && BooksReports(Next(w, step).cases[id], reported + ReportedIn(w, step, id))
  {
    CaseAt(w, id);
    StepBooks(w, step, id);
    EveryStepOk(w, step, id);
  }

  lemma {:induction false} NewCaseUnreported(w: World, step: Step, id: TxId)
    requires |w.cases| <= id < |Next(w, step).cases|
    ensures BooksReports(Next(w, step).cases[id], 0) && ReportedIn(w, step, id) == 0
  {
    NextLength(w, step);
  }

  lemma {:induction false} UnknownUnreported(steps: seq<Step>, id: TxId)
    requires id >= |Run(steps).cases|
    ensures Reported(steps, id) == 0
    decreases |steps|
  {
    if steps != [] {
      var before, step := steps[..|steps| - 1], steps[|steps| - 1];
      NextLength(Run(before), step);
      UnknownUnreported(before, id);
      if ReportedIn(Run(before), step, id) != 0 {
        NoneReported(Run(before).cases, step.claims, step.rail, id);
      }
    }
  }

  lemma {:induction false} NoneReported(cases: seq<Case>, claims: seq<Claim>, rail: Claim -> RailAnswer, id: TxId)
    requires InRange(cases, claims) && id >= |cases|
    ensures ReportedBy(cases, claims, rail, id) == 0
  {
    if claims != [] {
      NoneReported(cases, claims[1..], rail, id);
    }
  }

  /** Over every run: what the rail confirmed for a funded transaction is exactly what the counters hold;
      for an unfunded one they hold nothing, whatever it confirmed. */
  lemma {:induction false} ReportsAreBooked(steps: seq<Step>, id: TxId)
    requires id < |Run(steps).cases|
    ensures var c := Run(steps).cases[id];
            Reported(steps, id) >= 0 && PaidOutOf(c) == if FundedOf(c) > 0 then Reported(steps, id) else 0
    ensures Awaiting(Run(steps).cases[id]) ==> Reported(steps, id) == 0
    decreases |steps|
  {
    if steps != [] {
      var before, step := steps[..|steps| - 1], steps[|steps| - 1];
      RunsKeepInv(before);
      if id < |Run(before).cases| {
        ReportsAreBooked(before, id);
        StepBooksReports(Run(before), step, id, Reported(before, id));
      } else {
        UnknownUnreported(before, id);
        NewCaseUnreported(Run(before), step, id);
      }
    }
  }

  /** The rail pays no more than was funded, by its own reports, if and only if it reported nothing or no
      production callback locked the transaction. */
  lemma {:induction false} PaysWithinFunding(steps: seq<Step>, id: TxId)
    requires id < |Run(steps).cases|
    ensures Reported(steps, id) <= FundedOf(Run(steps).cases[id]) <==>
            Reported(steps, id) == 0 || !Occurred(steps, LocksUnfunded(id))
  {
    ReachedCase(steps, id);
    ReportsAreBooked(steps, id);
    FundedUnlessProductionLocked(steps, id);
  }

  // ----- the failing input

  /** A rail that pays and gives no reference. */
  const PAYS := Available(PayoutReply(Succeeded, Option.None), Replied(PayoutReply(Succeeded, Option.None)))

  function Executor(k: Claim): Step {
    RunExecutor([k], 1, (_: Claim) => PAYS)
  }

  /** A run, and then one step n times. */
  function Then(steps: seq<Step>, step: Step, n: nat): seq<Step> {
    if n == 0 then steps else Then(steps, step, n - 1) + [step]
  }

  lemma {:induction false} RunSnoc(steps: seq<Step>, step: Step, id: TxId)
    ensures Run(steps + [step]) == Next(Run(steps), step)
    ensures Reported(steps + [step], id) == Reported(steps, id) + ReportedIn(Run(steps), step, id)
  {
    assert (steps + [step])[..|steps|] == steps;
  }

  /** A payout that waits in an unfunded case. */
  ghost predicate WaitsUnfunded(w: World, k: Claim) {
    Inv(w) && Claimable(w.cases, k) && w.cases[k.id].attempts[k.attempt].reference.None? && FundedOf(w.cases[k.id]) <= 0
  }

  /** The executor asks for it, the rail pays, and nothing at all has changed. */
  lemma {:induction false} PaysUnnoticed(w: World, k: Claim)
    requires WaitsUnfunded(w, k)
    ensures Next(w, Executor(k)) == w
    ensures ReportedIn(w, Executor(k), k.id) == w.cases[k.id].attempts[k.attempt].amount
  {
    CaseAt(w, k.id);
    SettleUnnoticed(k.id, w.cases[k.id], w.entries, k.attempt);
    ExecutorRuns(w, k);
  }

  /** An executor run of one claim. */
  lemma {:induction false} ExecutorRuns(w: World, k: Claim)
    requires Claimable(w.cases, k) && w.cases[k.id].attempts[k.attempt].reference.None?
    ensures var r := Settle(k.id, w.cases[k.id], w.entries, k.attempt, PAYS);
            && Next(w, Executor(k)) == WithCase(w, k.id, r)
            && (r == (w.cases[k.id], w.entries) ==> Next(w, Executor(k)) == w)
    ensures ReportedIn(w, Executor(k), k.id) == w.cases[k.id].attempts[k.attempt].amount
  {
    OneClaim(w, k, Executor(k).rail);
    assert w.cases[k.id := w.cases[k.id]] == w.cases;
  }

  lemma {:induction false} SettleUnnoticed(id: TxId, c: Case, entries: Entries, i: nat)
    requires CaseInv(c) && MoneyOk(id, c, entries) && FundedOf(c) <= 0
    requires i < |c.attempts| && Waiting(c.attempts[i])
    ensures Settle(id, c, entries, i, PAYS) == (c, entries)
  {
    FundedIsCovered(id, c, entries, i);
    assert c.attempts[i := c.attempts[i]] == c.attempts;
    assert WithAttempt(c, i, c.attempts[i]) == c && Refreshed(c) == c;
  }

  lemma {:induction false} OneClaim(w: World, k: Claim, rail: Claim -> RailAnswer)
    requires Claimable(w.cases, k)
    ensures ValidClaims(w.cases, [k], 1)
    ensures SettleAll(w, [k], rail) ==
            WithCase(w, k.id, Settle(k.id, w.cases[k.id], w.entries, k.attempt, rail(k)))
    ensures ReportedBy(w.cases, [k], rail, k.id) ==
            if Confirms(w.cases[k.id].attempts[k.attempt], rail(k)) then w.cases[k.id].attempts[k.attempt].amount else 0
  {
    assert [k][1..] == [];
  }

  lemma {:induction false} Linear(f: nat -> int, amount: int, n: nat)
    requires forall i: nat :: f(i + 1) == f(i) + amount
    ensures f(n) == f(0) + n * amount
  {
    if n > 0 {
      Linear(f, amount, n - 1);
      assert f(n - 1 + 1) == f(n - 1) + amount;
      assert n * amount == (n - 1) * amount + amount;
    }
  }

  lemma {:induction false} SameAgain(before: seq<Step>, step: Step, w: World)
    requires Run(before) == w && Next(w, step) == w
    ensures Run(before + [step]) == w
  {
    RunSnoc(before, step, 0);
  }

  /** A step that changes nothing, repeated. */
  lemma {:induction false} Unchanged(steps: seq<Step>, step: Step, n: nat)
    requires Next(Run(steps), step) == Run(steps)
    ensures Run(Then(steps, step, n)) == Run(steps)
  {
    if n > 0 {
      Unchanged(steps, step, n - 1);
      SameAgain(Then(steps, step, n - 1), step, Run(steps));
    }
  }

  lemma {:induction false} ReportsOnceMore(steps: seq<Step>, step: Step, id: TxId, n: nat)
    requires Next(Run(steps), step) == Run(steps)
    ensures Reported(Then(steps, step, n + 1), id) ==
            Reported(Then(steps, step, n), id) + ReportedIn(Run(steps), step, id)
  {
    Unchanged(steps, step, n);
    RunSnoc(Then(steps, step, n), step, id);
  }

  /** So every further run of the executor pays it again, however many there are. */
  lemma {:induction false} PaysAgainAndAgain(steps: seq<Step>, k: Claim, n: nat)
    requires WaitsUnfunded(Run(steps), k)
    ensures var amount := Run(steps).cases[k.id].attempts[k.attempt].amount;
            && Run(Then(steps, Executor(k), n)) == Run(steps)
            && Reported(Then(steps, Executor(k), n), k.id) == Reported(steps, k.id) + n * amount
  {
    var amount := Run(steps).cases[k.id].attempts[k.attempt].amount;
    PaysUnnoticed(Run(steps), k);
    Unchanged(steps, Executor(k), n);
    var f := (i: nat) => Reported(Then(steps, Executor(k), i), k.id);
    forall i: nat
      ensures f(i + 1) == f(i) + amount
    {
      ReportsOnceMore(steps, Executor(k), k.id, i);
    }
    Linear(f, amount, n);
  }

  /** A sale in production: created, locked by the callback, delivered and confirmed at the door. */
  function Sale(buyer: UserId, seller: UserId, price: int, routing: Routing): seq<Step> {
    var b, s := User(buyer, Buyer), User(seller, Seller);
    [Create(b, seller, OnSale, price, Option.None, false, 0), Callback(0, 0, true, 0),
     Act(0, s, Dispatch, routing, 0), Act(0, s, Arrive, routing, 0),
     Act(0, b, ConfirmOtp(true, false, true), routing, 0)]
  }

  lemma {:induction false} RunOfOne(step: Step)
    ensures Run([step]) == Next(EMPTY, step)
  {
    RunSnoc([], step, 0);
    assert [] + [step] == [step];
  }

  lemma {:induction false} SaleLocks(buyer: UserId, seller: UserId, price: int, routing: Routing)
    requires buyer != seller && price > 0
    ensures Run(Sale(buyer, seller, price, routing)[..2]) ==
            World([LockedNow(NewCase(price, buyer, seller, false, 0), 0)], [])
  {
    var steps := Sale(buyer, seller, price, routing);
    assert steps[..1] == [steps[0]] && steps[..2] == steps[..1] + [steps[1]];
    RunOfOne(steps[0]);
    RunSnoc(steps[..1], steps[1], 0);
    var c := NewCase(price, buyer, seller, false, 0);
    assert [] + [c] == [c] && [c][0 := LockedNow(c, 0)] == [LockedNow(c, 0)];
  }

  lemma {:induction false} ActSnoc(steps: seq<Step>, c: Case, user: User, action: Action, routing: Routing)
    requires Run(steps) == World([c], [])
    ensures Run(steps + [Act(0, user, action, routing, 0)]) == World([Perform(c, user, action, routing, 0).c], [])
  {
    var d := Perform(c, user, action, routing, 0).c;
    RunSnoc(steps, Act(0, user, action, routing, 0), 0);
    assert [c][0 := d] == [d];
  }

  /** The case of the sale once it is delivered. */
  function Delivered(buyer: UserId, seller: UserId, price: int, routing: Routing): Case {
    var b, s := User(buyer, Buyer), User(seller, Seller);
    var out := Perform(LockedNow(NewCase(price, buyer, seller, false, 0), 0), s, Dispatch, routing, 0).c;
    Perform(Perform(out, s, Arrive, routing, 0).c, b, ConfirmOtp(true, false, true), routing, 0).c
  }

  /** It is released, its payout waits, and nothing is funded. */
  lemma {:induction false} DeliveredUnfunded(buyer: UserId, seller: UserId, price: int, routing: Routing)
    requires buyer != seller && price > 0 && routing.noPhone == {} && routing.defaultRail.Some?
    ensures var d := Delivered(buyer, seller, price, routing);
            d.tx.status.Released? && FundedOf(d) == 0 && |d.attempts| == 1 && Waiting(d.attempts[0])
            && d.attempts[0].amount == price
  {
    var door := Perform(Perform(LockedNow(NewCase(price, buyer, seller, false, 0), 0), User(seller, Seller), Dispatch,
                                routing, 0).c, User(seller, Seller), Arrive, routing, 0).c;
    assert door.tx.status.AtDoorPendingInspection? && !Exists(door.attempts, TxRelease);
  }

  lemma {:induction false} SaleRuns(steps: seq<Step>, buyer: UserId, seller: UserId, price: int, routing: Routing)
    requires buyer != seller && price > 0 && steps == Sale(buyer, seller, price, routing)
    ensures Run(steps) == World([Delivered(buyer, seller, price, routing)], [])
  {
    var b, s := User(buyer, Buyer), User(seller, Seller);
    var c := LockedNow(NewCase(price, buyer, seller, false, 0), 0);
    SaleLocks(buyer, seller, price, routing);
    ActSnoc(steps[..2], c, s, Dispatch, routing);
    assert steps[..3] == steps[..2] + [steps[2]];
    var out := Perform(c, s, Dispatch, routing, 0).c;
    ActSnoc(steps[..3], out, s, Arrive, routing);
    assert steps[..4] == steps[..3] + [steps[3]];
    ActSnoc(steps[..4], Perform(out, s, Arrive, routing, 0).c, b, ConfirmOtp(true, false, true), routing);
    assert steps == steps[..4] + [steps[4]];
  }

  lemma {:induction false} SaleWaitsUnfunded(
        steps: seq<Step>, buyer: UserId, seller: UserId, price: int, routing: Routing)
    requires buyer != seller && price > 0 && routing.noPhone == {} && routing.defaultRail.Some?
    requires steps == Sale(buyer, seller, price, routing)
    ensures var w := Run(steps);
            |w.cases| == 1 && WaitsUnfunded(w, Claim(0, 0)) && w.cases[0].attempts[0].amount == price
  {
    RunsKeepInv(steps);
    SaleRuns(steps, buyer, seller, price, routing);
    DeliveredUnfunded(buyer, seller, price, routing);
  }

  lemma {:induction false} PaidManyTimes(steps: seq<Step>, k: Claim, n: nat)
    requires WaitsUnfunded(Run(steps), k) && Reported(steps, k.id) == 0
    ensures var after := Then(steps, Executor(k), n);
            && Run(after) == Run(steps)
            && Reported(after, k.id) == n * Run(steps).cases[k.id].attempts[k.attempt].amount
            && FundedOf(Run(after).cases[k.id]) == PaidOutOf(Run(after).cases[k.id]) == 0
  {
    PaysAgainAndAgain(steps, k, n);
    CaseAt(Run(steps), k.id);
  }

  /** A sale locked by a production callback can be paid any number of times: with a rail that gives no
      reference, n runs of the executor pay n times the price, and nothing is ever booked. */
  lemma {:induction false} UnfundedSalePaidManyTimes(
        buyer: UserId, seller: UserId, price: int, routing: Routing, n: nat)
    requires buyer != seller && price > 0 && routing.noPhone == {} && routing.defaultRail.Some?
    ensures var steps := Then(Sale(buyer, seller, price, routing), Executor(Claim(0, 0)), n);
            && |Run(steps).cases| == 1 && Reported(steps, 0) == n * price
            && FundedOf(Run(steps).cases[0]) == PaidOutOf(Run(steps).cases[0]) == 0
  {
    SaleWaitsUnfunded(Sale(buyer, seller, price, routing), buyer, seller, price, routing);
    NothingReported(Sale(buyer, seller, price, routing), 0);
    PaidManyTimes(Sale(buyer, seller, price, routing), Claim(0, 0), n);
  }

  /** Without an executor run nothing is reported. */
  lemma {:induction false} NothingReported(steps: seq<Step>, id: TxId)
    requires forall step <- steps :: !step.RunExecutor?
    ensures Reported(steps, id) == 0
  {
    if steps != [] {
      assert steps[|steps| - 1] in steps;
      NothingReported(steps[..|steps| - 1], id);
    }
  }
}
