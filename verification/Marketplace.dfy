/** The services as they run: one method each, assigning rows step by step, recording transitions,
    and committing or rolling back. Each is proved to be one step (or, for creation, the steps) of
    Market. */
module Marketplaces {
  import opened Domain
  import opened Payouts
  import opened Actions
  import opened Ledger
  import opened Market
  import opened MarketInvariant
  import opened MarketRuns
  import Outcomes
  import Claims
  import opened Rounding

  /** The error a call ends in, if any. */
  function Why(r: ActionResult): Option<Refusal> {
    if r.Raised? then Some(r.why) else None
  }

  /** A poll run's counts. */
  datatype PollCounts = PollCounts(polled: nat, funded: nat, skipped: nat)

  function PollCountsOf(cases: seq<Case>, ids: seq<TxId>, reported: set<TxId>, now: Time, timeout: int): PollCounts
    requires forall j :: 0 <= j < |ids| ==> ids[j] < |cases| && cases[ids[j]].escrow.Some?
  {
    if ids == [] then PollCounts(0, 0, 0)
    else
      var id, before := ids[|ids| - 1], PollCountsOf(cases, ids[..|ids| - 1], reported, now, timeout);
      if cases[id].escrow.value.createdAt < now - timeout then before.(skipped := before.skipped + 1)
      else before.(polled := before.polled + 1, funded := before.funded + if id in reported then 1 else 0)
  }

  /** What polling one escrow came to. */
  datatype PollAnswer = TimedOut | NotFundedYet | PollFunded | PollRaised

  function PollAnswerOf(id: TxId, c: Case, entries: Entries, reported: bool, now: Time, timeout: int): PollAnswer
    requires c.escrow.Some?
  {
    if c.escrow.value.createdAt < now - timeout then TimedOut
    else if PollRaises(id, c, entries, reported, now, timeout) then PollRaised
    else if reported then PollFunded else NotFundedYet
  }

  function AddPolled(counts: PollCounts, answer: PollAnswer): PollCounts {
    match answer
    case TimedOut => counts.(skipped := counts.skipped + 1)
    case NotFundedYet => counts.(polled := counts.polled + 1)
    case PollFunded => counts.(polled := counts.polled + 1, funded := counts.funded + 1)
    case PollRaised => counts
  }

  /** Listed escrows that are, or are not, older than the payment window, all of them or only the reported. */
  function Polls(cases: seq<Case>, ids: seq<TxId>, late: bool, among: set<TxId>, now: Time, timeout: int): nat
    requires forall j :: 0 <= j < |ids| ==> ids[j] < |cases| && cases[ids[j]].escrow.Some?
  {
    if ids == [] then 0
    else
      var id := ids[|ids| - 1];
      Polls(cases, ids[..|ids| - 1], late, among, now, timeout) +
      if id in among && (cases[id].escrow.value.createdAt + timeout < now <==> late) then 1 else 0
  }

  lemma {:induction false} PollCountsAre(cases: seq<Case>, ids: seq<TxId>, reported: set<TxId>, now: Time, timeout: int)
    requires forall j :: 0 <= j < |ids| ==> ids[j] < |cases| && cases[ids[j]].escrow.Some?
    ensures var all := set id | id in ids;
            PollCountsOf(cases, ids, reported, now, timeout) ==
            PollCounts(Polls(cases, ids, false, all, now, timeout), Polls(cases, ids, false, reported, now, timeout),
                       Polls(cases, ids, true, all, now, timeout))
  {
    PolledAmong(cases, ids, reported, (set id | id in ids), now, timeout);
  }

  lemma {:induction false} PolledAmong(cases: seq<Case>, ids: seq<TxId>, reported: set<TxId>, all: set<TxId>, now: Time,
        timeout: int)
    requires forall j :: 0 <= j < |ids| ==> ids[j] < |cases| && cases[ids[j]].escrow.Some? && ids[j] in all
    ensures PollCountsOf(cases, ids, reported, now, timeout) ==
            PollCounts(Polls(cases, ids, false, all, now, timeout), Polls(cases, ids, false, reported, now, timeout),
                       Polls(cases, ids, true, all, now, timeout))
  {
    if ids != [] {
      PolledAmong(cases, ids[..|ids| - 1], reported, all, now, timeout);
    }
  }

  lemma {:induction false} PollCountsStep(cases: seq<Case>, ids: seq<TxId>, reported: set<TxId>, now: Time,
        timeout: int, i: nat)
    requires forall j :: 0 <= j < |ids| ==> ids[j] < |cases| && cases[ids[j]].escrow.Some?
    requires i < |ids|
    ensures var before := PollCountsOf(cases, ids[..i], reported, now, timeout);
            PollCountsOf(cases, ids[..i + 1], reported, now, timeout) ==
            if cases[ids[i]].escrow.value.createdAt < now - timeout then before.(skipped := before.skipped + 1)
            else before.(polled := before.polled + 1, funded := before.funded + if ids[i] in reported then 1 else 0)
  {
    assert ids[..i + 1][..i] == ids[..i];
  }

  lemma {:induction false} PollAllStep(w: World, ids: seq<TxId>, reported: set<TxId>, now: Time, timeout: int, i: nat)
    requires i < |ids| && forall j :: 0 <= j < |ids| ==> ids[j] < |w.cases|
    ensures var id := ids[i];
            PollAll(w, ids[i..], reported, now, timeout) ==
            if PollRaises(id, w.cases[id], w.entries, id in reported, now, timeout) then None
            else PollAll(WithCase(w, id, Polled(id, w.cases[id], w.entries, id in reported, now, timeout)),
                         ids[i + 1..], reported, now, timeout)
  {
    assert ids[i..][0] == ids[i] && ids[i..][1..] == ids[i + 1..];
  }

  /** The cases from a position of the list on are as they were. */
  ghost predicate FromHere(before: seq<Case>, cases: seq<Case>, ids: seq<TxId>, i: nat) {
    forall j :: i <= j < |ids| ==> ids[j] < |before| && ids[j] < |cases| && cases[ids[j]] == before[ids[j]]
  }

  lemma {:induction false} StillUntouched(before: seq<Case>, was: seq<Case>, cases: seq<Case>, ids: seq<TxId>, i: nat)
    requires FromHere(before, was, ids, i) && i < |ids| && |cases| == |was|
    requires forall j, k :: 0 <= j < k < |ids| ==> ids[j] < ids[k]
    requires forall id :: 0 <= id < |was| && id != ids[i] ==> cases[id] == was[id]
    ensures FromHere(before, cases, ids, i + 1)
  {
  }

  /** A poll run after its first i escrows: what is still to come leads to the goal, and those are counted. */
  ghost predicate PolledSoFar(before: seq<Case>, goal: Option<World>, w: World, ids: seq<TxId>, reported: set<TxId>,
        now: Time, timeout: int, i: nat, counts: PollCounts)
  {
    && i <= |ids| && PollOk(before, ids) && |w.cases| == |before| && FromHere(before, w.cases, ids, i)
    && counts == PollCountsOf(before, ids[..i], reported, now, timeout)
    && PollAll(w, ids[i..], reported, now, timeout) == goal
  }

  lemma {:induction false} PollGoesOn(before: seq<Case>, goal: Option<World>, w: World, ids: seq<TxId>,
        reported: set<TxId>, now: Time, timeout: int, i: nat, counts: PollCounts)
    requires PolledSoFar(before, goal, w, ids, reported, now, timeout, i, counts) && i < |ids|
    ensures ids[i] < |w.cases| && w.cases[ids[i]].escrow.Some?
    ensures var id := ids[i];
            var answer := PollAnswerOf(id, w.cases[id], w.entries, id in reported, now, timeout);
            var next := WithCase(w, id, Polled(id, w.cases[id], w.entries, id in reported, now, timeout));
            if answer.PollRaised? then goal.None?
            else PolledSoFar(before, goal, next, ids, reported, now, timeout, i + 1, AddPolled(counts, answer))
  {
    var id := ids[i];
    var next := WithCase(w, id, Polled(id, w.cases[id], w.entries, id in reported, now, timeout));
    PollAllStep(w, ids, reported, now, timeout, i);
    PollCountsStep(before, ids, reported, now, timeout, i);
    StillUntouched(before, w.cases, next.cases, ids, i);
  }

  /** What asking for another payment prompt answers. */
  function ResendAnswer(w: World, id: TxId, buyer: UserId, tooSoon: bool, fails: bool): Option<Refusal> {
    if id >= |w.cases| || w.cases[id].tx.buyer != buyer then Some(NotFound)
    else if !w.cases[id].tx.status.AwaitingPayment? then Some(InvalidState)
    else if tooSoon then Some(TooSoon)
    else if w.cases[id].tx.custody.Econfirm? && !ReadyForPrompt(w.cases[id]) then Some(InvalidState)
    else if fails then Some(PaymentNotStarted)
    else None
  }

  /** Each answer by what it means: too soon only for the buyer's own unpaid sale; refused as a wrong state once
      it is paid, or while its eConfirm escrow is unopened or flagged; sent otherwise. */
  lemma {:induction false} ResendAnswersAre(w: World, id: TxId, buyer: UserId, tooSoon: bool, fails: bool)
    ensures var r := ResendAnswer(w, id, buyer, tooSoon, fails);
            var own := id < |w.cases| && w.cases[id].tx.buyer == buyer;
            var unpaid := own && w.cases[id].tx.status == AwaitingPayment;
            var onHold := own && w.cases[id].tx.custody == Econfirm
                          && (w.cases[id].escrow.None? || w.cases[id].escrow.value.custody == Simulated
                              || w.cases[id].escrow.value.reference.None?
                              || w.cases[id].escrow.value.needsReconciliation);
            && (r == Some(NotFound) <==> !own)
            && (r == Some(TooSoon) <==> unpaid && tooSoon)
            && (r == Some(InvalidState) <==> own && (!unpaid || (!tooSoon && onHold)))
            && (r == Some(PaymentNotStarted) <==> unpaid && !tooSoon && !onHold && fails)
            && (r == None <==> unpaid && !tooSoon && !onHold && !fails)
  {
  }

  /** A sale's payment fails to start on eConfirm when the opening is unclear or the prompt rejected, and
      through the gateway, on simulated custody or after a rejected opening, when that fails. */
  lemma {:induction false} PaymentFailsWhen(econfirm: bool, answer: OpenAnswer, promptRejected: bool,
        gatewayFails: bool)
    ensures PaymentFails(econfirm, answer, promptRejected, gatewayFails) <==>
            || (econfirm && answer == OpenUnclear)
            || (econfirm && answer.Opened? && promptRejected)
            || ((!econfirm || answer == OpenRejected) && gatewayFails)
  {
  }

  /** What posting an escrow's funding came to. */
  datatype FundingAnswer = NothingPosted | FundingPosted | FundingRefused

  function FundingAnswerOf(id: TxId, c: Case, entries: Entries, key: Key): FundingAnswer
    requires c.escrow.Some?
  {
    if c.escrow.value.total - c.escrow.value.funded <= 0 then NothingPosted
    else match PostOutcome(entries, FundingMovement(id, c.escrow.value, key))
      case Posted => FundingPosted
      case Replayed => NothingPosted
      case Refused(_) => FundingRefused
  }

  /** How a payment callback is answered. */
  datatype CallbackAnswer =
    | TransactionMissing | EconfirmIgnored | NotSuccessful | Duplicate | WrongState | CallbackRaised | MovedToLocked

  function CallbackAnswerOf(w: World, id: TxId, resultCode: int, production: bool, now: Time): CallbackAnswer {
    if id >= |w.cases| then TransactionMissing
    else
      var c := w.cases[id];
      if c.tx.custody.Econfirm? then EconfirmIgnored
      else if resultCode != 0 then NotSuccessful
      else if c.tx.status.Locked? then Duplicate
      else if !c.tx.status.AwaitingPayment? then WrongState
      else if CallbackRaises(id, c, w.entries, resultCode, production, now) then CallbackRaised
      else MovedToLocked
  }

  /** An executor run's counts. */
  datatype Tally = Tally(processed: nat, succeeded: nat, failed: nat, unknown: nat)

  /** How the claimed attempts stand, outcome by outcome. */
  function TallyOf(cases: seq<Case>, claims: seq<Claim>): Tally
    requires InRange(cases, claims)
  {
    if claims == [] then Tally(0, 0, 0, 0)
    else
      var k := claims[|claims| - 1];
      Counted(TallyOf(cases, claims[..|claims| - 1]), cases[k.id].attempts[k.attempt].outcome)
  }

  function Counted(t: Tally, outcome: Outcome): Tally {
    var more := t.(processed := t.processed + 1);
    match outcome
    case Succeeded => more.(succeeded := t.succeeded + 1)
    case FailedDefinite => more.(failed := t.failed + 1)
    case Unknown => more.(unknown := t.unknown + 1)
  }

  function Having(cases: seq<Case>, claims: seq<Claim>, outcome: Outcome): nat
    requires InRange(cases, claims)
  {
    if claims == [] then 0
    else
      var k := claims[|claims| - 1];
      Having(cases, claims[..|claims| - 1], outcome) +
      if cases[k.id].attempts[k.attempt].outcome == outcome then 1 else 0
  }

  lemma {:induction false} TallyIs(cases: seq<Case>, claims: seq<Claim>)
    requires InRange(cases, claims)
    ensures TallyOf(cases, claims) ==
            Tally(|claims|, Having(cases, claims, Succeeded), Having(cases, claims, FailedDefinite),
                  Having(cases, claims, Unknown))
  {
    if claims != [] {
      TallyIs(cases, claims[..|claims| - 1]);
    }
  }

  /** A callback's answer, by what it finds: another custody, a failure, a sale locked already or further on,
      or one it locks. */
  lemma {:induction false} CallbackAnswersAre(w: World, id: TxId, code: int, production: bool, now: Time)
    requires Inv(w)
    ensures CallbackAnswerOf(w, id, code, production, now) ==
            if id >= |w.cases| then TransactionMissing
            else if w.cases[id].tx.custody == Econfirm then EconfirmIgnored
            else if code != 0 then NotSuccessful
            else if w.cases[id].tx.status == Locked then Duplicate
            else if w.cases[id].tx.status != AwaitingPayment then WrongState
            else MovedToLocked
  {
    if id < |w.cases| {
      CaseAt(w, id);
      CallbackKeeps(id, w.cases[id], w.entries, code, production, now);
    }
  }

  predicate SameOutcomes(a: seq<Case>, b: seq<Case>, claims: seq<Claim>)
    requires InRange(a, claims) && InRange(b, claims)
  {
    forall i :: 0 <= i < |claims| ==>
      a[claims[i].id].attempts[claims[i].attempt].outcome == b[claims[i].id].attempts[claims[i].attempt].outcome
  }

  lemma {:induction false} TallySame(a: seq<Case>, b: seq<Case>, claims: seq<Claim>)
    requires InRange(a, claims) && InRange(b, claims) && SameOutcomes(a, b, claims)
    ensures TallyOf(a, claims) == TallyOf(b, claims)
    decreases |claims|
  {
    if claims != [] {
      TallySame(a, b, claims[..|claims| - 1]);
    }
  }

  lemma {:induction false} SettleAllStep(w: World, claims: seq<Claim>, rail: Claim -> RailAnswer, i: nat)
    requires InRange(w.cases, claims) && i < |claims|
    ensures InRange(w.cases, claims[i..])
    ensures var k := claims[i];
            var next := WithCase(w, k.id, Settle(k.id, w.cases[k.id], w.entries, k.attempt, rail(k)));
            InRange(next.cases, claims[i + 1..]) &&
            SettleAll(w, claims[i..], rail) == SettleAll(next, claims[i + 1..], rail)
  {
    assert claims[i..][0] == claims[i] && claims[i..][1..] == claims[i + 1..];
  }

  lemma {:induction false} TallyStep(cases: seq<Case>, claims: seq<Claim>, i: nat)
    requires InRange(cases, claims) && i < |claims|
    ensures TallyOf(cases, claims[..i + 1]) ==
            Counted(TallyOf(cases, claims[..i]), cases[claims[i].id].attempts[claims[i].attempt].outcome)
  {
    assert claims[..i + 1][..i] == claims[..i];
  }

  /** Nothing but one attempt's row, and what belongs to its case, changed. */
  ghost predicate OnlyAttempt(before: seq<Case>, after: seq<Case>, k: Claim)
    requires k.id < |before| && k.attempt < |before[k.id].attempts|
  {
    && |after| == |before| && (forall i :: 0 <= i < |before| && i != k.id ==> after[i] == before[i])
    && |after[k.id].attempts| == |before[k.id].attempts|
    && (forall j :: 0 <= j < |before[k.id].attempts| && j != k.attempt ==>
         after[k.id].attempts[j] == before[k.id].attempts[j])
  }

  lemma {:induction false} EarlierClaims(before: seq<Case>, after: seq<Case>, claims: seq<Claim>, i: nat)
    requires InRange(before, claims) && Claims.Distinct(claims) && i < |claims| && OnlyAttempt(before, after, claims[i])
    ensures InRange(after, claims) && SameOutcomes(before, after, claims[..i])
  {
    forall j | 0 <= j < i
      ensures var k := claims[j]; before[k.id].attempts[k.attempt].outcome == after[k.id].attempts[k.attempt].outcome
    {
      assert claims[j] != claims[i];
    }
  }

  lemma {:induction false} TallyGrows(before: seq<Case>, after: seq<Case>, claims: seq<Claim>, i: nat)
    requires InRange(before, claims) && Claims.Distinct(claims) && i < |claims| && OnlyAttempt(before, after, claims[i])
    ensures InRange(after, claims)
    ensures TallyOf(after, claims[..i + 1]) ==
            Counted(TallyOf(before, claims[..i]), after[claims[i].id].attempts[claims[i].attempt].outcome)
  {
    EarlierClaims(before, after, claims, i);
    TallySame(before, after, claims[..i]);
    TallyStep(after, claims, i);
  }

  /** The flush guard's test of one row: its status is the committed one, or was recorded. */
  predicate RowRecorded(cases: seq<Case>, saved: seq<Case>, noted: map<TxId, Status>, i: nat)
    requires i < |cases|
  {
    || (i < |saved| && cases[i].tx.status == saved[i].tx.status)
    || (i in noted && noted[i] == cases[i].tx.status)
  }

  ghost predicate AllRecorded(cases: seq<Case>, saved: seq<Case>, noted: map<TxId, Status>) {
    forall i: nat :: i < |cases| ==> RowRecorded(cases, saved, noted, i)
  }

  /** A status that is recorded when it changes leaves the guard nothing to report. */
  lemma {:induction false} RecordedUpdate(cases: seq<Case>, saved: seq<Case>, noted: map<TxId, Status>,
        id: nat, c: Case, after: map<TxId, Status>)
    requires AllRecorded(cases, saved, noted) && id < |cases|
    requires (after == noted && c.tx.status == cases[id].tx.status) || after == noted[id := c.tx.status]
    ensures AllRecorded(cases[id := c], saved, after)
  {
    var updated := cases[id := c];
    forall i: nat | i < |updated|
      ensures RowRecorded(updated, saved, after, i)
    {
      assert RowRecorded(cases, saved, noted, i);
    }
  }

  predicate DueIn(cases: seq<Case>, i: TxId, rule: Rule, cutoff: Time) {
    i < |cases| && Selects(rule, cases[i].tx, cutoff)
  }

  /** Exactly the rows a rule's query returns, in creation order. */
  ghost predicate IsDueList(cases: seq<Case>, ids: seq<TxId>, rule: Rule, cutoff: Time) {
    && (forall j :: 0 <= j < |ids| ==> DueIn(cases, ids[j], rule, cutoff))
    && (forall i: TxId :: DueIn(cases, i, rule, cutoff) ==> i in ids)
    && (forall j, k :: 0 <= j < k < |ids| ==> ids[j] < ids[k])
  }

  function DueIds(cases: seq<Case>, rule: Rule, cutoff: Time): seq<TxId> {
    if cases == [] then []
    else
      var n := |cases| - 1;
      DueIds(cases[..n], rule, cutoff) + if DueIn(cases, n, rule, cutoff) then [n] else []
  }

  lemma {:induction false} DueIdsAreDue(cases: seq<Case>, rule: Rule, cutoff: Time)
    ensures IsDueList(cases, DueIds(cases, rule, cutoff), rule, cutoff)
    decreases |cases|
  {
    if cases != [] {
      var n := |cases| - 1;
      DueIdsAreDue(cases[..n], rule, cutoff);
      forall i: TxId | DueIn(cases, i, rule, cutoff)
        ensures i in DueIds(cases, rule, cutoff)
      {
        assert i < n ==> DueIn(cases[..n], i, rule, cutoff);
      }
    }
  }

  /** A transaction is in a rule's list exactly when it is in the rule's state and its deadline, as
      clients read it, is at or before now. */
  lemma {:induction false} ListedIffDeadlinePassed(cases: seq<Case>, rule: Rule, now: Time, i: TxId)
    ensures i in DueIds(cases, rule, Cutoff(rule, now)) <==>
              i < |cases| && cases[i].tx.status == WatchedStatus(rule) && PastDeadline(cases[i].tx, now)
  {
    var ids := DueIds(cases, rule, Cutoff(rule, now));
    DueIdsAreDue(cases, rule, Cutoff(rule, now));
    if i in ids {
      var j :| 0 <= j < |ids| && ids[j] == i;
      assert DueIn(cases, i, rule, Cutoff(rule, now));
    }
    if i < |cases| {
      QueriesMirrorDeadlines(cases[i].tx, now, rule);
    }
  }

  function Missing(user: User, role: Role): Option<Refusal> {
    if user.role == role then Some(NotFound) else Some(WrongRole)
  }

  /** Who a call is for; the role is checked before the transaction is looked up. */
  function CallerOf(action: Action): Option<Role> {
    match action
    case Escalate => None
    case ForceResolve(_, _, _, _, _) => None
    case Dispatch => Some(Seller)
    case Arrive => Some(Seller)
    case SellerReceived => Some(Seller)
    case SellerResolution(_, _, _) => Some(Seller)
    case _ => Some(Buyer)
  }

  /** How a call ends: None when it succeeds, otherwise the error it raises. */
  function Answer(w: World, id: TxId, user: User, action: Action, routing: Routing, now: Time): Option<Refusal> {
    if id < |w.cases| then Why(Perform(w.cases[id], user, action, routing, now))
    else if action.ForceResolve? && action.reasonBlank then Some(ReasonRequired)
    else if CallerOf(action).None? then Some(NotFound)
    else Missing(user, CallerOf(action).value)
  }

  /** Cases in a state whose time is over. */
  function OverdueIn(cases: seq<Case>, s: Status, now: Time): nat {
    if cases == [] then 0
    else
      var c := cases[|cases| - 1];
      OverdueIn(cases[..|cases| - 1], s, now) + if c.tx.status == s && Outcomes.TimedOut(c.tx, now) then 1 else 0
  }

  lemma {:induction false} OverdueAreListed(cases: seq<Case>, rule: Rule, now: Time)
    ensures |ListOf(cases, rule, now)| == OverdueIn(cases, WatchedStatus(rule), now)
  {
    if cases != [] {
      var c := cases[|cases| - 1];
      OverdueAreListed(cases[..|cases| - 1], rule, now);
      QueriesMirrorDeadlines(c.tx, now, rule);
      Outcomes.DeadlinesAre(c.tx, now);
    }
  }

  /** A sweep's five counts are the overdue transactions of the five timed states. */
  lemma {:induction false} SweepCountsAre(cases: seq<Case>, now: Time)
    ensures CountsOf(cases, now) ==
            SweepCounts(OverdueIn(cases, AtDoorPendingInspection, now), OverdueIn(cases, Locked, now),
                        OverdueIn(cases, Hold24h, now), OverdueIn(cases, DisputedFunctional, now),
                        OverdueIn(cases, ReturnInTransit, now))
  {
    OverdueAreListed(cases, AtDoorRule, now);
    OverdueAreListed(cases, NoDispatchRule, now);
    OverdueAreListed(cases, HoldRule, now);
    OverdueAreListed(cases, NotSentBackRule, now);
    OverdueAreListed(cases, NotReceivedRule, now);
  }

  /** What a call answers, by the tables: nothing where it is admitted; where there is no such transaction, the
      missing reason or the wrong role before that. */
  lemma {:induction false} AnswersAre(w: World, id: TxId, user: User, action: Action, routing: Routing, now: Time)
    requires Inv(w)
    ensures var actor := Outcomes.ActorOf(action);
            Answer(w, id, user, action, routing, now) ==
            if id < |w.cases| then
              if Outcomes.Admitted(w.cases[id], user, action, routing) then None
              else Some(Outcomes.RefusedFor(w.cases[id], user, action))
            else if actor.AnAdmin? && action.reasonBlank then Some(ReasonRequired)
            else if (actor.TheBuyer? && !user.role.Buyer?) || (actor.TheSeller? && !user.role.Seller?) then
              Some(WrongRole)
            else Some(NotFound)
  {
    if id < |w.cases| {
      CaseAt(w, id);
      Outcomes.PerformFollows(w.cases[id], user, action, routing, now);
    }
  }

  /** Walks the attempts from the newest and keeps the first it meets for each purpose. */
  method LatestByPurpose(a: seq<Attempt>) returns (kept: seq<nat>)
    ensures forall k <- kept :: k < |a| && Latest(a, k)
    ensures forall j :: 0 <= j < |a| && Latest(a, j) ==> j in kept
  {
    var seen: set<Purpose> := {};
    kept := [];
    var i := |a|;
    while i > 0
      invariant 0 <= i <= |a|
      invariant forall j :: i <= j < |a| ==> a[j].purpose in seen
      invariant forall p <- seen :: exists j :: i <= j < |a| && a[j].purpose == p
      invariant forall k <- kept :: k < |a| && Latest(a, k)
      invariant forall j :: i <= j < |a| && Latest(a, j) ==> j in kept
    {
      i := i - 1;
      if a[i].purpose !in seen {
        seen := seen + {a[i].purpose};
        kept := kept + [i];
      }
    }
  }

  method DerivePayoutStatus(a: seq<Attempt>) returns (status: PayoutStatus)
    ensures status == StatusOf(a)
  {
    if a == [] {
      return NotRequired;
    }
    var kept := LatestByPurpose(a);
    if exists k <- kept :: Waiting(a[k]) {
      status := Pending;
    } else if exists k <- kept :: Unclear(a[k]) {
      status := PayoutUnknown;
    } else if forall k <- kept :: a[k].outcome.Succeeded? {
      status := PayoutSucceeded;
    } else {
      status := PayoutFailed;
    }
  }

  const RULES := [AtDoorRule, NoDispatchRule, HoldRule, NotSentBackRule, NotReceivedRule]

  function Position(rule: Rule): nat {
    match rule
    case AtDoorRule => 0
    case NoDispatchRule => 1
    case HoldRule => 2
    case NotSentBackRule => 3
    case NotReceivedRule => 4
  }

  /** The list a rule works through in a sweep. */
  function ListOf(cases: seq<Case>, rule: Rule, now: Time): seq<TxId> {
    DueIds(cases, rule, Cutoff(rule, now))
  }

  /** The transactions the first k rules move. */
  predicate DueByFirst(cases: seq<Case>, i: nat, k: nat, now: Time) {
    i < |cases| && DueRule(cases[i].tx, now).Some? && Position(DueRule(cases[i].tx, now).value) < k
  }

  function Ids(ids: seq<TxId>): set<TxId> {
    set id | id in ids
  }

  /** How many transactions each rule of a sweep moved. */
  datatype SweepCounts = SweepCounts(atDoor: nat, noDispatch: nat, hold: nat, notSentBack: nat, notReceived: nat)

  function CountsOf(cases: seq<Case>, now: Time): SweepCounts {
    SweepCounts(|ListOf(cases, AtDoorRule, now)|, |ListOf(cases, NoDispatchRule, now)|, |ListOf(cases, HoldRule, now)|,
                |ListOf(cases, NotSentBackRule, now)|, |ListOf(cases, NotReceivedRule, now)|)
  }

  ghost predicate DoneFirst(before: seq<Case>, done: set<TxId>, k: nat, now: Time) {
    forall i: nat :: i in done <==> DueByFirst(before, i, k, now)
  }

  /** A rule's list, none of it moved by an earlier rule. */
  ghost predicate Ready(before: seq<Case>, done: set<TxId>, ids: seq<TxId>, rule: Rule, now: Time) {
    && (forall j :: 0 <= j < |ids| ==>
         ids[j] < |before| && ids[j] !in done && DueRule(before[ids[j]].tx, now) == Some(rule))
    && (forall j, k :: 0 <= j < k < |ids| ==> ids[j] < ids[k])
  }

  lemma {:induction false} ListedAreOnRule(before: seq<Case>, rule: Rule, now: Time)
    ensures forall i: nat :: i in ListOf(before, rule, now) <==>
            i < |before| && DueRule(before[i].tx, now) == Some(rule)
  {
    var ids := ListOf(before, rule, now);
    DueIdsAreDue(before, rule, Cutoff(rule, now));
    forall i: nat
      ensures i in ids <==> i < |before| && DueRule(before[i].tx, now) == Some(rule)
    {
      if i < |before| {
        QueriesMirrorDeadlines(before[i].tx, now, rule);
        assert DueIn(before, i, rule, Cutoff(rule, now)) <==> SelectedBy(rule, before[i].tx, now);
      }
      if i in ids {
        var j :| 0 <= j < |ids| && ids[j] == i;
      }
    }
  }

  /** The next rule's list is disjoint from what the earlier rules moved. */
  lemma {:induction false} NextRule(before: seq<Case>, done: set<TxId>, k: nat, now: Time)
    requires k < 5 && DoneFirst(before, done, k, now)
    ensures var ids := ListOf(before, RULES[k], now);
            Ready(before, done, ids, RULES[k], now) && DoneFirst(before, done + Ids(ids), k + 1, now)
  {
    var rule := RULES[k];
    var ids := ListOf(before, rule, now);
    DueIdsAreDue(before, rule, Cutoff(rule, now));
    ListedAreOnRule(before, rule, now);
    assert Position(rule) == k;
    assert forall j :: 0 <= j < |ids| ==> ids[j] in ids;
  }

  lemma {:induction false} SweptIsSweep(before: seq<Case>, cases: seq<Case>, done: set<TxId>, routing: Routing,
        now: Time)
    requires Swept(before, cases, done, routing, now)
    requires DoneFirst(before, done, 5, now)
    ensures Sweepable(before, routing, now) && Sweep(before, routing, now) == cases
  {
    forall i: nat | i < |before|
      ensures SweepOne(before[i], routing, now) == Some(cases[i])
    {
      assert i in done <==> DueByFirst(before, i, 5, now);
    }
  }

  /** A sweep in progress: the transactions done so far are timed out, the others are untouched. */
  ghost predicate Swept(before: seq<Case>, cases: seq<Case>, done: set<TxId>, routing: Routing, now: Time) {
    && |cases| == |before|
    && forall i: nat :: i < |cases| ==>
         if i in done then SweepOne(before[i], routing, now) == Some(cases[i]) else cases[i] == before[i]
  }

  lemma {:induction false} ExecutorStep(w: World, claims: seq<Claim>, batch: int, rail: Claim -> RailAnswer)
    requires ValidClaims(w.cases, claims, batch)
    ensures InRange(w.cases, claims)
    ensures Next(w, RunExecutor(claims, batch, rail)) == SettleAll(w, claims, rail)
  {
  }

  lemma {:induction false} CallbackStep(w: World, id: TxId, code: int, production: bool, now: Time)
    requires Inv(w)
    ensures Inv(Next(w, Callback(id, code, production, now)))
    ensures id < |w.cases| ==>
              var r := CalledBack(id, w.cases[id], w.entries, code, production, now);
              && Next(w, Callback(id, code, production, now)) == WithCase(w, id, r)
              && !CallbackRaises(id, w.cases[id], w.entries, code, production, now)
              && (CallbackLocks(w.cases[id], code) ==> r.0.tx.status.Locked?)
              && (!CallbackLocks(w.cases[id], code) ==> r.0 == w.cases[id])
  {
    NextKeeps(w, Callback(id, code, production, now));
    if id < |w.cases| {
      CaseAt(w, id);
      CallbackKeeps(id, w.cases[id], w.entries, code, production, now);
    }
  }

  /** Whether creation raises after its first commit: the open stayed unclear, eConfirm rejected the
      prompt, or the gateway that serves simulated custody failed. */
  predicate PaymentFails(econfirm: bool, answer: OpenAnswer, promptRejected: bool, gatewayFails: bool) {
    if !econfirm || answer.OpenRejected? then gatewayFails else answer.OpenUnclear? || promptRejected
  }

  /** What the three steps of creation come to. */
  lemma {:induction false} CreationKeeps(w: World, buyer: User, seller: UserId, listing: ListingState, price: int,
        asked: Option<int>, econfirm: bool, answer: OpenAnswer, now: Time)
    requires Inv(w) && CreateRefused(buyer, seller, listing, price, asked).None?
    ensures var n, c := |w.cases|, NewCase(price, buyer.id, seller, econfirm, now);
            var last := Next(Next(Next(w, Create(buyer, seller, listing, price, asked, econfirm, now)),
                OpenReturns(n, answer, now)), SendPrompt(n));
            && Inv(last) && last.entries == w.entries
            && last.cases == (w.cases + [c])[n := PromptRequested(OpenReturned(c, answer, now))]
            && (!econfirm ==> last.cases == w.cases + [c])
  {
    var n := |w.cases|;
    var w1 := Next(w, Create(buyer, seller, listing, price, asked, econfirm, now));
    NextKeeps(w, Create(buyer, seller, listing, price, asked, econfirm, now));
    NextKeeps(w1, OpenReturns(n, answer, now));
    NextKeeps(Next(w1, OpenReturns(n, answer, now)), SendPrompt(n));
  }

  class Marketplace {
    /** The session's rows. */
    var cases: seq<Case>
    const ledger: EscrowLedger
    /** What is committed. */
    var saved: World
    /** The statuses recorded as events since the last commit, and the rows the flush guard caught. */
    var noted: map<TxId, Status>
    var missed: set<TxId>

    constructor ()
      ensures Valid() && fresh(ledger) && Snapshot() == EMPTY && missed == {}
    {
      cases := [];
      ledger := new EscrowLedger();
      saved := EMPTY;
      noted := map[];
      missed := {};
      new;
      RunsKeepInv([]);
    }

    function Snapshot(): World
      reads this, ledger
    {
      World(cases, ledger.entries)
    }

    /** Between calls the session has nothing uncommitted. */
    predicate Idle()
      reads this, ledger
    {
      saved == Snapshot() && noted == map[]
    }

    ghost predicate Valid()
      reads this, ledger
    {
      Idle() && Inv(Snapshot())
    }

    /** The flush guard has nothing to report. */
    ghost predicate Recorded()
      reads this
    {
      AllRecorded(cases, saved.cases, noted)
    }

    // ----- the session

    /** Flushes and commits. The guard adds every row whose status was not recorded to the missed ones. */
    method Commit()
      modifies this
      ensures cases == old(cases) && saved == Snapshot() && noted == map[]
      ensures missed ==
              old(missed) + set i: TxId | i < |old(cases)| && !RowRecorded(old(cases), old(saved).cases, old(noted), i)
      ensures old(Recorded()) ==> missed == old(missed)
    {
      for i := 0 to |cases|
        invariant cases == old(cases) && saved == old(saved) && noted == old(noted)
        invariant missed ==
                  old(missed) + set j: TxId | j < i && !RowRecorded(old(cases), old(saved).cases, old(noted), j)
      {
        if !RowRecorded(cases, saved.cases, noted, i) {
          missed := missed + {i};
        }
      }
      saved := Snapshot();
      noted := map[];
    }

    method Rollback()
      modifies this, ledger
      ensures saved == old(saved) && Snapshot() == saved && noted == map[] && missed == old(missed)
    {
      cases := saved.cases;
      ledger.entries := saved.entries;
      noted := map[];
    }

    method TransitionTransaction(id: TxId, to: Status, now: Time)
      requires id < |cases|
      modifies this`cases, this`noted
      ensures cases == old(cases)[id := Moved(old(cases)[id], to, now)]
      ensures noted == old(noted)[id := to]
    {
      var c := cases[id];
      var previous := c.tx.status;
      cases := cases[id := c.(tx := c.tx.(status := to, updatedAt := now),
                              trail := c.trail + [Transition(previous, to)])];
      noted := noted[id := to];
    }

    // ----- payouts

    method RefreshPayoutStatus(id: TxId)
      requires id < |cases|
      modifies this`cases
      ensures cases == old(cases)[id := Refreshed(old(cases)[id])]
    {
      var c := cases[id];
      var status := NotRequired;
      if c.escrow.Some? {
        status := DerivePayoutStatus(c.attempts);
      }
      cases := cases[id := c.(tx := c.tx.(payoutStatus := status))];
    }

    /** Queues a payout intent. On a failure the caller's transaction is rolled back. */
    method EnqueuePayoutIntent(id: TxId, purpose: Purpose, kind: Kind, amount: int, routing: Routing,
          now: Time) returns (ok: bool)
      requires id < |cases|
      modifies this`cases
      ensures ok <==> Enqueue(old(cases)[id], purpose, kind, amount, routing, now).Some?
      ensures ok ==> cases == old(cases)[id := Enqueue(old(cases)[id], purpose, kind, amount, routing, now).value]
    {
      if amount <= 0 {
        return false;
      }
      var c := cases[id];
      var e := EscrowOrNew(c, now);
      cases := cases[id := c.(escrow := Some(e))];
      for i := 0 to |c.attempts|
        invariant forall j :: 0 <= j < i ==>
                  !(c.attempts[j].purpose == purpose && !c.attempts[j].outcome.FailedDefinite?)
        invariant cases == old(cases)[id := c.(escrow := Some(e))]
      {
        if c.attempts[i].purpose == purpose && !c.attempts[i].outcome.FailedDefinite? {
          RefreshPayoutStatus(id);
          return true;
        }
      }
      var rail := RailFor(e, routing);
      if Destination(c, kind) in routing.noPhone || rail.None? {
        return false;
      }
      var attempt := Attempt(purpose, kind, Destination(c, kind), amount, rail.value, Unknown, None, now);
      cases := cases[id := c.(escrow := Some(e), attempts := c.attempts + [attempt],
                              tx := c.tx.(payoutStatus := Pending))];
      return true;
    }

    /** Commits a call whose payout was queued, or undoes the whole call. */
    method Finish(queued: bool) returns (r: Option<Refusal>)
      modifies this, ledger
      ensures !queued || old(Recorded()) ==> missed == old(missed)
      ensures noted == map[] && saved == Snapshot()
      ensures ledger.entries == if queued then old(ledger.entries) else old(saved).entries
      ensures cases == if queued then old(cases) else old(saved).cases
      ensures r == if queued then None else Some(NotRoutable)
    {
      if queued {
        Commit();
        return None;
      }
      Rollback();
      return Some(NotRoutable);
    }

    // ----- delivery

    method DispatchTransaction(id: TxId, user: User, now: Time) returns (r: Option<Refusal>)
      requires Idle() && id < |cases|
      modifies this, ledger
      ensures Idle() && missed == old(missed) && ledger.entries == old(ledger.entries)
      ensures var result := Actions.Dispatched(old(cases)[id], user, now);
              cases == old(cases)[id := result.c] && r == Why(result)
    {
      r := SellerGuard(cases[id], user, Locked);
      if r.None? {
        TransitionTransaction(id, OutForDelivery, now);
        Commit();
      }
    }

    method MarkArrived(id: TxId, user: User, now: Time) returns (r: Option<Refusal>)
      requires Idle() && id < |cases|
      modifies this, ledger
      ensures Idle() && missed == old(missed) && ledger.entries == old(ledger.entries)
      ensures var result := Arrived(old(cases)[id], user, now);
              cases == old(cases)[id := result.c] && r == Why(result)
    {
      r := SellerGuard(cases[id], user, OutForDelivery);
      if r.None? {
        TransitionTransaction(id, AtDoorPendingInspection, now);
        cases := cases[id := cases[id].(tx := cases[id].tx.(atDoorAt := Some(now)))];
        Commit();
      }
    }

    method ConfirmDeliveryOtp(id: TxId, user: User, listingFound: bool, serialized: bool, matches: bool,
          routing: Routing, now: Time)
      returns (r: Option<Refusal>)
      requires Idle() && id < |cases|
      modifies this, ledger
      ensures Idle() && missed == old(missed) && ledger.entries == old(ledger.entries)
      ensures var result := OtpConfirmed(old(cases)[id], user, listingFound, serialized, matches, routing, now);
              cases == old(cases)[id := result.c] && r == Why(result)
    {
      r := BuyerGuard(cases[id], user, AtDoorPendingInspection);
      if r.Some? {
        return;
      }
      if !listingFound {
        return Some(NotFound);
      }
      if !matches {
        cases := cases[id := cases[id].(tx := cases[id].tx.(updatedAt := now))];
        Commit();
        return Some(InvalidOtp);
      }
      if serialized {
        TransitionTransaction(id, Hold24h, now);
        cases := cases[id := cases[id].(tx := cases[id].tx.(holdStartedAt := Some(now), releasedAt := None))];
        Commit();
      } else {
        TransitionTransaction(id, Released, now);
        cases := cases[id := cases[id].(tx := cases[id].tx.(releasedAt := Some(now), holdStartedAt := None))];
        var queued := EnqueuePayoutIntent(id, TxRelease, Release, cases[id].tx.amount, routing, now);
        r := Finish(queued);
      }
    }

    /** The three recorded moves of a refused delivery. */
    method ApplyWithheldFlow(id: TxId, now: Time)
      requires id < |cases|
      modifies this`cases, this`noted
      ensures cases == old(cases)[id := WithheldFlow(old(cases)[id], now)]
      ensures noted == old(noted)[id := RefundedBuyer]
    {
      var steps := [ReturnInTransit, ReturnedToSeller, RefundedBuyer];
      TransitionTransaction(id, steps[0], now);
      TransitionTransaction(id, steps[1], now);
      TransitionTransaction(id, steps[2], now);
      cases := cases[id := cases[id].(tx := cases[id].tx.(refundedAt := Some(now)))];
    }

    method WithholdDeliveryOtp(id: TxId, user: User, reasonAllowed: bool, routing: Routing,
          now: Time) returns (r: Option<Refusal>)
      requires Idle() && id < |cases|
      modifies this, ledger
      ensures Idle() && missed == old(missed) && ledger.entries == old(ledger.entries)
      ensures var result := OtpWithheld(old(cases)[id], user, reasonAllowed, routing, now);
              cases == old(cases)[id := result.c] && r == Why(result)
    {
      r := BuyerGuard(cases[id], user, AtDoorPendingInspection);
      if r.Some? {
        return;
      }
      if !reasonAllowed {
        return Some(Invalid);
      }
      ApplyWithheldFlow(id, now);
      var queued := EnqueuePayoutIntent(id, TxRefund, Refund, cases[id].tx.amount, routing, now);
      r := Finish(queued);
    }

    // ----- return cases

    method ReportFunctionalIssue(id: TxId, user: User, listingFound: bool, serialized: bool,
          category: Category, rejections: Option<int>, now: Time)
      returns (r: Option<Refusal>)
      requires Idle() && id < |cases|
      modifies this, ledger
      ensures Idle() && missed == old(missed) && ledger.entries == old(ledger.entries)
      ensures var result := IssueReported(old(cases)[id], user, listingFound, serialized, category, rejections, now);
              cases == old(cases)[id := result.c] && r == Why(result)
    {
      r := BuyerGuard(cases[id], user, Hold24h);
      if r.Some? {
        return;
      }
      if !listingFound {
        return Some(NotFound);
      }
      if !serialized {
        return Some(InvalidState);
      }
      if category.UnknownCategory? {
        return Some(Invalid);
      }
      var status, escalatedAt := DisputeEscalated, Some(now);
      if !category.OtherCategory? {
        status, escalatedAt := Open, None;
      }
      TransitionTransaction(id, DisputedFunctional, now);
      var dispute := Dispute(status, rejections, escalatedAt, None, None, None, None);
      cases := cases[id := cases[id].(disputes := cases[id].disputes + [dispute])];
      Commit();
    }

    method MarkSentBack(id: TxId, user: User, now: Time) returns (r: Option<Refusal>)
      requires Idle() && id < |cases|
      modifies this, ledger
      ensures Idle() && missed == old(missed) && ledger.entries == old(ledger.entries)
      ensures var result := BuyerSentItBack(old(cases)[id], user, now);
              cases == old(cases)[id := result.c] && r == Why(result)
    {
      r := BuyerGuard(cases[id], user, DisputedFunctional);
      if r.None? {
        TransitionTransaction(id, ReturnInTransit, now);
        Commit();
      }
    }

    method MarkSellerReceived(id: TxId, user: User, now: Time) returns (r: Option<Refusal>)
      requires Idle() && id < |cases|
      modifies this, ledger
      ensures Idle() && missed == old(missed) && ledger.entries == old(ledger.entries)
      ensures var result := SellerGotItBack(old(cases)[id], user, now);
              cases == old(cases)[id := result.c] && r == Why(result)
    {
      r := SellerGuard(cases[id], user, ReturnInTransit);
      if r.None? {
        TransitionTransaction(id, ReturnReceived, now);
        Commit();
      }
    }

    method RefundReturn(id: TxId, action: Option<SellerAction>, routing: Routing, now: Time)
      returns (r: Option<Refusal>)
      requires Idle() && id < |cases|
      modifies this, ledger
      ensures Idle() && missed == old(missed) && ledger.entries == old(ledger.entries)
      ensures var result := ReturnRefunded(old(cases)[id], action, routing, now);
              cases == old(cases)[id := result.c] && r == Why(result)
    {
      TransitionTransaction(id, RefundedBuyer, now);
      cases := cases[id := cases[id].(tx := cases[id].tx.(refundedAt := Some(now)))];
      cases := cases[id := CloseDispute(NoteSellerAction(cases[id], action), DisputeRefund, now)];
      var queued := EnqueuePayoutIntent(id, SellerRefund, Refund, cases[id].tx.amount, routing, now);
      r := Finish(queued);
    }

    method ApplySellerResolution(id: TxId, user: User, listingFound: bool, action: Option<SellerAction>,
          allowed: bool, routing: Routing, now: Time)
      returns (r: Option<Refusal>)
      requires Idle() && id < |cases|
      modifies this, ledger
      ensures Idle() && missed == old(missed) && ledger.entries == old(ledger.entries)
      ensures var result := SellerResolved(old(cases)[id], user, listingFound, action, allowed, routing, now);
              cases == old(cases)[id := result.c] && r == Why(result)
    {
      r := SellerGuard(cases[id], user, ReturnReceived);
      if r.Some? {
        return;
      }
      if !listingFound {
        return Some(NotFound);
      }
      if action.None? || !allowed {
        return Some(Invalid);
      }
      if action.value.RefundIssued? {
        r := RefundReturn(id, action, routing, now);
      } else {
        TransitionTransaction(id, AwaitingBuyerReconfirmation, now);
        cases := cases[id := SetDispute(NoteSellerAction(cases[id], action), AwaitingReconfirmation)];
        Commit();
      }
    }

    method AcceptReplacement(id: TxId, routing: Routing, now: Time) returns (r: Option<Refusal>)
      requires Idle() && id < |cases|
      modifies this, ledger
      ensures Idle() && missed == old(missed) && ledger.entries == old(ledger.entries)
      ensures var result := ReplacementAccepted(old(cases)[id], routing, now);
              cases == old(cases)[id := result.c] && r == Why(result)
    {
      TransitionTransaction(id, ResolvedRelease, now);
      cases := cases[id := cases[id].(tx := cases[id].tx.(releasedAt := Some(now)))];
      cases := cases[id := CloseDispute(cases[id], DisputeRelease, now)];
      var queued := EnqueuePayoutIntent(id, ReconfirmRelease, Release, cases[id].tx.amount, routing, now);
      r := Finish(queued);
    }

    method SubmitReconfirmation(id: TxId, user: User, accepted: bool, routing: Routing,
          now: Time) returns (r: Option<Refusal>)
      requires Idle() && id < |cases|
      modifies this, ledger
      ensures Idle() && missed == old(missed) && ledger.entries == old(ledger.entries)
      ensures var result := Reconfirmed(old(cases)[id], user, accepted, routing, now);
              cases == old(cases)[id := result.c] && r == Why(result)
    {
      r := BuyerGuard(cases[id], user, AwaitingBuyerReconfirmation);
      if r.Some? {
        return;
      }
      var prior := RejectionCount(LatestDispute(cases[id]));
      if accepted {
        r := AcceptReplacement(id, routing, now);
      } else if prior < RETRY_LIMIT {
        TransitionTransaction(id, ReturnReceived, now);
        cases := cases[id := SetDispute(CountRejection(cases[id], prior + 1), DisputeReturnReceived)];
        Commit();
      } else {
        TransitionTransaction(id, EscalatedAdminReview, now);
        cases := cases[id := EscalateDispute(CountRejection(cases[id], prior + 1), now)];
        Commit();
      }
    }

    method EscalateCase(id: TxId, user: User, now: Time) returns (r: Option<Refusal>)
      requires Idle() && id < |cases|
      modifies this, ledger
      ensures Idle() && missed == old(missed) && ledger.entries == old(ledger.entries)
      ensures var result := Actions.Escalated(old(cases)[id], user, now);
              cases == old(cases)[id := result.c] && r == Why(result)
    {
      if user.id != cases[id].tx.buyer && user.id != cases[id].tx.seller {
        return Some(Forbidden);
      }
      if !OpenCase(cases[id].tx.status) || cases[id].disputes == [] {
        return Some(InvalidState);
      }
      TransitionTransaction(id, EscalatedAdminReview, now);
      cases := cases[id := EscalateDispute(cases[id], now)];
      Commit();
      return None;
    }

    /** The admin may decide the case. */
    ghost predicate Decidable(id: TxId, dispute: nat)
      reads this, ledger
    {
      && Idle() && id < |cases| && dispute < |cases[id].disputes|
      && cases[id].disputes[dispute].status.DisputeEscalated? && cases[id].tx.status.EscalatedAdminReview?
    }

    method ForceResolveCase(id: TxId, dispute: nat, reasonBlank: bool, decision: Decision, share: Option<Decimal>,
                            splitSupported: bool, routing: Routing, now: Time)
      returns (r: Option<Refusal>)
      requires Idle() && id < |cases|
      modifies this, ledger
      ensures Idle() && missed == old(missed) && ledger.entries == old(ledger.entries)
      ensures var result :=
              ForceResolved(old(cases)[id], dispute, reasonBlank, decision, share, splitSupported, routing, now);
              cases == old(cases)[id := result.c] && r == Why(result)
    {
      if reasonBlank {
        return Some(ReasonRequired);
      }
      if dispute >= |cases[id].disputes| {
        return Some(NotFound);
      }
      if !cases[id].disputes[dispute].status.DisputeEscalated? || !cases[id].tx.status.EscalatedAdminReview? {
        return Some(InvalidState);
      }
      match decision
      case DecideRefund => r := ForceRefund(id, dispute, share, splitSupported, routing, now);
      case DecideRelease => r := ForceRelease(id, dispute, share, splitSupported, routing, now);
      case DecideSplit => r := ForceSplit(id, dispute, share, splitSupported, routing, now);
    }

    method ForceRefund(id: TxId, dispute: nat, ghost share: Option<Decimal>, ghost splitSupported: bool,
          routing: Routing, now: Time)
      returns (r: Option<Refusal>)
      requires Decidable(id, dispute)
      modifies this, ledger
      ensures Idle() && missed == old(missed) && ledger.entries == old(ledger.entries)
      ensures var result :=
              ForceResolved(old(cases)[id], dispute, false, DecideRefund, share, splitSupported, routing, now);
              cases == old(cases)[id := result.c] && r == Why(result)
    {
      TransitionTransaction(id, ResolvedRefund, now);
      cases := cases[id := cases[id].(tx := cases[id].tx.(releasedAt := None, refundedAt := Some(now)))];
      cases := cases[id := Decided(cases[id], dispute, DisputeRefund, DecideRefund, None, now)];
      var queued := EnqueuePayoutIntent(id, AdminRefund(dispute), Refund, cases[id].tx.amount, routing, now);
      r := Finish(queued);
    }

    method ForceRelease(id: TxId, dispute: nat, ghost share: Option<Decimal>, ghost splitSupported: bool,
          routing: Routing, now: Time)
      returns (r: Option<Refusal>)
      requires Decidable(id, dispute)
      modifies this, ledger
      ensures Idle() && missed == old(missed) && ledger.entries == old(ledger.entries)
      ensures var result :=
              ForceResolved(old(cases)[id], dispute, false, DecideRelease, share, splitSupported, routing, now);
              cases == old(cases)[id := result.c] && r == Why(result)
    {
      TransitionTransaction(id, ResolvedRelease, now);
      cases := cases[id := cases[id].(tx := cases[id].tx.(releasedAt := Some(now), refundedAt := None))];
      cases := cases[id := Decided(cases[id], dispute, DisputeRelease, DecideRelease, None, now)];
      var queued := EnqueuePayoutIntent(id, AdminRelease(dispute), Release, cases[id].tx.amount, routing, now);
      r := Finish(queued);
    }

    /** Queues both shares of a split; the second only once the first is queued. */
    method QueueShares(id: TxId, dispute: nat, release: int, refund: int, routing: Routing, now: Time)
      returns (ok: bool)
      requires id < |cases|
      modifies this`cases
      ensures ok <==> QueueSplit(old(cases)[id], dispute, release, refund, routing, now).Some?
      ensures ok ==> cases == old(cases)[id := QueueSplit(old(cases)[id], dispute, release, refund, routing, now).value]
    {
      ok := EnqueuePayoutIntent(id, AdminSplitRelease(dispute), Release, release, routing, now);
      if ok {
        ok := EnqueuePayoutIntent(id, AdminSplitRefund(dispute), Refund, refund, routing, now);
      }
      if ok {
        RefreshPayoutStatus(id);
      }
    }

    method CloseSplit(id: TxId, dispute: nat, ratio: int, now: Time)
      requires id < |cases| && dispute < |cases[id].disputes|
      modifies this`cases, this`noted
      ensures cases == old(cases)[id := SplitClosed(old(cases)[id], dispute, ratio, now)]
      ensures noted == old(noted)[id := ResolvedSplit]
    {
      TransitionTransaction(id, ResolvedSplit, now);
      cases := cases[id := cases[id].(tx := cases[id].tx.(releasedAt := Some(now), refundedAt := Some(now)))];
      cases := cases[id := Decided(cases[id], dispute, DisputeSplit, DecideSplit, Some(ratio), now)];
    }

    /** The split branch: both shares are queued before the status moves. */
    method ForceSplit(id: TxId, dispute: nat, share: Option<Decimal>, splitSupported: bool, routing: Routing, now: Time)
      returns (r: Option<Refusal>)
      requires Decidable(id, dispute)
      modifies this, ledger
      ensures Idle() && missed == old(missed) && ledger.entries == old(ledger.entries)
      ensures var result :=
              ForceResolved(old(cases)[id], dispute, false, DecideSplit, share, splitSupported, routing, now);
              cases == old(cases)[id := result.c] && r == Why(result)
    {
      if !splitSupported {
        return Some(SplitUnsupported);
      }
      var ratio := ChosenRatio(share);
      if !(0 < ratio < RATIO_ONE) {
        return Some(Invalid);
      }
      var (release, refund) := SplitAmounts(cases[id].tx.amount, ratio);
      if release <= 0 || refund <= 0 {
        return Some(Invalid);
      }
      r := SplitWith(id, dispute, ratio, release, refund, routing, now);
    }

    method SplitWith(id: TxId, dispute: nat, ratio: int, release: int, refund: int, routing: Routing, now: Time)
      returns (r: Option<Refusal>)
      requires Decidable(id, dispute)
      modifies this, ledger
      ensures Idle() && missed == old(missed) && ledger.entries == old(ledger.entries)
      ensures var queued := QueueSplit(old(cases)[id], dispute, release, refund, routing, now);
              if queued.None? then cases == old(cases) && r == Some(NotRoutable)
              else cases == old(cases)[id := SplitClosed(queued.value, dispute, ratio, now)] && r == None
    {
      var queued := QueueShares(id, dispute, release, refund, routing, now);
      if queued {
        CloseSplit(id, dispute, ratio, now);
      }
      r := Finish(queued);
    }

    // ----- any call

    /** Every party action and admin decision is one step of the marketplace, and the flush guard
        finds nothing. */
    method Perform(id: TxId, user: User, action: Action, routing: Routing, now: Time) returns (r: Option<Refusal>)
      requires Valid()
      modifies this, ledger
      ensures Valid() && missed == old(missed)
      ensures Snapshot() == Next(old(Snapshot()), Act(id, user, action, routing, now))
      ensures r == Answer(old(Snapshot()), id, user, action, routing, now)
    {
      NextKeeps(Snapshot(), Act(id, user, action, routing, now));
      if id >= |cases| {
        if action.ForceResolve? && action.reasonBlank {
          return Some(ReasonRequired);
        }
        var caller := CallerOf(action);
        return if caller.None? then Some(NotFound) else Missing(user, caller.value);
      }
      match action
      case Dispatch => r := DispatchTransaction(id, user, now);
      case Arrive => r := MarkArrived(id, user, now);
      case ConfirmOtp(found, serialized, matches) =>
        r := ConfirmDeliveryOtp(id, user, found, serialized, matches, routing, now);
      case WithholdOtp(allowed) => r := WithholdDeliveryOtp(id, user, allowed, routing, now);
      case ReportIssue(found, serialized, category, rejections) =>
        r := ReportFunctionalIssue(id, user, found, serialized, category, rejections, now);
      case SentBack => r := MarkSentBack(id, user, now);
      case SellerReceived => r := MarkSellerReceived(id, user, now);
      case SellerResolution(found, act, allowed) =>
        r := ApplySellerResolution(id, user, found, act, allowed, routing, now);
      case Reconfirm(accepted) => r := SubmitReconfirmation(id, user, accepted, routing, now);
      case Escalate => r := EscalateCase(id, user, now);
      case ForceResolve(i, blank, decision, share, supported) =>
        r := ForceResolveCase(id, i, blank, decision, share, supported, routing, now);
    }

    // ----- creation and custody

    /** Adds the transaction, and for eConfirm its flagged escrow, and commits. */
    method AddTransaction(price: int, buyer: UserId, seller: UserId, econfirm: bool, now: Time) returns (id: TxId)
      requires Idle()
      modifies this, ledger
      ensures Idle() && missed == old(missed) && ledger.entries == old(ledger.entries)
      ensures id == |old(cases)| && cases == old(cases) + [NewCase(price, buyer, seller, econfirm, now)]
    {
      id := |cases|;
      cases := cases + [NewCase(price, buyer, seller, econfirm, now)];
      noted := noted[id := AwaitingPayment];
      Commit();
    }

    /** Opens the escrow at eConfirm and, when that succeeded, asks for the payment prompt. */
    method StartCustody(id: TxId, answer: OpenAnswer, now: Time)
      requires Idle() && id < |cases| && cases[id].opening.AwaitingOpen? && cases[id].escrow.Some?
      modifies this, ledger
      ensures Idle() && missed == old(missed) && ledger.entries == old(ledger.entries)
      ensures cases == old(cases)[id := PromptRequested(OpenReturned(old(cases)[id], answer, now))]
    {
      OpenEscrow(id, answer, now);
      Commit();
      if cases[id].opening.AwaitingPrompt? {
        RequestFunding(id);
        Commit();
      }
    }

    /** Creates the row, opens and prompts on eConfirm, or asks the payment gateway for simulated custody,
        committing after each. Every way the payment can fail to start raises and keeps what is committed. */
    method CreateTransaction(buyer: User, seller: UserId, listing: ListingState, price: int, asked: Option<int>,
          econfirm: bool, answer: OpenAnswer, promptRejected: bool, gatewayFails: bool, now: Time)
      returns (r: Option<Refusal>)
      requires Valid()
      modifies this, ledger
      ensures Valid() && missed == old(missed)
      ensures var n := |old(cases)|;
              var w1 := Next(old(Snapshot()), Create(buyer, seller, listing, price, asked, econfirm, now));
              if CreateRefused(buyer, seller, listing, price, asked).Some? then Snapshot() == old(Snapshot())
              else Snapshot() == Next(Next(w1, OpenReturns(n, answer, now)), SendPrompt(n))
      ensures CreateRefused(buyer, seller, listing, price, asked).Some? ==>
                r == CreateRefused(buyer, seller, listing, price, asked)
      ensures CreateRefused(buyer, seller, listing, price, asked).None? ==>
                r == if PaymentFails(econfirm, answer, promptRejected, gatewayFails) then Some(PaymentNotStarted)
                else None
    {
      r := CreateRefused(buyer, seller, listing, price, asked);
      if r.Some? {
        return;
      }
      CreationKeeps(Snapshot(), buyer, seller, listing, price, asked, econfirm, answer, now);
      var id := AddTransaction(price, buyer.id, seller, econfirm, now);
      if econfirm {
        StartCustody(id, answer, now);
        if answer.OpenUnclear? {
          return Some(PaymentNotStarted);
        }
        if answer.Opened? {
          return if promptRejected then Some(PaymentNotStarted) else None;
        }
      }
      return if gatewayFails then Some(PaymentNotStarted) else None;
    }

    method OpenEscrow(id: TxId, answer: OpenAnswer, now: Time)
      requires id < |cases| && cases[id].opening.AwaitingOpen? && cases[id].escrow.Some?
      modifies this`cases
      ensures cases == old(cases)[id := OpenReturned(old(cases)[id], answer, now)]
    {
      var c := cases[id];
      var e := c.escrow.value;
      match answer
      case OpenUnclear =>
        e := e.(custody := Econfirm, needsReconciliation := true, reference := None);
        cases := cases[id := c.(escrow := Some(e), opening := Finished)];
      case OpenRejected =>
        e := e.(custody := Simulated);
        cases := cases[id := c.(escrow := Some(e), tx := c.tx.(custody := Simulated, updatedAt := now),
                                opening := Finished)];
      case Opened(reference) =>
        e := e.(custody := Econfirm, reference := Some(reference), needsReconciliation := false);
        cases := cases[id := c.(escrow := Some(e), opening := AwaitingPrompt)];
    }

    method RequestFunding(id: TxId)
      requires id < |cases| && cases[id].opening.AwaitingPrompt?
      modifies this`cases
      ensures cases == old(cases)[id := PromptRequested(old(cases)[id])]
    {
      var c := cases[id];
      if c.escrow.None? || !c.escrow.value.custody.Econfirm? || c.escrow.value.reference.None?
         || c.escrow.value.needsReconciliation {
        cases := cases[id := c.(opening := Finished)];
        return;
      }
      var e := c.escrow.value;
      cases := cases[id := c.(prompts := c.prompts + [Prompt(e.custody, e.reference, e.needsReconciliation)],
                              opening := Finished)];
    }

    /** The buyer asks for another prompt. Whether the cooldown still runs and what the gateway or eConfirm
        answers are inputs; a prompt eConfirm rejects has still been sent. */
    method ResendPaymentPrompt(id: TxId, buyer: UserId, tooSoon: bool, fails: bool) returns (r: Option<Refusal>)
      requires Valid()
      modifies this, ledger
      ensures Valid() && missed == old(missed)
      ensures Snapshot() == Next(old(Snapshot()), ResendPrompt(id, buyer, tooSoon))
      ensures r == ResendAnswer(old(Snapshot()), id, buyer, tooSoon, fails)
    {
      NextKeeps(Snapshot(), ResendPrompt(id, buyer, tooSoon));
      if id >= |cases| {
        return Some(NotFound);
      }
      assert cases[id := cases[id]] == cases;
      var c := cases[id];
      if c.tx.buyer != buyer {
        return Some(NotFound);
      }
      if c.tx.status != AwaitingPayment {
        return Some(InvalidState);
      }
      if tooSoon {
        return Some(TooSoon);
      }
      if c.tx.custody.Econfirm? {
        if !ReadyForPrompt(c) {
          return Some(InvalidState);
        }
        SendAgain(id);
      }
      return if fails then Some(PaymentNotStarted) else None;
    }

    method SendAgain(id: TxId)
      requires Idle() && id < |cases| && ReadyForPrompt(cases[id])
      modifies this, ledger
      ensures Idle() && missed == old(missed) && ledger.entries == old(ledger.entries)
      ensures cases == old(cases)[id := Prompted(old(cases)[id])]
    {
      var c := cases[id];
      var e := c.escrow.value;
      cases := cases[id := c.(prompts := c.prompts + [Prompt(e.custody, e.reference, e.needsReconciliation)])];
      Commit();
    }

    // ----- funding

    /** Nothing is posted for a funded escrow or a used key; a refused movement raises. */
    method PostEscrowFunding(id: TxId, key: Key) returns (answer: FundingAnswer)
      requires id < |cases| && cases[id].escrow.Some?
      modifies this`cases, ledger
      ensures answer == FundingAnswerOf(id, old(cases)[id], old(ledger.entries), key)
      ensures cases == old(cases)[id := Funded(id, old(cases)[id], old(ledger.entries), key).0]
      ensures ledger.entries == Funded(id, old(cases)[id], old(ledger.entries), key).1
      ensures answer.FundingPosted? <==> ledger.entries != old(ledger.entries)
    {
      var c := cases[id];
      var e := c.escrow.value;
      var amount := e.total - e.funded;
      if amount <= 0 {
        return NothingPosted;
      }
      var m := Movement(id, key, amount, EscrowHeld, BuyerClearing);
      assert m == FundingMovement(id, e, key);
      var result := ledger.PostMovement(m);
      if !result.Posted? {
        return if result.Refused? then FundingRefused else NothingPosted;
      }
      assert |ledger.entries| == |old(ledger.entries)| + 2;
      cases := cases[id := c.(escrow := Some(e.(funded := e.total)))];
      return FundingPosted;
    }

    method LockTransaction(id: TxId, now: Time)
      requires id < |cases|
      modifies this`cases, this`noted
      ensures cases == old(cases)[id := LockedNow(old(cases)[id], now)] && noted == old(noted)[id := Locked]
    {
      TransitionTransaction(id, Locked, now);
      cases := cases[id := cases[id].(tx := cases[id].tx.(lockedAt := Some(now)))];
    }

    /** The lock of a successful callback, with the simulated funding outside production. */
    method LockByCallback(id: TxId, production: bool, now: Time) returns (raised: bool)
      requires Idle() && id < |cases| && CallbackLocks(cases[id], 0)
      modifies this, ledger
      ensures Idle() && missed == old(missed)
      ensures raised <==> CallbackRaises(id, old(cases)[id], old(ledger.entries), 0, production, now)
      ensures Snapshot() ==
              WithCase(old(Snapshot()), id, CalledBack(id, old(cases)[id], old(ledger.entries), 0, production, now))
    {
      LockTransaction(id, now);
      if !production {
        cases := cases[id := cases[id].(escrow := Some(EscrowOrNew(cases[id], now)))];
        assert cases[id] == LockedWithEscrow(old(cases)[id], now);
        var answer := PostEscrowFunding(id, CallbackFunding(id));
        if answer.FundingRefused? {
          Rollback();
          assert cases[id := cases[id]] == cases;
          return true;
        }
      }
      Commit();
      return false;
    }

    /** The callback on an existing transaction; it only reads the transaction's own custody and status. */
    method CallBack(id: TxId, resultCode: int, production: bool, now: Time) returns (answer: CallbackAnswer)
      requires Idle() && id < |cases|
      modifies this, ledger
      ensures Idle() && missed == old(missed)
      ensures answer == CallbackAnswerOf(old(Snapshot()), id, resultCode, production, now)
      ensures Snapshot() ==
              WithCase(old(Snapshot()), id,
                  CalledBack(id, old(cases)[id], old(ledger.entries), resultCode, production, now))
    {
      assert cases[id := cases[id]] == cases;
      if cases[id].tx.custody.Econfirm? {
        return EconfirmIgnored;
      }
      if resultCode != 0 {
        return NotSuccessful;
      }
      if cases[id].tx.status.Locked? {
        return Duplicate;
      }
      if !cases[id].tx.status.AwaitingPayment? {
        return WrongState;
      }
      var raised := LockByCallback(id, production, now);
      return if raised then CallbackRaised else MovedToLocked;
    }

    /** In a reachable state the callback never raises but for a missing transaction. */
    method ConfirmPaymentCallback(id: TxId, resultCode: int, production: bool, now: Time)
      returns (answer: CallbackAnswer)
      requires Valid()
      modifies this, ledger
      ensures Valid() && missed == old(missed)
      ensures Snapshot() == Next(old(Snapshot()), Callback(id, resultCode, production, now))
      ensures answer == CallbackAnswerOf(old(Snapshot()), id, resultCode, production, now) && !answer.CallbackRaised?
      ensures answer.MovedToLocked? <==>
                id < |cases| && cases[id].tx.status.Locked? && old(cases)[id].tx.status.AwaitingPayment?
    {
      CallbackStep(Snapshot(), id, resultCode, production, now);
      if id >= |cases| {
        return TransactionMissing;
      }
      answer := CallBack(id, resultCode, production, now);
    }

    method SelectPollable() returns (ids: seq<TxId>)
      ensures ids == PollCandidates(cases)
    {
      ids := [];
      for i := 0 to |cases|
        invariant ids == PollCandidates(cases[..i])
      {
        assert cases[..i + 1][..i] == cases[..i];
        if Pollable(cases[i]) {
          ids := ids + [i];
        }
      }
      assert cases[..|cases|] == cases;
    }

    method PollOne(id: TxId, reported: bool, now: Time, timeout: int) returns (answer: PollAnswer)
      requires id < |cases| && cases[id].escrow.Some?
      modifies this`cases, this`noted, ledger
      ensures answer == PollAnswerOf(id, old(cases)[id], old(ledger.entries), reported, now, timeout)
      ensures !answer.PollRaised? ==>
                Snapshot() == WithCase(old(Snapshot()), id,
                    Polled(id, old(cases)[id], old(ledger.entries), reported, now, timeout))
      ensures !answer.PollRaised? && old(Recorded()) ==> Recorded()
    {
      assert cases == cases[id := cases[id]];
      if cases[id].escrow.value.createdAt < now - timeout {
        return TimedOut;
      }
      if reported {
        var funding := PostEscrowFunding(id, EconfirmFunding(id));
        if funding.FundingRefused? {
          return PollRaised;
        }
        if cases[id].tx.status.AwaitingPayment? {
          LockTransaction(id, now);
        }
      }
      if old(Recorded()) {
        RecordedUpdate(old(cases), saved.cases, old(noted), id, cases[id], noted);
      }
      return if reported then PollFunded else NotFundedYet;
    }

    /** Polls the escrows in order and counts; None where the ledger refuses a posting. */
    method PollEach(ids: seq<TxId>, reported: set<TxId>, now: Time, timeout: int) returns (r: Option<PollCounts>)
      requires PollOk(cases, ids)
      modifies this`cases, this`noted, ledger
      ensures r.None? <==> PollAll(old(Snapshot()), ids, reported, now, timeout).None?
      ensures r.Some? ==>
                && PollAll(old(Snapshot()), ids, reported, now, timeout) == Some(Snapshot())
                && r.value == PollCountsOf(old(cases), ids, reported, now, timeout)
                && (old(Recorded()) ==> Recorded())
    {
      ghost var goal := PollAll(Snapshot(), ids, reported, now, timeout);
      var counts := PollCounts(0, 0, 0);
      assert ids[0..] == ids;
      for i := 0 to |ids|
        invariant PolledSoFar(old(cases), goal, Snapshot(), ids, reported, now, timeout, i, counts)
        invariant old(Recorded()) ==> Recorded()
      {
        PollGoesOn(old(cases), goal, Snapshot(), ids, reported, now, timeout, i, counts);
        var answer := PollOne(ids[i], ids[i] in reported, now, timeout);
        if answer.PollRaised? {
          return None;
        }
        counts := AddPolled(counts, answer);
      }
      assert ids[..|ids|] == ids;
      return Some(counts);
    }

    method PollAndCommit(reported: set<TxId>, now: Time, timeout: int, budget: nat) returns (r: Option<PollCounts>)
      requires Idle()
      modifies this, ledger
      ensures Idle() && missed == old(missed)
      ensures Snapshot() == Next(old(Snapshot()), Poll(reported, now, timeout, budget))
      ensures r.None? <==> PollAll(old(Snapshot()), PollBatch(old(cases), budget), reported, now, timeout).None?
      ensures PollOk(old(cases), PollBatch(old(cases), budget))
      ensures r.Some? ==> r.value == PollCountsOf(old(cases), PollBatch(old(cases), budget), reported, now, timeout)
    {
      var ids := SelectPollable();
      if |ids| > budget {
        ids := ids[..budget];
      }
      BatchPollable(cases, budget);
      r := PollEach(ids, reported, now, timeout);
      if r.None? {
        Rollback();
        return;
      }
      Commit();
    }

    /** In a reachable state a poll run never raises on the ledger. */
    method RunFundingPoll(reported: set<TxId>, now: Time, timeout: int, budget: nat) returns (r: Option<PollCounts>)
      requires Valid()
      modifies this, ledger
      ensures Valid() && missed == old(missed)
      ensures Snapshot() == Next(old(Snapshot()), Poll(reported, now, timeout, budget))
      ensures PollOk(old(cases), PollBatch(old(cases), budget))
      ensures r == Some(PollCountsOf(old(cases), PollBatch(old(cases), budget), reported, now, timeout))
    {
      NextKeeps(Snapshot(), Poll(reported, now, timeout, budget));
      BatchPollable(cases, budget);
      PollAllKeeps(Snapshot(), PollBatch(cases, budget), reported, now, timeout);
      r := PollAndCommit(reported, now, timeout, budget);
    }

    // ----- settlement

    /** Posts a confirmed payout and counts it; a movement that was posted before is not counted again. */
    method BookPayout(id: TxId, i: nat, a: Attempt)
      requires id < |cases| && cases[id].escrow.Some?
      modifies this`cases, ledger
      ensures var c, m := old(cases)[id], PayoutMovement(id, i, a);
              && cases == old(cases)[id := if PostOutcome(old(ledger.entries), m).Posted? then
                                             c.(escrow := Some(PaidOut(c.escrow.value, a)))
                                           else c]
              && ledger.entries == Post(old(ledger.entries), m)
    {
      var c := cases[id];
      var e := c.escrow.value;
      var posted := ledger.PostMovement(PayoutMovement(id, i, a));
      if posted.Posted? {
        e := if a.kind.Release? then e.(released := e.released + a.amount) else e.(refunded := e.refunded + a.amount);
        cases := cases[id := c.(escrow := Some(e))];
      } else {
        assert cases == cases[id := c];
      }
    }

    /** One claimed attempt, as the executor handles it. */
    method SettleAttempt(id: TxId, i: nat, answer: RailAnswer) returns (outcome: Outcome)
      requires id < |cases| && i < |cases[id].attempts|
      modifies this`cases, ledger
      ensures cases == old(cases)[id := Settle(id, old(cases)[id], old(ledger.entries), i, answer).0]
      ensures ledger.entries == Settle(id, old(cases)[id], old(ledger.entries), i, answer).1
      ensures outcome == cases[id].attempts[i].outcome
    {
      var c := cases[id];
      var a := c.attempts[i];
      if c.escrow.None? {
        cases := cases[id := WithAttempt(c, i, a.(outcome := FailedDefinite))];
        return FailedDefinite;
      }
      var e, reply := c.escrow.value, ReplyTo(a, answer);
      if reply.None? {
        cases := cases[id := WithAttempt(c, i, a.(outcome := Unknown))];
        RefreshPayoutStatus(id);
        return Unknown;
      }
      var reference := if reply.value.reference.Some? then reply.value.reference else a.reference;
      outcome := reply.value.outcome;
      if outcome.Succeeded? && e.funded - e.released - e.refunded < a.amount {
        outcome := Unknown;
      }
      cases := cases[id := WithAttempt(c, i, a.(outcome := outcome, reference := reference))];
      if outcome.Succeeded? {
        BookPayout(id, i, a);
      }
      assert c.(escrow := Some(c.escrow.value)) == c;
      RefreshPayoutStatus(id);
    }

    /** One claimed attempt; every other attempt stays as it is. */
    method SettleOne(k: Claim, answer: RailAnswer) returns (outcome: Outcome)
      requires k.id < |cases| && k.attempt < |cases[k.id].attempts|
      modifies this`cases, ledger
      ensures Snapshot() ==
              WithCase(old(Snapshot()), k.id, Settle(k.id, old(cases)[k.id], old(ledger.entries), k.attempt, answer))
      ensures OnlyAttempt(old(cases), cases, k) && outcome == cases[k.id].attempts[k.attempt].outcome
      ensures old(Recorded()) ==> Recorded()
    {
      SettleTouchesOne(k.id, cases[k.id], ledger.entries, k.attempt, answer);
      if Recorded() {
        var settled := Settle(k.id, cases[k.id], ledger.entries, k.attempt, answer).0;
        RecordedUpdate(cases, saved.cases, noted, k.id, settled, noted);
      }
      outcome := SettleAttempt(k.id, k.attempt, answer);
    }

    method SettleEach(claims: seq<Claim>, rail: Claim -> RailAnswer) returns (tally: Tally)
      requires InRange(cases, claims) && Claims.Distinct(claims)
      modifies this`cases, ledger
      ensures Snapshot() == SettleAll(old(Snapshot()), claims, rail)
      ensures InRange(cases, claims) && tally == TallyOf(cases, claims)
      ensures old(Recorded()) ==> Recorded()
    {
      ghost var goal := SettleAll(Snapshot(), claims, rail);
      tally := Tally(0, 0, 0, 0);
      assert claims[0..] == claims;
      for i := 0 to |claims|
        invariant InRange(cases, claims) && tally == TallyOf(cases, claims[..i])
        invariant old(Recorded()) ==> Recorded()
        invariant SettleAll(Snapshot(), claims[i..], rail) == goal
      {
        SettleAllStep(Snapshot(), claims, rail, i);
        ghost var before := cases;
        var outcome := SettleOne(claims[i], rail(claims[i]));
        TallyGrows(before, cases, claims, i);
        tally := Counted(tally, outcome);
      }
      assert claims[..|claims|] == claims;
    }

    method SettleAndCommit(claims: seq<Claim>, rail: Claim -> RailAnswer) returns (tally: Tally)
      requires Idle() && InRange(cases, claims) && Claims.Distinct(claims)
      modifies this, ledger
      ensures Idle() && missed == old(missed)
      ensures Snapshot() == SettleAll(old(Snapshot()), claims, rail)
      ensures InRange(cases, claims) && tally == TallyOf(cases, claims)
    {
      tally := SettleEach(claims, rail);
      Commit();
    }

    /** One executor run: it claims the oldest attempts with unknown outcome that no other run has locked
        and settles them in that order; nothing happens when nothing is claimed. */
    method RunPayoutExecutor(batch: int, locked: set<Claim>, rail: Claim -> RailAnswer)
      returns (claims: seq<Claim>, tally: Tally)
      requires Valid()
      modifies this, ledger
      ensures Valid() && missed == old(missed)
      ensures Claims.OldestBatch(old(cases), claims, batch, locked)
      ensures Snapshot() == Next(old(Snapshot()), RunExecutor(claims, batch, rail))
      ensures InRange(cases, claims) && tally == TallyOf(cases, claims)
    {
      claims := Claims.SelectClaims(cases, batch, locked);
      if claims == [] {
        return claims, Tally(0, 0, 0, 0);
      }
      Claims.OldestAreValid(cases, claims, batch, locked);
      ExecutorStep(Snapshot(), claims, batch, rail);
      SettleAllKeeps(Snapshot(), claims, rail);
      tally := SettleAndCommit(claims, rail);
    }

    // ----- the sweep

    /** A rule's query: the rows in its state whose timestamp is set and not after the cutoff. */
    method SelectDue(rule: Rule, cutoff: Time) returns (ids: seq<TxId>)
      ensures ids == DueIds(cases, rule, cutoff)
    {
      ids := [];
      for i := 0 to |cases|
        invariant ids == DueIds(cases[..i], rule, cutoff)
      {
        assert cases[..i + 1][..i] == cases[..i];
        if Selects(rule, cases[i].tx, cutoff) {
          ids := ids + [i];
        }
      }
      assert cases[..|cases|] == cases;
    }

    method SelectAllDue(now: Time) returns (lists: seq<seq<TxId>>)
      ensures |lists| == 5 && forall k :: 0 <= k < 5 ==> lists[k] == ListOf(cases, RULES[k], now)
    {
      lists := [];
      for k := 0 to 5
        invariant |lists| == k && forall j :: 0 <= j < k ==> lists[j] == ListOf(cases, RULES[j], now)
      {
        var ids := SelectDue(RULES[k], Cutoff(RULES[k], now));
        lists := lists + [ids];
      }
    }

    /** Moves one transaction to a final state and queues its payout. */
    method TimeOutTo(id: TxId, to: Status, now: Time)
      requires id < |cases|
      modifies this`cases, this`noted
      ensures noted == old(noted)[id := to]
      ensures var moved := Moved(old(cases)[id], to, now);
              cases == old(cases)[id := if to.RefundedBuyer? then moved.(tx := moved.tx.(refundedAt := Some(now)))
                                        else moved.(tx := moved.tx.(releasedAt := Some(now)))]
    {
      TransitionTransaction(id, to, now);
      if to.RefundedBuyer? {
        cases := cases[id := cases[id].(tx := cases[id].tx.(refundedAt := Some(now)))];
      } else {
        cases := cases[id := cases[id].(tx := cases[id].tx.(releasedAt := Some(now)))];
      }
    }

    /** One rule on one transaction, whatever its state: the query has checked that. */
    method ApplyTimeout(rule: Rule, id: TxId, routing: Routing, now: Time) returns (ok: bool)
      requires id < |cases|
      modifies this`cases, this`noted
      ensures ok <==> TimeoutMove(rule, old(cases)[id], routing, now).Some?
      ensures ok ==> cases == old(cases)[id := TimeoutMove(rule, old(cases)[id], routing, now).value]
      ensures ok ==> noted == old(noted)[id := cases[id].tx.status]
    {
      var amount := cases[id].tx.amount;
      ok := true;
      match rule {
      case AtDoorRule =>
        ApplyWithheldFlow(id, now);
        ok := EnqueuePayoutIntent(id, TimeoutAtDoorRefund, Refund, amount, routing, now);
      case NoDispatchRule =>
        TimeOutTo(id, RefundedBuyer, now);
        ok := EnqueuePayoutIntent(id, TimeoutRefund, Refund, amount, routing, now);
      case HoldRule =>
        TimeOutTo(id, Released, now);
        ok := EnqueuePayoutIntent(id, HoldRelease, Release, amount, routing, now);
      case NotSentBackRule =>
        TimeOutTo(id, Released, now);
        if cases[id].disputes != [] && OpenDispute(LatestDispute(cases[id]).value.status) {
          cases := cases[id := CloseDispute(cases[id], Canceled, now)];
        }
        ok := EnqueuePayoutIntent(id, DisputeTimeoutRelease, Release, amount, routing, now);
      case NotReceivedRule =>
        TransitionTransaction(id, EscalatedAdminReview, now);
        if cases[id].disputes != [] && OpenDispute(LatestDispute(cases[id]).value.status) {
          cases := cases[id := EscalateDispute(cases[id], now)];
        }
      }
    }

    /** Applies one rule's timeouts, in order, to the transactions selected for it. */
    method TimeOutEach(rule: Rule, ids: seq<TxId>, ghost before: seq<Case>, ghost done: set<TxId>,
          routing: Routing, now: Time) returns (ok: bool, count: nat)
      requires Swept(before, cases, done, routing, now) && Recorded()
      requires Ready(before, done, ids, rule, now)
      modifies this`cases, this`noted
      ensures ok ==> Swept(before, cases, done + Ids(ids), routing, now) && Recorded() && count == |ids|
      ensures ids == [] ==> cases == old(cases) && noted == old(noted)
      ensures !ok ==> exists i :: 0 <= i < |before| && SweepOne(before[i], routing, now).None?
    {
      count := 0;
      for i := 0 to |ids|
        invariant Swept(before, cases, done + Ids(ids[..i]), routing, now) && Recorded() && count == i
        invariant ids == [] ==> cases == old(cases) && noted == old(noted)
      {
        var id := ids[i];
        assert id !in ids[..i];
        assert Ids(ids[..i + 1]) == Ids(ids[..i]) + {id} by {
          assert ids[..i + 1] == ids[..i] + [id];
        }
        ghost var was, mark := cases, noted;
        ok := ApplyTimeout(rule, id, routing, now);
        if !ok {
          assert SweepOne(before[id], routing, now).None?;
          return false, count;
        }
        RecordedUpdate(was, saved.cases, mark, id, cases[id], noted);
        count := count + 1;
      }
      assert ids[..|ids|] == ids;
      ok := true;
    }

    /** Runs the five rules over their lists. */
    method SweepLists(lists: seq<seq<TxId>>, routing: Routing, now: Time)
      returns (ok: bool, counts: seq<nat>, moved: nat)
      requires |lists| == 5 && forall k :: 0 <= k < 5 ==> lists[k] == ListOf(cases, RULES[k], now)
      requires Recorded()
      modifies this`cases, this`noted
      ensures ok ==> |counts| == 5 && forall k :: 0 <= k < 5 ==> counts[k] == |lists[k]|
      ensures ok ==> Recorded() && Sweepable(old(cases), routing, now) && cases == Sweep(old(cases), routing, now)
      ensures ok && moved == 0 ==> cases == old(cases) && noted == old(noted)
      ensures !ok ==> !Sweepable(old(cases), routing, now)
    {
      counts, moved := [], 0;
      ghost var done: set<TxId> := {};
      for k := 0 to 5
        invariant |counts| == k && forall j :: 0 <= j < k ==> counts[j] == |lists[j]|
        invariant Swept(old(cases), cases, done, routing, now) && Recorded()
        invariant DoneFirst(old(cases), done, k, now)
        invariant moved == 0 ==> cases == old(cases) && noted == old(noted)
      {
        NextRule(old(cases), done, k, now);
        var count;
        ok, count := TimeOutEach(RULES[k], lists[k], old(cases), done, routing, now);
        if !ok {
          return;
        }
        counts, moved := counts + [count], moved + count;
        done := done + Ids(lists[k]);
      }
      SweptIsSweep(old(cases), cases, done, routing, now);
      ok := true;
    }

    /** All five lists are selected before any rule runs; a payout that cannot be queued undoes the
        whole sweep. */
    method SweepAndCommit(routing: Routing, now: Time) returns (r: Option<SweepCounts>)
      requires Idle()
      modifies this, ledger
      ensures Idle() && missed == old(missed) && ledger.entries == old(ledger.entries)
      ensures r.Some? <==> Sweepable(old(cases), routing, now)
      ensures cases == if r.Some? then Sweep(old(cases), routing, now) else old(cases)
      ensures r.Some? ==> r.value == CountsOf(old(cases), now)
    {
      var lists := SelectAllDue(now);
      var ok, counts, moved := SweepLists(lists, routing, now);
      if !ok {
        Rollback();
        return None;
      }
      if moved > 0 {
        Commit();
      }
      return Some(SweepCounts(counts[0], counts[1], counts[2], counts[3], counts[4]));
    }

    method RunTimeoutJobs(routing: Routing, now: Time) returns (r: Option<SweepCounts>)
      requires Valid()
      modifies this, ledger
      ensures Valid() && missed == old(missed)
      ensures Snapshot() == Next(old(Snapshot()), RunTimeouts(routing, now))
      ensures r.Some? <==> Sweepable(old(cases), routing, now)
      ensures r.Some? ==> r.value == CountsOf(old(cases), now)
    {
      NextKeeps(Snapshot(), RunTimeouts(routing, now));
      r := SweepAndCommit(routing, now);
    }
  }
}
