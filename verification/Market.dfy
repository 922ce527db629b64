/** The whole marketplace as a transition system: every case, the ledger they share, and every service
    run as one step. A transaction's id is its position in creation order. */
module Market {
  import opened Domain
  import opened Payouts
  import opened Actions
  import opened Ledger
  import opened RepairRules

  datatype World = World(cases: seq<Case>, entries: Entries)

  const EMPTY := World([], [])

  // ----- creation and custody

  function NewCase(amount: int, buyer: UserId, seller: UserId, econfirm: bool, now: Time): Case {
    var custody := if econfirm then Econfirm else Simulated;
    var tx := Tx(amount, buyer, seller, AwaitingPayment, NotRequired, custody,
                 None, None, None, None, None, now);
    // Until the open call returns, the escrow may or may not exist at eConfirm, so it starts flagged.
    var escrow := if econfirm then Some(Escrow(amount, 0, 0, 0, Econfirm, None, true, now)) else None;
    Case(tx, [], escrow, [], [], if econfirm then AwaitingOpen else Finished, [])
  }

  /** A listing may be missing, or sold or archived. */
  datatype ListingState = MissingListing | OffSale | OnSale

  /** What the creating call checks: the caller's role, the listing, the amount, and the row's own
      constraints. */
  function CreateRefused(buyer: User, seller: UserId, listing: ListingState, price: int,
        asked: Option<int>): Option<Refusal> {
    if !buyer.role.Buyer? then Some(Invalid)
    else if listing.MissingListing? then Some(NotFound)
    else if listing.OffSale? then Some(Invalid)
    else if asked.Some? && asked.value != price then Some(Invalid)
    else if price <= 0 || buyer.id == seller then Some(Invalid)
    else None
  }

  datatype OpenAnswer = Opened(reference: string) | OpenUnclear | OpenRejected

  /** Opening the escrow at eConfirm: kept and flagged when the answer is unclear, moved to simulated
      custody when it was definitely rejected. */
  function OpenReturned(c: Case, answer: OpenAnswer, now: Time): Case {
    if !c.opening.AwaitingOpen? || c.escrow.None? then c
    else
      var e := c.escrow.value;
      match answer
      case Opened(reference) =>
        c.(escrow := Some(e.(custody := Econfirm, reference := Some(reference), needsReconciliation := false)),
           opening := AwaitingPrompt)
      case OpenUnclear =>
        c.(escrow := Some(e.(custody := Econfirm, reference := None, needsReconciliation := true)), opening := Finished)
      case OpenRejected =>
        c.(escrow := Some(e.(custody := Simulated)), tx := c.tx.(custody := Simulated, updatedAt := now),
           opening := Finished)
  }

  /** Whether request_econfirm_funding sends a prompt rather than raising. */
  predicate ReadyForPrompt(c: Case) {
    && c.escrow.Some? && c.escrow.value.custody.Econfirm? && c.escrow.value.reference.Some?
    && !c.escrow.value.needsReconciliation
  }

  function Prompted(c: Case): Case
    requires c.escrow.Some?
  {
    var e := c.escrow.value;
    c.(prompts := c.prompts + [Prompt(e.custody, e.reference, e.needsReconciliation)])
  }

  function PromptRequested(c: Case): Case {
    if !c.opening.AwaitingPrompt? then c
    else if !ReadyForPrompt(c) then c.(opening := Finished)
    else Prompted(c).(opening := Finished)
  }

  /** Whether the buyer's request for another prompt sends one through eConfirm: the row is theirs, still
      unpaid and on eConfirm, the cooldown is over, and the escrow is ready. */
  predicate ResendPrompts(c: Case, buyer: UserId, tooSoon: bool) {
    c.tx.buyer == buyer && c.tx.status.AwaitingPayment? && !tooSoon && c.tx.custody.Econfirm? && ReadyForPrompt(c)
  }

  function PromptResent(c: Case, buyer: UserId, tooSoon: bool): Case {
    if ResendPrompts(c, buyer, tooSoon) then Prompted(c) else c
  }

  // ----- funding

  function FundingMovement(id: TxId, e: Escrow, key: Key): Movement {
    Movement(id, key, e.total - e.funded, EscrowHeld, BuyerClearing)
  }

  /** post_escrow_funding: the movement for whatever is not funded yet, and funded_amount with it. */
  function Funded(id: TxId, c: Case, entries: Entries, key: Key): (Case, Entries) {
    if c.escrow.None? then (c, entries)
    else
      var e := c.escrow.value;
      var m := FundingMovement(id, e, key);
      if e.total - e.funded <= 0 || !PostOutcome(entries, m).Posted? then (c, entries)
      else (c.(escrow := Some(e.(funded := e.total))), Post(entries, m))
  }

  function LockedNow(c: Case, now: Time): Case {
    var moved := Moved(c, Locked, now);
    moved.(tx := moved.tx.(lockedAt := Some(now)))
  }

  /** The ledger refuses the funding, so the service raises. */
  predicate FundingRaises(id: TxId, c: Case, entries: Entries, key: Key) {
    && c.escrow.Some? && c.escrow.value.total - c.escrow.value.funded > 0
    && PostOutcome(entries, FundingMovement(id, c.escrow.value, key)).Refused?
  }

  /** A successful callback for a transaction that awaits a simulated payment. */
  predicate CallbackLocks(c: Case, resultCode: int) {
    !c.tx.custody.Econfirm? && resultCode == 0 && c.tx.status.AwaitingPayment?
  }

  function LockedWithEscrow(c: Case, now: Time): Case {
    var locked := LockedNow(c, now);
    locked.(escrow := Some(EscrowOrNew(locked, now)))
  }

  predicate CallbackRaises(id: TxId, c: Case, entries: Entries, resultCode: int, production: bool, now: Time) {
    && CallbackLocks(c, resultCode) && !production
    && FundingRaises(id, LockedWithEscrow(c, now), entries, CallbackFunding(id))
  }

  /** A payment callback. It never locks an eConfirm transaction, and it records funding only outside
      production. */
  function CalledBack(id: TxId, c: Case, entries: Entries, resultCode: int, production: bool,
        now: Time): (Case, Entries) {
    if !CallbackLocks(c, resultCode) || CallbackRaises(id, c, entries, resultCode, production, now) then (c, entries)
    else if production then (LockedNow(c, now), entries)
    else Funded(id, LockedWithEscrow(c, now), entries, CallbackFunding(id))
  }

  predicate Pollable(c: Case) {
    && c.escrow.Some? && c.escrow.value.custody.Econfirm? && c.escrow.value.reference.Some?
    && !c.escrow.value.needsReconciliation && c.escrow.value.funded <= 0
  }

  /** The escrows a poll run selects, oldest first. */
  function PollCandidates(cases: seq<Case>): (ids: seq<TxId>)
    ensures forall i :: 0 <= i < |ids| ==> ids[i] < |cases|
  {
    if cases == [] then []
    else
      var n := |cases| - 1;
      PollCandidates(cases[..n]) + if Pollable(cases[n]) then [n] else []
  }

  /** The oldest of them, up to the run's budget. */
  function PollBatch(cases: seq<Case>, budget: nat): (ids: seq<TxId>)
    ensures forall i :: 0 <= i < |ids| ==> ids[i] < |cases|
  {
    var ids := PollCandidates(cases);
    if |ids| <= budget then ids else ids[..budget]
  }

  /** One polled escrow: funded when the provider says so and it is not past its payment window. */
  function Polled(id: TxId, c: Case, entries: Entries, reported: bool, now: Time, timeout: int): (Case, Entries) {
    if c.escrow.None? || c.escrow.value.createdAt < now - timeout || !reported then (c, entries)
    else
      var (c', entries') := Funded(id, c, entries, EconfirmFunding(id));
      (if c'.tx.status.AwaitingPayment? then LockedNow(c', now) else c', entries')
  }

  // ----- one case at a time

  function WithCase(w: World, id: TxId, r: (Case, Entries)): World
    requires id < |w.cases|
  {
    World(w.cases[id := r.0], r.1)
  }

  predicate PollRaises(id: TxId, c: Case, entries: Entries, reported: bool, now: Time, timeout: int) {
    && c.escrow.Some? && c.escrow.value.createdAt >= now - timeout && reported
    && FundingRaises(id, c, entries, EconfirmFunding(id))
  }

  /** A poll run commits once, at its end; None where it raises before that. */
  function PollAll(w: World, ids: seq<TxId>, reported: set<TxId>, now: Time, timeout: int): (r: Option<World>)
    requires forall i :: 0 <= i < |ids| ==> ids[i] < |w.cases|
    ensures r.Some? ==> |r.value.cases| == |w.cases|
    decreases |ids|
  {
    if ids == [] then Some(w)
    else
      var id := ids[0];
      if PollRaises(id, w.cases[id], w.entries, id in reported, now, timeout) then None
      else
        var next := WithCase(w, id, Polled(id, w.cases[id], w.entries, id in reported, now, timeout));
        PollAll(next, ids[1..], reported, now, timeout)
  }

  datatype Claim = Claim(id: TxId, attempt: nat)

  /** An attempt the executor may claim: one whose outcome is still unknown. */
  predicate Claimable(cases: seq<Case>, claim: Claim) {
    && claim.id < |cases| && claim.attempt < |cases[claim.id].attempts|
    && cases[claim.id].attempts[claim.attempt].outcome.Unknown?
  }

  /** The rows one executor run locks: distinct, unknown, and no more than the batch. */
  predicate ValidClaims(cases: seq<Case>, claims: seq<Claim>, batch: int) {
    && |claims| <= batch
    && (forall i :: 0 <= i < |claims| ==> Claimable(cases, claims[i]))
    && (forall i, j :: 0 <= i < j < |claims| ==> claims[i] != claims[j])
  }

  predicate InRange(cases: seq<Case>, claims: seq<Claim>) {
    forall i :: 0 <= i < |claims| ==> claims[i].id < |cases| && claims[i].attempt < |cases[claims[i].id].attempts|
  }

  function SettleAll(w: World, claims: seq<Claim>, rail: Claim -> RailAnswer): World
    requires InRange(w.cases, claims)
    decreases |claims|
  {
    if claims == [] then w
    else
      var k := claims[0];
      var next := WithCase(w, k.id, Settle(k.id, w.cases[k.id], w.entries, k.attempt, rail(k)));
      SettleAll(next, claims[1..], rail)
  }

  /** One case of a sweep: moved by the rule whose query returns it. */
  function SweepOne(c: Case, routing: Routing, now: Time): Option<Case> {
    var rule := DueRule(c.tx, now);
    if rule.Some? then TimeoutMove(rule.value, c, routing, now) else Some(c)
  }

  predicate Sweepable(cases: seq<Case>, routing: Routing, now: Time) {
    forall i :: 0 <= i < |cases| ==> SweepOne(cases[i], routing, now).Some?
  }

  function Sweep(cases: seq<Case>, routing: Routing, now: Time): (r: seq<Case>)
    requires Sweepable(cases, routing, now)
    ensures |r| == |cases|
  {
    seq(|cases|, i requires 0 <= i < |cases| => SweepOne(cases[i], routing, now).value)
  }

  // ----- steps

  datatype Step =
    | Create(buyer: User, seller: UserId, listing: ListingState, price: int, asked: Option<int>, econfirm: bool,
        now: Time)
    | OpenReturns(id: TxId, answer: OpenAnswer, now: Time)
    | SendPrompt(id: TxId)
    | ResendPrompt(id: TxId, payer: UserId, tooSoon: bool)
    | Callback(id: TxId, resultCode: int, production: bool, now: Time)
    | Poll(reported: set<TxId>, now: Time, timeout: int, budget: nat)
    | Act(id: TxId, user: User, action: Action, routing: Routing, now: Time)
    | RunTimeouts(routing: Routing, now: Time)
    | RunExecutor(claims: seq<Claim>, batch: int, rail: Claim -> RailAnswer)
    | RunReturnRepair(apply: bool, now: Time)
    | RunFundingRepair(apply: bool)

  function Next(w: World, step: Step): World {
    match step
    case Create(buyer, seller, listing, price, asked, econfirm, now) =>
      if CreateRefused(buyer, seller, listing, price, asked).Some? then w
      else w.(cases := w.cases + [NewCase(price, buyer.id, seller, econfirm, now)])
    case OpenReturns(id, answer, now) =>
      if id < |w.cases| then WithCase(w, id, (OpenReturned(w.cases[id], answer, now), w.entries)) else w
    case SendPrompt(id) =>
      if id < |w.cases| then WithCase(w, id, (PromptRequested(w.cases[id]), w.entries)) else w
    case ResendPrompt(id, buyer, tooSoon) =>
      if id < |w.cases| then WithCase(w, id, (PromptResent(w.cases[id], buyer, tooSoon), w.entries)) else w
    case Callback(id, code, production, now) =>
      if id < |w.cases| then WithCase(w, id, CalledBack(id, w.cases[id], w.entries, code, production, now)) else w
    case Poll(reported, now, timeout, budget) =>
      var polled := PollAll(w, PollBatch(w.cases, budget), reported, now, timeout);
      if polled.Some? then polled.value else w
    case Act(id, user, action, routing, now) =>
      if id < |w.cases| then WithCase(w, id, (Perform(w.cases[id], user, action, routing, now).c, w.entries)) else w
    case RunTimeouts(routing, now) =>
      if Sweepable(w.cases, routing, now) then w.(cases := Sweep(w.cases, routing, now)) else w
    case RunExecutor(claims, batch, rail) =>
      if ValidClaims(w.cases, claims, batch) then SettleAll(w, claims, rail) else w
    case RunReturnRepair(apply, now) =>
      if apply then w.(cases := RepairedCases(w.cases, now)) else w
    case RunFundingRepair(apply) =>
      var repaired := RepairedLedger(w.entries, Gaps(w.cases, w.entries));
      if apply && repaired.Some? then w.(entries := repaired.value) else w
  }

  function Run(steps: seq<Step>): World {
    if steps == [] then EMPTY else Next(Run(steps[..|steps| - 1]), steps[|steps| - 1])
  }
}
