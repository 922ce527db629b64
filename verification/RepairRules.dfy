/** What the two one-off repairs look for and change, on arbitrary rows. */
module RepairRules {
  import opened Domain
  import opened Ledger

  // ----- stranded return cases

  datatype RepairAction = EscalateIt | CloseIt | ReviewIt

  datatype Stranded = Stranded(id: TxId, action: RepairAction)

  /** States in which an open dispute can no longer move on by itself. */
  predicate Stuck(s: Status) {
    s.EscalatedAdminReview? || Terminal(s)
  }

  function StrandedAction(c: Case): Option<RepairAction> {
    var d := LatestDispute(c);
    if !Stuck(c.tx.status) || d.None? || !OpenDispute(d.value.status) then None
    else if c.tx.status.EscalatedAdminReview? then Some(EscalateIt)
    else if c.tx.status.Released? then Some(CloseIt)
    else Some(ReviewIt)
  }

  function StrandedCases(cases: seq<Case>): seq<Stranded> {
    if cases == [] then []
    else
      var n := |cases| - 1;
      var action := StrandedAction(cases[n]);
      StrandedCases(cases[..n]) + if action.Some? then [Stranded(n, action.value)] else []
  }

  function KeepFirst(was: Option<Time>, now: Time): Option<Time> {
    if was.Some? then was else Some(now)
  }

  /** The repair of one case: only its newest dispute changes, and only when there is a rule for it. */
  function Repaired(c: Case, now: Time): Case {
    var action := StrandedAction(c);
    if action == Some(EscalateIt) then
      var d := LatestDispute(c).value;
      WithLatestDispute(c, d.(status := DisputeEscalated, escalatedAt := KeepFirst(d.escalatedAt, now)))
    else if action == Some(CloseIt) then
      var d := LatestDispute(c).value;
      WithLatestDispute(c, d.(status := Canceled, resolvedAt := KeepFirst(d.resolvedAt, now)))
    else c
  }

  /** The repair of return cases, state by state: behind an escalated transaction a dispute in progress is
      escalated, behind a released one it is canceled, behind any other final one it is listed for review and
      left alone. Times that are already there stay. */
  lemma {:induction false} RepairIs(c: Case, d: Dispute, now: Time)
    requires c.disputes != [] && c.disputes[|c.disputes| - 1] == d
    ensures var open := d.status in {Open, BuyerSentBack, DisputeReturnReceived, AwaitingReconfirmation};
            var s := c.tx.status;
            && StrandedAction(c) ==
               (if !open then None
                else if s.EscalatedAdminReview? then Some(EscalateIt)
                else if s.Released? then Some(CloseIt)
                else if s in {RefundedBuyer, ResolvedRelease, ResolvedRefund, ResolvedSplit} then Some(ReviewIt)
                else None)
            && Repaired(c, now) ==
               (if open && s.EscalatedAdminReview? then
                  c.(disputes := c.disputes[|c.disputes| - 1 := d.(
                       status := DisputeEscalated,
                       escalatedAt := if d.escalatedAt.Some? then d.escalatedAt else Some(now))])
                else if open && s.Released? then
                  c.(disputes := c.disputes[|c.disputes| - 1 := d.(
                       status := Canceled, resolvedAt := if d.resolvedAt.Some? then d.resolvedAt else Some(now))])
                else c)
  {
  }

  function RepairedCases(cases: seq<Case>, now: Time): (r: seq<Case>)
    ensures |r| == |cases|
  {
    seq(|cases|, i requires 0 <= i < |cases| => Repaired(cases[i], now))
  }

  lemma {:induction false} StrandedMembers(cases: seq<Case>)
    ensures forall s :: s in StrandedCases(cases) <==> s.id < |cases| && StrandedAction(cases[s.id]) == Some(s.action)
    ensures forall i, j :: 0 <= i < j < |StrandedCases(cases)| ==>
            StrandedCases(cases)[i].id < StrandedCases(cases)[j].id
    decreases |cases|
  {
    if cases != [] {
      var n := |cases| - 1;
      StrandedMembers(cases[..n]);
      forall i | 0 <= i < |StrandedCases(cases[..n])|
        ensures StrandedCases(cases[..n])[i].id < n
      {
        assert StrandedCases(cases[..n])[i] in StrandedCases(cases[..n]);
      }
    }
  }

  lemma {:induction false} NoneStranded(cases: seq<Case>)
    requires forall i :: 0 <= i < |cases| ==> StrandedAction(cases[i]).None?
    ensures StrandedCases(cases) == []
    decreases |cases|
  {
    if cases != [] {
      NoneStranded(cases[..|cases| - 1]);
    }
  }

  // ----- funding that never reached the ledger

  datatype GapAction = PostIt | ReviewGap

  datatype Gap = Gap(id: TxId, funded: int, onLedger: int, action: GapAction)

  /** A funded escrow whose held debits differ from its funding. */
  function GapOf(id: TxId, c: Case, entries: Entries): Option<Gap> {
    if c.escrow.None? || c.escrow.value.funded <= 0 then None
    else
      var funded, onLedger := c.escrow.value.funded, Held(entries, id, Debit);
      if onLedger == funded then None
      else Some(Gap(id, funded, onLedger, if onLedger < funded then PostIt else ReviewGap))
  }

  function Gaps(cases: seq<Case>, entries: Entries): seq<Gap> {
    if cases == [] then []
    else
      var n := |cases| - 1;
      var gap := GapOf(n, cases[n], entries);
      Gaps(cases[..n], entries) + if gap.Some? then [gap.value] else []
  }

  function RepairMovement(gap: Gap): Movement {
    Movement(gap.id, RepairFunding(gap.id), gap.funded - gap.onLedger, EscrowHeld, BuyerClearing)
  }

  /** The ledger after the repair; None where a posting raises, which undoes the run. */
  function RepairedLedger(entries: Entries, gaps: seq<Gap>): Option<Entries> {
    if gaps == [] then Some(entries)
    else
      var before := RepairedLedger(entries, gaps[..|gaps| - 1]);
      var gap := gaps[|gaps| - 1];
      if before.None? || !gap.action.PostIt? then before
      else if PostOutcome(before.value, RepairMovement(gap)).Refused? then None
      else Some(Post(before.value, RepairMovement(gap)))
  }

  /** The repair of the ledger, gap by gap: a funded escrow whose held debits differ from its funding is a gap,
      posted when they fall short and listed when they exceed it; under an unused key the missing amount is
      debited to the held account and credited to the buyer's clearing account. */
  lemma {:induction false} FundingRepairIs(id: TxId, c: Case, entries: Entries, e: Escrow)
    requires c.escrow == Some(e)
    ensures var held := TotalIn(entries, id, EscrowHeld, Debit);
            && GapOf(id, c, entries) ==
               (if e.funded <= 0 || held == e.funded then None
                else Some(Gap(id, e.funded, held, if held < e.funded then PostIt else ReviewGap)))
            && (0 < e.funded && held < e.funded && EntriesUnder(entries, RepairFunding(id)) == [] ==>
                 RepairedLedger(entries, [GapOf(id, c, entries).value]) ==
                 Some(entries + [LedgerEntry(id, RepairFunding(id), EscrowHeld, Debit, e.funded - held),
                                 LedgerEntry(id, RepairFunding(id), BuyerClearing, Credit, e.funded - held)]))
            && (0 < e.funded < held ==> RepairedLedger(entries, [GapOf(id, c, entries).value]) == Some(entries))
  {
    HeldIsTotal(entries, id, Debit);
    var gap := GapOf(id, c, entries);
    if gap.Some? {
      assert [gap.value][..0] == [];
      assert RepairedLedger(entries, []) == Some(entries);
    }
  }

  lemma {:induction false} NoneMissing(cases: seq<Case>, entries: Entries)
    requires forall id :: 0 <= id < |cases| ==> GapOf(id, cases[id], entries).None?
    ensures Gaps(cases, entries) == []
    decreases |cases|
  {
    if cases != [] {
      NoneMissing(cases[..|cases| - 1], entries);
    }
  }
}
