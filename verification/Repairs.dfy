/** The two one-off repairs, on arbitrary rows: return cases whose dispute stayed open behind a moved
    transaction, and escrows whose funding never reached the ledger. */
module Repairs {
  import opened Domain
  import opened Ledger
  import opened RepairRules
  import opened Market
  import opened MarketRuns

  // ----- stranded return cases

  /** No reachable state has a stranded case. */
  lemma {:induction false} NothingStranded(steps: seq<Step>)
    ensures StrandedCases(Run(steps).cases) == []
  {
    RunsKeepInv(steps);
    RepairsFindNothing(Run(steps), 0);
  }

  /** On arbitrary rows, a repair that was applied leaves exactly the cases a person has to look at. */
  lemma {:induction false} SecondRepairOnlyReviews(cases: seq<Case>, now: Time, s: Stranded)
    ensures s in StrandedCases(RepairedCases(cases, now)) <==> s in StrandedCases(cases) && s.action.ReviewIt?
  {
    StrandedMembers(cases);
    StrandedMembers(RepairedCases(cases, now));
  }

  /** The repair never touches a transaction, its money, or any dispute it has no rule for; an
      escalated case becomes one an admin can decide. */
  lemma {:induction false} RepairIsConfined(c: Case, now: Time)
    ensures var r := Repaired(c, now);
            && r == c.(disputes := r.disputes) && |r.disputes| == |c.disputes|
            && (forall i :: 0 <= i < |c.disputes| - 1 ==> r.disputes[i] == c.disputes[i])
            && (r != c ==> OpenDispute(LatestDispute(c).value.status) && StrandedAction(r).None?)
            && (StrandedAction(c) == Some(EscalateIt) ==> LatestDispute(r).value.status.DisputeEscalated?)
  {
  }

  // ----- funding that never reached the ledger

  lemma {:induction false} GapMembers(cases: seq<Case>, entries: Entries)
    ensures forall g :: g in Gaps(cases, entries) <==> g.id < |cases| && GapOf(g.id, cases[g.id], entries) == Some(g)
    ensures forall i, j :: 0 <= i < j < |Gaps(cases, entries)| ==>
            Gaps(cases, entries)[i].id < Gaps(cases, entries)[j].id
    decreases |cases|
  {
    if cases != [] {
      var n := |cases| - 1;
      GapMembers(cases[..n], entries);
      forall i | 0 <= i < |Gaps(cases[..n], entries)|
        ensures Gaps(cases[..n], entries)[i].id < n
      {
        assert Gaps(cases[..n], entries)[i] in Gaps(cases[..n], entries);
      }
    }
  }

  /** The escrows a repair tops up: under-posted, with their repair key never used. */
  predicate Repairable(entries: Entries, gap: Gap) {
    gap.action.PostIt? && !Used(entries, RepairFunding(gap.id))
  }

  /** Repair keys are only ever used by the escrow they name. */
  predicate RepairKeysOwn(entries: Entries) {
    forall i :: 0 <= i < |entries| && entries[i].key.RepairFunding? ==> entries[i].key.id == entries[i].escrow
  }

  ghost predicate GapsOf(gaps: seq<Gap>, entries: Entries) {
    && (forall i :: 0 <= i < |gaps| ==>
         gaps[i].onLedger == Held(entries, gaps[i].id, Debit) &&
         (gaps[i].action.PostIt? <==> gaps[i].onLedger < gaps[i].funded))
    && (forall i, j :: 0 <= i < j < |gaps| ==> gaps[i].id < gaps[j].id)
  }

  function ToppedUp(entries: Entries, gaps: seq<Gap>, id: TxId): int {
    if gaps == [] then Held(entries, id, Debit)
    else
      var gap := gaps[|gaps| - 1];
      if gap.id == id && Repairable(entries, gap) then gap.funded else ToppedUp(entries, gaps[..|gaps| - 1], id)
  }

  /** What a run does to every escrow's held account and to every repair key. */
  ghost predicate RepairEffect(entries: Entries, gaps: seq<Gap>, after: Entries) {
    && Sound(after) && RepairKeysOwn(after)
    && (forall id: TxId ::
         Held(after, id, Debit) == ToppedUp(entries, gaps, id) && Held(after, id, Credit) == Held(entries, id, Credit))
    && (forall id: TxId :: (forall g <- gaps :: g.id != id) ==>
         (Used(after, RepairFunding(id)) <==> Used(entries, RepairFunding(id))))
  }

  lemma {:induction false} UntouchedIds(entries: Entries, gaps: seq<Gap>, id: TxId)
    requires forall g <- gaps :: g.id != id
    ensures ToppedUp(entries, gaps, id) == Held(entries, id, Debit)
  {
    if gaps != [] {
      assert gaps[|gaps| - 1] in gaps;
      UntouchedIds(entries, gaps[..|gaps| - 1], id);
    }
  }

  lemma {:induction false} PostRepairHeld(entries: Entries, gaps: seq<Gap>, before: Entries, gap: Gap, id: TxId)
    requires RepairEffect(entries, gaps, before) && gap.action.PostIt?
    requires forall g <- gaps :: g.id != gap.id
    requires gap.onLedger == Held(entries, gap.id, Debit) < gap.funded
    ensures var after := Post(before, RepairMovement(gap));
            && Held(after, id, Debit) == ToppedUp(entries, gaps + [gap], id)
            && Held(after, id, Credit) == Held(entries, id, Credit)
  {
    PostDecision(before, RepairMovement(gap));
    UntouchedIds(entries, gaps, gap.id);
    PostedHeld(before, RepairMovement(gap), id);
    assert (gaps + [gap])[..|gaps|] == gaps;
  }

  lemma {:induction false} PostRepairKey(entries: Entries, gaps: seq<Gap>, before: Entries, gap: Gap, id: TxId)
    requires RepairEffect(entries, gaps, before) && forall g <- gaps + [gap] :: g.id != id
    ensures Used(Post(before, RepairMovement(gap)), RepairFunding(id)) <==> Used(entries, RepairFunding(id))
  {
    assert gap in gaps + [gap] && forall g <- gaps :: g in gaps + [gap];
    PostedUses(before, RepairMovement(gap), RepairFunding(id));
  }

  lemma {:induction false} PostRepair(entries: Entries, gaps: seq<Gap>, before: Entries, gap: Gap)
    requires RepairEffect(entries, gaps, before) && gap.action.PostIt?
    requires forall g <- gaps :: g.id < gap.id
    requires gap.onLedger == Held(entries, gap.id, Debit) < gap.funded
    ensures var m := RepairMovement(gap);
            && !PostOutcome(before, m).Refused?
            && RepairEffect(entries, gaps + [gap], Post(before, m))
  {
    var m := RepairMovement(gap);
    PostDecision(before, m);
    PostKeepsSound(before, m);
    var after := Post(before, m);
    forall id: TxId
      ensures Held(after, id, Debit) == ToppedUp(entries, gaps + [gap], id)
      ensures Held(after, id, Credit) == Held(entries, id, Credit)
    {
      PostRepairHeld(entries, gaps, before, gap, id);
    }
    forall id: TxId | forall g <- gaps + [gap] :: g.id != id
      ensures Used(after, RepairFunding(id)) <==> Used(entries, RepairFunding(id))
    {
      PostRepairKey(entries, gaps, before, gap, id);
    }
  }

  lemma {:induction false} SkipRepair(entries: Entries, gaps: seq<Gap>, before: Entries, gap: Gap)
    requires RepairEffect(entries, gaps, before) && !gap.action.PostIt?
    ensures RepairEffect(entries, gaps + [gap], before)
  {
    assert (gaps + [gap])[..|gaps|] == gaps;
    assert forall g <- gaps :: g in gaps + [gap];
  }

  /** A repair run never raises, keeps the ledger sound, tops up exactly the repairable escrows, and
      leaves every credit alone. */
  lemma {:induction false} RepairRuns(entries: Entries, gaps: seq<Gap>)
    requires Sound(entries) && RepairKeysOwn(entries) && GapsOf(gaps, entries)
    ensures RepairedLedger(entries, gaps).Some?
    ensures RepairEffect(entries, gaps, RepairedLedger(entries, gaps).value)
  {
    if gaps != [] {
      var n := |gaps| - 1;
      GapsOfPrefix(entries, gaps);
      RepairRuns(entries, gaps[..n]);
      RepairOneMore(entries, gaps[..n], RepairedLedger(entries, gaps[..n]).value, gaps[n]);
    }
  }

  lemma {:induction false} GapsOfPrefix(entries: Entries, gaps: seq<Gap>)
    requires gaps != [] && GapsOf(gaps, entries)
    ensures var n := |gaps| - 1;
            && gaps == gaps[..n] + [gaps[n]] && GapsOf(gaps[..n], entries)
            && (forall g <- gaps[..n] :: g.id < gaps[n].id)
            && gaps[n].onLedger == Held(entries, gaps[n].id, Debit)
            && (gaps[n].action.PostIt? <==> gaps[n].onLedger < gaps[n].funded)
  {
  }

  lemma {:induction false} RepairOneMore(entries: Entries, gaps: seq<Gap>, before: Entries, gap: Gap)
    requires RepairEffect(entries, gaps, before) && forall g <- gaps :: g.id < gap.id
    requires gap.onLedger == Held(entries, gap.id, Debit) && (gap.action.PostIt? <==> gap.onLedger < gap.funded)
    ensures gap.action.PostIt? ==>
              && !PostOutcome(before, RepairMovement(gap)).Refused?
              && RepairEffect(entries, gaps + [gap], Post(before, RepairMovement(gap)))
    ensures !gap.action.PostIt? ==> RepairEffect(entries, gaps + [gap], before)
  {
    if gap.action.PostIt? {
      PostRepair(entries, gaps, before, gap);
    } else {
      SkipRepair(entries, gaps, before, gap);
    }
  }

  lemma {:induction false} ToppedUpIs(entries: Entries, gaps: seq<Gap>, gap: Gap)
    requires gap in gaps && forall i, j :: 0 <= i < j < |gaps| ==> gaps[i].id < gaps[j].id
    ensures ToppedUp(entries, gaps, gap.id) ==
            if Repairable(entries, gap) then gap.funded else Held(entries, gap.id, Debit)
  {
    var n := |gaps| - 1;
    if gaps[n] == gap {
      forall g | g in gaps[..n]
        ensures g.id != gap.id
      {
        var i :| 0 <= i < n && gaps[i] == g;
      }
      UntouchedIds(entries, gaps[..n], gap.id);
    } else {
      var i :| 0 <= i < |gaps| && gaps[i] == gap;
      assert i < n && gaps[..n][i] == gap;
      ToppedUpIs(entries, gaps[..n], gap);
    }
  }

  /** One run restores the equality of debits and funding for an escrow if and only if it had it
      already or was under-posted with its repair key unused. An over-posted escrow, and one whose key
      was used before, keep their gap: the second is the price of replays that ignore the amount. */
  lemma {:induction false} RepairRestoresEquality(cases: seq<Case>, entries: Entries, id: TxId)
    requires Sound(entries) && RepairKeysOwn(entries)
    requires id < |cases| && cases[id].escrow.Some? && cases[id].escrow.value.funded > 0
    ensures var r := RepairedLedger(entries, Gaps(cases, entries));
            var funded, onLedger := cases[id].escrow.value.funded, Held(entries, id, Debit);
            && r.Some? && Sound(r.value)
            && Held(r.value, id, Credit) == Held(entries, id, Credit)
            && (Held(r.value, id, Debit) == funded <==>
                 onLedger == funded || (onLedger < funded && !Used(entries, RepairFunding(id))))
            && (onLedger > funded ==> Held(r.value, id, Debit) == onLedger)
  {
    var gaps := Gaps(cases, entries);
    GapMembers(cases, entries);
    forall i | 0 <= i < |gaps|
      ensures gaps[i].onLedger == Held(entries, gaps[i].id, Debit)
      ensures gaps[i].action.PostIt? <==> gaps[i].onLedger < gaps[i].funded
    {
      assert gaps[i] in gaps;
    }
    RepairRuns(entries, gaps);
    var gap := GapOf(id, cases[id], entries);
    if gap.Some? {
      assert gap.value in gaps;
      ToppedUpIs(entries, gaps, gap.value);
    } else {
      UntouchedIds(entries, gaps, id);
    }
  }

  /** No reachable state has a gap, so the repair posts nothing there. */
  lemma {:induction false} NoGaps(steps: seq<Step>)
    ensures Gaps(Run(steps).cases, Run(steps).entries) == []
  {
    RunsKeepInv(steps);
    RepairsFindNothing(Run(steps), 0);
  }

  /** One cent posted under escrow 0's repair key. */
  function OneCent(): Movement {
    Movement(0, RepairFunding(0), 1, EscrowHeld, BuyerClearing)
  }

  lemma {:induction false} FirstPosted(none: Entries, m: Movement)
    requires none == [] && m == OneCent()
    ensures Post(none, m) == Legs(m) && Sound(Legs(m)) && Used(Legs(m), m.key) && Held(Legs(m), m.escrow, Debit) == 1
  {
    NothingIsSound();
    PostDecision(none, m);
    PostKeepsSound(none, m);
    PostedHeld(none, m, m.escrow);
    PostedUses(none, m, m.key);
    assert none + Legs(m) == Legs(m);
  }

  lemma {:induction false} OneCentPosted()
    ensures var entries := Post([], OneCent());
            Sound(entries) && RepairKeysOwn(entries) && Held(entries, 0, Debit) == 1 && Used(entries, RepairFunding(0))
    ensures forall e <- Post([], OneCent()) :: e.escrow == 0
  {
    FirstPosted([], OneCent());
  }

  /** The repair's replays ignore the amount: with one cent posted under an escrow's repair key, for
      whatever reason, the rest of its funding is never posted. */
  lemma {:induction false} UsedRepairKeyKeepsGap(c: Case)
    requires c.escrow.Some? && c.escrow.value.funded > 1
    ensures var entries := Post([], OneCent());
            && Sound(entries) && RepairKeysOwn(entries) && Held(entries, 0, Debit) == 1
            && Gaps([c], entries) == [Gap(0, c.escrow.value.funded, 1, PostIt)]
            && RepairedLedger(entries, Gaps([c], entries)) == Some(entries)
  {
    OneCentPosted();
    var entries, gap := Post([], OneCent()), Gap(0, c.escrow.value.funded, 1, PostIt);
    OneGap(c, entries, gap);
    PostDecision(entries, RepairMovement(gap));
    RepairStep(entries, [gap], 0);
    assert [gap][..1] == [gap] && [gap][..0] == [];
  }

  lemma {:induction false} OneGap(c: Case, entries: Entries, gap: Gap)
    requires GapOf(0, c, entries) == Some(gap)
    ensures Gaps([c], entries) == [gap]
  {
    assert [c][..0] == [];
    assert Gaps([], entries) == [];
  }

  // ----- the code

  /** The first n listed cases are repaired, the others as they were. */
  ghost predicate RepairedSome(before: seq<Case>, cases: seq<Case>, found: seq<Stranded>, n: nat, now: Time) {
    && |cases| == |before|
    && forall id: nat :: id < |before| ==>
         cases[id] == if ListedBefore(found, n, id) then Repaired(before[id], now) else before[id]
  }

  ghost predicate ListedBefore(found: seq<Stranded>, n: nat, id: TxId) {
    exists j :: 0 <= j < n && j < |found| && found[j].id == id
  }

  lemma {:induction false} RepairedOneMore(before: seq<Case>, was: seq<Case>, cases: seq<Case>, found: seq<Stranded>,
        n: nat, now: Time)
    requires n < |found| && RepairedSome(before, was, found, n, now)
    requires found[n].id < |before| && !ListedBefore(found, n, found[n].id)
    requires cases == was[found[n].id := Repaired(was[found[n].id], now)]
    ensures RepairedSome(before, cases, found, n + 1, now)
  {
    forall id: nat | id < |before|
      ensures ListedBefore(found, n + 1, id) <==> ListedBefore(found, n, id) || id == found[n].id
    {
    }
  }

  /** Cases that are not listed are their own repair. */
  lemma {:induction false} AllRepaired(before: seq<Case>, cases: seq<Case>, now: Time)
    requires RepairedSome(before, cases, StrandedCases(before), |StrandedCases(before)|, now)
    ensures cases == RepairedCases(before, now)
  {
    StrandedMembers(before);
    forall id: nat | id < |before|
      ensures cases[id] == Repaired(before[id], now)
    {
      var action := StrandedAction(before[id]);
      if action.Some? {
        assert Stranded(id, action.value) in StrandedCases(before);
      }
    }
  }

  lemma {:induction false} RepairStep(entries: Entries, gaps: seq<Gap>, i: nat)
    requires i < |gaps|
    ensures var before, gap := RepairedLedger(entries, gaps[..i]), gaps[i];
            RepairedLedger(entries, gaps[..i + 1]) ==
            if before.None? || !gap.action.PostIt? then before
            else if PostOutcome(before.value, RepairMovement(gap)).Refused? then None
            else Some(Post(before.value, RepairMovement(gap)))
  {
    assert gaps[..i + 1][..i] == gaps[..i];
  }

  class RepairSession {
    var cases: seq<Case>
    const ledger: EscrowLedger

    constructor (cases: seq<Case>, ledger: EscrowLedger)
      ensures this.cases == cases && this.ledger == ledger
    {
      this.cases := cases;
      this.ledger := ledger;
    }

    method FindStrandedReturnCases() returns (found: seq<Stranded>)
      ensures found == StrandedCases(cases)
    {
      found := [];
      for i := 0 to |cases|
        invariant found == StrandedCases(cases[..i])
      {
        assert cases[..i + 1][..i] == cases[..i];
        var c := cases[i];
        if Stuck(c.tx.status) && c.disputes != [] && OpenDispute(LatestDispute(c).value.status) {
          var action := if c.tx.status.EscalatedAdminReview? then EscalateIt
                        else if c.tx.status.Released? then CloseIt else ReviewIt;
          found := found + [Stranded(i, action)];
        }
      }
      assert cases[..|cases|] == cases;
    }

    /** Escalates or closes the newest dispute of one stranded case, or leaves it for review. */
    method RepairCase(s: Stranded, now: Time)
      requires s.id < |cases| && StrandedAction(cases[s.id]) == Some(s.action)
      modifies this`cases
      ensures cases == old(cases)[s.id := Repaired(old(cases)[s.id], now)]
    {
      var c := cases[s.id];
      var d := LatestDispute(c).value;
      match s.action
      case EscalateIt =>
        d := d.(status := DisputeEscalated, escalatedAt := KeepFirst(d.escalatedAt, now));
        cases := cases[s.id := WithLatestDispute(c, d)];
      case CloseIt =>
        d := d.(status := Canceled, resolvedAt := KeepFirst(d.resolvedAt, now));
        cases := cases[s.id := WithLatestDispute(c, d)];
      case ReviewIt =>
    }

    /** Lists the stranded cases and, when told to apply, repairs each. */
    method RepairStrandedReturnCases(apply: bool, now: Time) returns (found: seq<Stranded>)
      modifies this`cases
      ensures found == StrandedCases(old(cases))
      ensures cases == if apply then RepairedCases(old(cases), now) else old(cases)
    {
      found := FindStrandedReturnCases();
      if !apply {
        return;
      }
      StrandedMembers(cases);
      for i := 0 to |found|
        invariant RepairedSome(old(cases), cases, found, i, now)
      {
        assert found[i] in found;
        ghost var was := cases;
        RepairCase(found[i], now);
        RepairedOneMore(old(cases), was, cases, found, i, now);
      }
      AllRepaired(old(cases), cases, now);
    }

    method FindFundingGaps() returns (gaps: seq<Gap>)
      ensures gaps == Gaps(cases, ledger.entries)
    {
      gaps := [];
      for i := 0 to |cases|
        invariant gaps == Gaps(cases[..i], ledger.entries)
      {
        assert cases[..i + 1][..i] == cases[..i];
        var gap := GapOf(i, cases[i], ledger.entries);
        if gap.Some? {
          gaps := gaps + [gap.value];
        }
      }
      assert cases[..|cases|] == cases;
    }

    /** Posts one gap's difference, if it is one to post. */
    method RepairGap(gap: Gap) returns (refused: bool)
      modifies ledger
      ensures refused <==> gap.action.PostIt? && PostOutcome(old(ledger.entries), RepairMovement(gap)).Refused?
      ensures ledger.entries ==
              if gap.action.PostIt? then Post(old(ledger.entries), RepairMovement(gap)) else old(ledger.entries)
    {
      if !gap.action.PostIt? {
        return false;
      }
      var result := ledger.PostMovement(RepairMovement(gap));
      return result.Refused?;
    }

    /** Lists the gaps and, when told to apply, posts each missing difference. A posting that raises
        undoes the whole run. */
    method RepairFundingLedger(apply: bool) returns (gaps: seq<Gap>, raised: bool)
      modifies ledger
      ensures gaps == Gaps(cases, old(ledger.entries))
      ensures raised <==> apply && RepairedLedger(old(ledger.entries), gaps).None?
      ensures ledger.entries ==
              if apply && !raised then RepairedLedger(old(ledger.entries), gaps).value else old(ledger.entries)
    {
      var committed := ledger.entries;
      gaps := FindFundingGaps();
      raised := false;
      if !apply {
        return;
      }
      for i := 0 to |gaps|
        invariant RepairedLedger(committed, gaps[..i]) == Some(ledger.entries)
      {
        RepairStep(committed, gaps, i);
        var refused := RepairGap(gaps[i]);
        if refused {
          RepairStops(committed, gaps, i + 1);
          ledger.entries := committed;
          return gaps, true;
        }
      }
      assert gaps[..|gaps|] == gaps;
    }
  }

  lemma {:induction false} RepairStops(entries: Entries, gaps: seq<Gap>, n: nat)
    requires n <= |gaps| && RepairedLedger(entries, gaps[..n]).None?
    ensures RepairedLedger(entries, gaps).None?
    decreases |gaps|
  {
    if n < |gaps| {
      assert gaps[..|gaps| - 1][..n] == gaps[..n];
      RepairStops(entries, gaps[..|gaps| - 1], n);
    } else {
      assert gaps[..n] == gaps;
    }
  }
}
