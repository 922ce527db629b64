/** Every run of the event log keeps every chain linear. */
module RecorderProofs {
  import opened Hashing
  import opened Chain
  import opened Recorder
  import Canonical

  // ----- chains depend only on their own rows

  ghost predicate SameRows(a: Rows, b: Rows, c: ChainKey) {
    && (forall i <- a :: a[i].chain == c ==> i in b && b[i].chain == c && b[i].link == a[i].link)
    && (forall i <- b :: b[i].chain == c ==> i in a && a[i].chain == c)
  }

  lemma {:induction false} HeadSame(a: Rows, b: Rows, c: ChainKey, n: nat)
    requires SameRows(a, b, c)
    ensures HeadBelow(a, c, n) == HeadBelow(b, c, n)
  {
    if n > 0 {
      HeadSame(a, b, c, n - 1);
    }
  }

  lemma {:induction false} LinkedSame(h: HashFn, a: Rows, b: Rows, c: ChainKey)
    requires SameRows(a, b, c) && Linked(h, a, c)
    ensures Linked(h, b, c)
  {
    forall i: nat
      ensures RowLinked(h, b, c, i)
    {
      assert RowLinked(h, a, c, i);
      HeadSame(a, b, c, i);
    }
  }

  lemma {:induction false} HeadBeyond(rows: Rows, c: ChainKey, n: nat, m: nat)
    requires Below(rows, n) && n <= m
    ensures HeadBelow(rows, c, m) == HeadBelow(rows, c, n)
    decreases m
  {
    if n < m {
      HeadBeyond(rows, c, n, m - 1);
    }
  }

  lemma {:induction false} HeadUnchanged(rows: Rows, c: ChainKey, id: nat, row: Row, n: nat)
    requires n <= id && Below(rows, id)
    ensures HeadBelow(rows[id := row], c, n) == HeadBelow(rows, c, n)
  {
    if n > 0 {
      HeadUnchanged(rows, c, id, row, n - 1);
    }
  }

  /** A row under a fresh id extends its chain and leaves the others alone. */
  lemma {:induction false} AppendRow(h: HashFn, rows: Rows, c: ChainKey, id: nat, row: Row)
    requires Below(rows, id) && Linked(h, rows, c)
    requires row.chain == c ==> Honest(h, row.link) && row.link.prev == HeadBelow(rows, c, id)
    ensures Linked(h, rows[id := row], c)
    ensures HeadBelow(rows[id := row], c, id + 1) == if row.chain == c then row.link.leaf else HeadBelow(rows, c, id)
  {
    var rows' := rows[id := row];
    forall i: nat
      ensures RowLinked(h, rows', c, i)
    {
      assert RowLinked(h, rows, c, i);
      if i <= id {
        HeadUnchanged(rows, c, id, row, i);
      }
    }
    HeadUnchanged(rows, c, id, row, id);
  }

  // ----- unflushed rows

  lemma {:induction false} SkipForeign(h: HashFn, pending: seq<Row>, c: ChainKey, head: Bytes)
    requires forall row <- pending :: row.chain != c
    ensures Continues(h, pending, c, head) && HeadAfter(pending, c, head) == head
  {
    if pending != [] {
      assert pending[0] in pending;
      SkipForeign(h, pending[1..], c, head);
    }
  }

  lemma {:induction false} ContinuesSnoc(h: HashFn, pending: seq<Row>, row: Row, c: ChainKey, head: Bytes)
    requires Continues(h, pending, c, head)
    requires row.chain == c ==> Honest(h, row.link) && row.link.prev == HeadAfter(pending, c, head)
    ensures Continues(h, pending + [row], c, head)
    ensures HeadAfter(pending + [row], c, head) == if row.chain == c then row.link.leaf else HeadAfter(pending, c, head)
  {
    if pending == [] {
      assert pending + [row] == [row];
      assert [row][1..] == [];
    } else {
      assert (pending + [row])[1..] == pending[1..] + [row];
      ContinuesSnoc(h, pending[1..], row, c, if pending[0].chain == c then pending[0].link.leaf else head);
    }
  }

  // ----- each step

  /** The chain recorded on, as the recording session sees it. */
  lemma {:induction false} RecordKeepsChain(h: HashFn, st: Store, s: nat, c: ChainKey, eventType: string,
                         payload: Canonical.Value, salt: Hash32)
    requires Inv(h, st)
    ensures SessionOk(h, RecordStep(h, st, s, c, eventType, payload, salt), s, c)
  {
    var r := RecordStep(h, st, s, c, eventType, payload, salt);
    assert SessionOk(h, st, s, c);
    if r != st {
      var me, rows := SessionOf(st, s), View(st, s);
      var row, head := SessionOf(r, s).pending[|me.pending|], HeadBelow(rows, c, st.nextId);
      assert SessionOf(r, s).pending == me.pending + [row] && View(r, s) == rows;
      if !(c in st.locks && st.locks[c] == s) {
        assert SameRows(st.committed, rows, c);
        LinkedSame(h, st.committed, rows, c);
      }
      if c !in me.heads {
        SkipForeign(h, me.pending, c, head);
      }
      ContinuesSnoc(h, me.pending, row, c, head);
    }
  }

  /** Every other chain it sees. */
  lemma {:induction false} RecordKeepsOthers(h: HashFn, st: Store, s: nat, c: ChainKey, eventType: string,
                          payload: Canonical.Value, salt: Hash32, d: ChainKey)
    requires Inv(h, st) && d != c
    ensures SessionOk(h, RecordStep(h, st, s, c, eventType, payload, salt), s, d)
  {
    var r := RecordStep(h, st, s, c, eventType, payload, salt);
    assert SessionOk(h, st, s, d);
    if r != st {
      var me, rows := SessionOf(st, s), View(st, s);
      var row := SessionOf(r, s).pending[|me.pending|];
      assert SessionOf(r, s).pending == me.pending + [row] && row.chain == c && View(r, s) == rows;
      if d in st.locks && st.locks[d] == s {
        ContinuesSnoc(h, me.pending, row, d, HeadBelow(rows, d, st.nextId));
      }
    }
  }

  lemma {:induction false} RecordKeepsOtherSessions(h: HashFn, st: Store, s: nat, c: ChainKey, eventType: string,
                                 payload: Canonical.Value, salt: Hash32, t: nat, d: ChainKey)
    requires Inv(h, st) && t != s
    ensures SessionOk(h, RecordStep(h, st, s, c, eventType, payload, salt), t, d)
  {
    var r := RecordStep(h, st, s, c, eventType, payload, salt);
    assert SessionOk(h, st, t, d) && SessionOk(h, st, s, c);
    assert SessionOf(r, t) == SessionOf(st, t) && View(r, t) == View(st, t);
  }

  lemma {:induction false} RecordKeepsSession(h: HashFn, st: Store, s: nat, c: ChainKey, eventType: string,
                           payload: Canonical.Value, salt: Hash32, t: nat, d: ChainKey)
    requires Inv(h, st)
    ensures SessionOk(h, RecordStep(h, st, s, c, eventType, payload, salt), t, d)
  {
    if t == s && d == c {
      RecordKeepsChain(h, st, s, c, eventType, payload, salt);
    } else if t == s {
      RecordKeepsOthers(h, st, s, c, eventType, payload, salt, d);
    } else {
      RecordKeepsOtherSessions(h, st, s, c, eventType, payload, salt, t, d);
    }
  }

  lemma {:induction false} RecordKeeps(h: HashFn, st: Store, s: nat, c: ChainKey, eventType: string,
                    payload: Canonical.Value, salt: Hash32)
    requires Inv(h, st)
    ensures Inv(h, RecordStep(h, st, s, c, eventType, payload, salt))
  {
    var r := RecordStep(h, st, s, c, eventType, payload, salt);
    assert forall t: nat :: SessionOf(r, t).inserted == SessionOf(st, t).inserted;
    forall t: nat, d
      ensures SessionOk(h, r, t, d)
    {
      RecordKeepsSession(h, st, s, c, eventType, payload, salt, t, d);
    }
  }

  lemma {:induction false} ViewBelow(st: Store, t: nat)
    requires IdsOk(st)
    ensures Below(View(st, t), st.nextId)
  {
  }

  lemma {:induction false} FlushOneKeepsSession(h: HashFn, st: Store, s: nat, t: nat, d: ChainKey)
    requires Inv(h, st) && SessionOf(st, s).pending != []
    ensures SessionOk(h, FlushOne(st, s), t, d)
  {
    var r, n := FlushOne(st, s), st.nextId;
    assert SessionOk(h, st, t, d);
    ViewBelow(st, t);
    if t == s {
      var me := SessionOf(st, s);
      var row := me.pending[0];
      assert View(r, s) == View(st, s)[n := row];
      assert row in me.pending;
      assert forall x <- me.pending[1..] :: x in me.pending;
      if d in st.locks && st.locks[d] == s {
        AppendRow(h, View(st, s), d, n, row);
      }
    } else {
      assert SessionOf(r, t) == SessionOf(st, t) && View(r, t) == View(st, t);
      HeadBeyond(View(st, t), d, n, n + 1);
    }
  }

  lemma {:induction false} FlushOneKeepsIds(st: Store, s: nat)
    requires IdsOk(st) && SessionOf(st, s).pending != []
    ensures IdsOk(FlushOne(st, s))
  {
    var r, n := FlushOne(st, s), st.nextId;
    assert n !in st.committed && forall t: nat :: n !in SessionOf(st, t).inserted;
    assert forall t: nat :: t != s ==> SessionOf(r, t) == SessionOf(st, t);
    assert SessionOf(r, s).inserted.Keys == SessionOf(st, s).inserted.Keys + {n};
  }

  lemma {:induction false} FlushKeeps(h: HashFn, st: Store, s: nat)
    requires Inv(h, st)
    ensures Inv(h, FlushStep(st, s))
    decreases |SessionOf(st, s).pending|
  {
    if SessionOf(st, s).pending != [] {
      var r := FlushOne(st, s);
      FlushOneKeepsIds(st, s);
      forall t: nat, d
        ensures SessionOk(h, r, t, d)
      {
        FlushOneKeepsSession(h, st, s, t, d);
      }
      FlushKeeps(h, r, s);
    }
  }

  lemma {:induction false} ReleaseKeeps(h: HashFn, st: Store, s: nat)
    requires Inv(h, st)
    ensures Inv(h, Release(st, s))
  {
    var r := Release(st, s);
    assert forall t: nat :: SessionOf(r, t) == if t == s then IDLE else SessionOf(st, t);
    forall t: nat, d
      ensures SessionOk(h, r, t, d)
    {
      assert SessionOk(h, st, t, d);
      assert t != s ==> View(r, t) == View(st, t);
    }
  }

  /** Committing one session's rows adds nothing to a chain it did not lock. */
  lemma {:induction false} PublishedRows(committed: Rows, mine: Rows, others: Rows, c: ChainKey)
    requires NoRows(mine, c) && mine.Keys !! others.Keys && mine.Keys !! committed.Keys
    ensures SameRows(committed + others, (committed + mine) + others, c)
  {
  }

  lemma {:induction false} PublishKeepsSession(h: HashFn, st: Store, s: nat, t: nat, d: ChainKey)
    requires Inv(h, st) && SessionOf(st, s).pending == []
    ensures SessionOk(h, Release(st.(committed := View(st, s)), s), t, d)
  {
    var r := Release(st.(committed := View(st, s)), s);
    assert SessionOf(r, t) == if t == s then IDLE else SessionOf(st, t);
    assert SessionOk(h, st, t, d);
    if t != s && d in st.locks && st.locks[d] == t {
      assert SessionOk(h, st, s, d);
      PublishedRows(st.committed, SessionOf(st, s).inserted, SessionOf(st, t).inserted, d);
      LinkedSame(h, View(st, t), View(r, t), d);
      HeadSame(View(st, t), View(r, t), d, st.nextId);
    }
  }

  lemma {:induction false} PublishKeeps(h: HashFn, st: Store, s: nat)
    requires Inv(h, st) && SessionOf(st, s).pending == []
    ensures Inv(h, Release(st.(committed := View(st, s)), s))
  {
    var r := Release(st.(committed := View(st, s)), s);
    assert forall t: nat :: SessionOf(r, t) == if t == s then IDLE else SessionOf(st, t);
    forall d
      ensures Linked(h, r.committed, d)
    {
      assert SessionOk(h, st, s, d) && Linked(h, st.committed, d);
      if !(d in st.locks && st.locks[d] == s) {
        assert SameRows(st.committed, r.committed, d);
        LinkedSame(h, st.committed, r.committed, d);
      }
    }
    forall t: nat, d
      ensures SessionOk(h, r, t, d)
    {
      PublishKeepsSession(h, st, s, t, d);
    }
  }

  lemma {:induction false} AssignKeeps(h: HashFn, st: Store, id: nat, row: Row)
    requires Inv(h, st)
    ensures Inv(h, AssignStep(st, id, row))
  {
    var r := AssignStep(st, id, row);
    if r != st {
      assert r.committed.Keys == st.committed.Keys;
      assert forall t: nat :: SessionOf(r, t) == SessionOf(st, t);
      forall d
        ensures Linked(h, r.committed, d)
      {
        assert Linked(h, st.committed, d);
        LinkedSame(h, st.committed, r.committed, d);
      }
      forall t: nat, d
        ensures SessionOk(h, r, t, d)
      {
        assert SessionOk(h, st, t, d);
        assert id !in SessionOf(st, t).inserted;
        assert View(r, t) == View(st, t)[id := row];
        assert SameRows(View(st, t), View(r, t), d);
        if d in st.locks && st.locks[d] == t {
          LinkedSame(h, View(st, t), View(r, t), d);
          HeadSame(View(st, t), View(r, t), d, st.nextId);
        }
      }
    }
  }

  lemma {:induction false} NextKeeps(h: HashFn, st: Store, step: Step)
    requires Inv(h, st)
    ensures Inv(h, Next(h, st, step))
  {
    match step
    case Record(s, c, eventType, payload, salt) => RecordKeeps(h, st, s, c, eventType, payload, salt);
    case Flush(s) => FlushKeeps(h, st, s);
    case Commit(s) =>
      FlushKeeps(h, st, s);
      PublishKeeps(h, FlushStep(st, s), s);
    case Rollback(s) => ReleaseKeeps(h, st, s);
    case AssignBatch(id, row) => AssignKeeps(h, st, id, row);
  }

  lemma {:induction false} RunsKeepInv(h: HashFn, steps: seq<Step>)
    ensures Inv(h, Run(h, steps))
    decreases |steps|
  {
    if steps == [] {
      forall s: nat, c
        ensures SessionOk(h, EMPTY, s, c)
      {
        assert SessionOf(EMPTY, s) == IDLE;
      }
    } else {
      RunsKeepInv(h, steps[..|steps| - 1]);
      NextKeeps(h, Run(h, steps[..|steps| - 1]), steps[|steps| - 1]);
    }
  }

  // ----- what that means

  /** A chain's links in id order, below an id. */
  function LinksOf(rows: Rows, c: ChainKey, n: nat): seq<Link> {
    if n == 0 then []
    else LinksOf(rows, c, n - 1) + if n - 1 in rows && rows[n - 1].chain == c then [rows[n - 1].link] else []
  }

  lemma {:induction false} LinkedIsWellLinked(h: HashFn, rows: Rows, c: ChainKey, n: nat)
    requires Linked(h, rows, c)
    ensures WellLinked(h, LinksOf(rows, c, n))
    ensures Head(LinksOf(rows, c, n)) == HeadBelow(rows, c, n)
  {
    if n > 0 {
      LinkedIsWellLinked(h, rows, c, n - 1);
      var before := LinksOf(rows, c, n - 1);
      if n - 1 in rows && rows[n - 1].chain == c {
        assert RowLinked(h, rows, c, n - 1);
        WellLinkedSnoc(h, before, rows[n - 1].link);
      } else {
        assert before + [] == before;
      }
    }
  }

  /** Linear chains under any interleaving: after any run, the committed events of every chain, read
      in id order, link each to its predecessor and the first to the zero hash. */
  lemma {:induction false} ChainsStayLinear(h: HashFn, steps: seq<Step>, c: ChainKey)
    ensures var st := Run(h, steps); WellLinked(h, LinksOf(st.committed, c, st.nextId))
  {
    RunsKeepInv(h, steps);
    var st := Run(h, steps);
    LinkedIsWellLinked(h, st.committed, c, st.nextId);
  }

  /** In every reachable store a cached head is the newest leaf the session can see or has added,
      and no other session holds that chain. */
  lemma {:induction false} CachedHeadIsNewest(h: HashFn, steps: seq<Step>, s: nat, c: ChainKey)
    requires c in SessionOf(Run(h, steps), s).heads
    ensures var st := Run(h, steps);
            && c in st.locks && st.locks[c] == s
            && SessionOf(st, s).heads[c] == HeadAfter(SessionOf(st, s).pending, c, HeadBelow(View(st, s), c, st.nextId))
  {
    RunsKeepInv(h, steps);
    assert SessionOk(h, Run(h, steps), s, c);
  }

  /** Two histories whose chains end in one leaf hold the same salts and payloads there, or comparing
      them yields a collision or a preimage of the zero hash. */
  lemma {:induction false} CommittedHeadBinds(h: HashFn, steps: seq<Step>, steps': seq<Step>, c: ChainKey, c': ChainKey)
    requires var st, st' := Run(h, steps), Run(h, steps');
             HeadBelow(st.committed, c, st.nextId) == HeadBelow(st'.committed, c', st'.nextId)
    ensures var st, st' := Run(h, steps), Run(h, steps');
            var a, b := LinksOf(st.committed, c, st.nextId), LinksOf(st'.committed, c', st'.nextId);
            a == b || Genuine(h, ChainEvidence(a, b))
  {
    var st, st' := Run(h, steps), Run(h, steps');
    RunsKeepInv(h, steps);
    RunsKeepInv(h, steps');
    LinkedIsWellLinked(h, st.committed, c, st.nextId);
    LinkedIsWellLinked(h, st'.committed, c', st'.nextId);
    HeadBinds(h, LinksOf(st.committed, c, st.nextId), LinksOf(st'.committed, c', st'.nextId));
  }

  // ----- append-only

  /** A committed row stays: its content never changes, and its batch columns are set at most once. */
  ghost predicate RowKept(was: Row, now: Row) {
    || now == was
    || (&& was.seqNo.None? && was.batchId.None? && was.leafIndex.None?
        && now.seqNo.Some? && now.batchId.Some? && now.leafIndex.Some?
        && now == was.(seqNo := now.seqNo, batchId := now.batchId, leafIndex := now.leafIndex))
  }

  lemma {:induction false} FlushLeavesCommitted(st: Store, s: nat)
    ensures FlushStep(st, s).committed == st.committed
    decreases |SessionOf(st, s).pending|
  {
    if SessionOf(st, s).pending != [] {
      FlushLeavesCommitted(FlushOne(st, s), s);
    }
  }

  lemma {:induction false} CommittedRowsKept(h: HashFn, st: Store, step: Step, id: nat)
    requires Inv(h, st) && id in st.committed
    ensures id in Next(h, st, step).committed
    ensures RowKept(st.committed[id], Next(h, st, step).committed[id])
  {
    match step
    case Record(_, _, _, _, _) =>
    case Flush(s) => FlushLeavesCommitted(st, s);
    case Commit(s) =>
      FlushLeavesCommitted(st, s);
      FlushKeeps(h, st, s);
      assert id !in SessionOf(FlushStep(st, s), s).inserted;
    case Rollback(_) =>
    case AssignBatch(_, _) =>
  }

  /** Over a whole run: what was committed is never lost, edited or rebatched. */
  lemma {:induction false} HistoryIsAppendOnly(h: HashFn, steps: seq<Step>, n: nat, id: nat)
    requires n <= |steps| && id in Run(h, steps[..n]).committed
    ensures id in Run(h, steps).committed
    ensures RowKept(Run(h, steps[..n]).committed[id], Run(h, steps).committed[id])
    decreases |steps|
  {
    if n == |steps| {
      assert steps[..n] == steps;
    } else {
      var before := steps[..|steps| - 1];
      assert before[..n] == steps[..n];
      HistoryIsAppendOnly(h, before, n, id);
      RunsKeepInv(h, before);
      CommittedRowsKept(h, Run(h, before), steps[|steps| - 1], id);
    }
  }
}
