/** The event log under any interleaving of sessions: rows, chain locks, cached chain heads, flushes,
    commits, rollbacks and the batcher's one-time updates. */
module Recorder {
  import opened Hashing
  import opened Chain
  import Canonical

  /** A transaction's chain, or the one for events without a transaction. */
  datatype ChainKey = TransactionChain(id: nat) | GlobalChain

  datatype Option<+T> = None | Some(value: T)

  /** One anchor_events row, without its id. */
  datatype Row = Row(
    chain: ChainKey, eventType: string, link: Link,
    seqNo: Option<nat>, batchId: Option<nat>, leafIndex: Option<nat>)

  type Rows = map<nat, Row>

  /** The update guard: three batch columns go from NULL to a value, nothing else changes. */
  predicate UpdateAllowed(was: Row, now: Row) {
    && was.seqNo.None? && was.batchId.None? && was.leafIndex.None?
    && now.seqNo.Some? && now.batchId.Some? && now.leafIndex.Some?
    && now.chain == was.chain && now.eventType == was.eventType && now.link == was.link
  }

  /** A session's open database transaction: rows added but not flushed, rows flushed but not
      committed, and the cached heads of the chains it locked. */
  datatype Session = Session(pending: seq<Row>, inserted: Rows, heads: map<ChainKey, Bytes>)

  const IDLE := Session([], map[], map[])

  datatype Store = Store(nextId: nat, committed: Rows, sessions: map<nat, Session>, locks: map<ChainKey, nat>)

  const EMPTY := Store(0, map[], map[], map[])

  function SessionOf(st: Store, s: nat): Session {
    if s in st.sessions then st.sessions[s] else IDLE
  }

  /** What a session's queries see: committed rows and its own flushed ones. */
  function View(st: Store, s: nat): Rows {
    st.committed + SessionOf(st, s).inserted
  }

  /** The leaf of a chain's newest row below an id, as ORDER BY id DESC LIMIT 1 finds it. */
  function HeadBelow(rows: Rows, c: ChainKey, n: nat): Bytes {
    if n == 0 then ZeroHash()
    else if n - 1 in rows && rows[n - 1].chain == c then rows[n - 1].link.leaf
    else HeadBelow(rows, c, n - 1)
  }

  // ----- steps

  datatype Step =
    | Record(session: nat, chain: ChainKey, eventType: string, payload: Canonical.Value, salt: Hash32)
    | Flush(session: nat)
    | Commit(session: nat)
    | Rollback(session: nat)
    | AssignBatch(id: nat, row: Row)

  /** A head is read without a lock only when it is cached; otherwise the chain must be free. */
  predicate CanLock(st: Store, s: nat, c: ChainKey) {
    c in SessionOf(st, s).heads || c !in st.locks || st.locks[c] == s
  }

  function ChainHead(st: Store, s: nat, c: ChainKey): Bytes {
    var heads := SessionOf(st, s).heads;
    if c in heads then heads[c] else HeadBelow(View(st, s), c, st.nextId)
  }

  /** Adds one event. A payload that cannot be encoded raises before anything is touched; a chain
      locked elsewhere makes the session wait, which is no step at all. */
  function RecordStep(h: HashFn, st: Store, s: nat, c: ChainKey, eventType: string,
                      payload: Canonical.Value, salt: Hash32): Store {
    var text := Canonical.CanonicalJson(payload);
    if text.None? || !CanLock(st, s, c) then st
    else
      var prev := ChainHead(st, s, c);
      var leaf := LeafHash(h, salt, prev, text.value);
      if leaf.Err? then st
      else
        var me := SessionOf(st, s);
        var row := Row(c, eventType, Link(salt, prev, text.value, leaf.value), None, None, None);
        st.(sessions := st.sessions[s := Session(me.pending + [row], me.inserted, me.heads[c := leaf.value])],
            locks := st.locks[c := s])
  }

  /** Inserts the first unflushed row under the next id. */
  function FlushOne(st: Store, s: nat): Store
    requires SessionOf(st, s).pending != []
  {
    var me := SessionOf(st, s);
    st.(nextId := st.nextId + 1,
        sessions := st.sessions[s := Session(me.pending[1..], me.inserted[st.nextId := me.pending[0]], me.heads)])
  }

  function FlushStep(st: Store, s: nat): (r: Store)
    ensures SessionOf(r, s).pending == []
    decreases |SessionOf(st, s).pending|
  {
    if SessionOf(st, s).pending == [] then st else FlushStep(FlushOne(st, s), s)
  }

  /** Ends the session's database transaction: locks are released, caches dropped. */
  function Release(st: Store, s: nat): Store {
    st.(sessions := st.sessions[s := IDLE],
        locks := map c | c in st.locks && st.locks[c] != s :: st.locks[c])
  }

  function CommitStep(st: Store, s: nat): Store {
    var flushed := FlushStep(st, s);
    Release(flushed.(committed := View(flushed, s)), s)
  }

  /** The batcher's update of one committed row; the guard refuses every other update. */
  function AssignStep(st: Store, id: nat, row: Row): Store {
    if id in st.committed && UpdateAllowed(st.committed[id], row) then
      st.(committed := st.committed[id := row])
    else
      st
  }

  function Next(h: HashFn, st: Store, step: Step): Store {
    match step
    case Record(s, c, eventType, payload, salt) => RecordStep(h, st, s, c, eventType, payload, salt)
    case Flush(s) => FlushStep(st, s)
    case Commit(s) => CommitStep(st, s)
    case Rollback(s) => Release(st, s)
    case AssignBatch(id, row) => AssignStep(st, id, row)
  }

  function Run(h: HashFn, steps: seq<Step>): Store {
    if steps == [] then EMPTY
    else Next(h, Run(h, steps[..|steps| - 1]), steps[|steps| - 1])
  }

  // ----- what every reachable store satisfies

  /** A chain's row under an id is honest and names the row before it. */
  ghost predicate RowLinked(h: HashFn, rows: Rows, c: ChainKey, i: nat) {
    i in rows && rows[i].chain == c ==> Honest(h, rows[i].link) && rows[i].link.prev == HeadBelow(rows, c, i)
  }

  /** Every row of a chain is. */
  ghost predicate Linked(h: HashFn, rows: Rows, c: ChainKey) {
    forall i: nat :: RowLinked(h, rows, c, i)
  }

  /** Unflushed rows of a chain continue it from a head, in the order they were added. */
  ghost predicate Continues(h: HashFn, pending: seq<Row>, c: ChainKey, head: Bytes) {
    pending != [] ==>
      var first := pending[0];
      if first.chain == c then
        Honest(h, first.link) && first.link.prev == head && Continues(h, pending[1..], c, first.link.leaf)
      else
        Continues(h, pending[1..], c, head)
  }

  function HeadAfter(pending: seq<Row>, c: ChainKey, head: Bytes): Bytes {
    if pending == [] then head
    else HeadAfter(pending[1..], c, if pending[0].chain == c then pending[0].link.leaf else head)
  }

  ghost predicate NoRows(rows: Rows, c: ChainKey) {
    forall i <- rows :: rows[i].chain != c
  }

  ghost predicate Below(rows: Rows, n: nat) {
    forall i <- rows :: i < n
  }

  /** A session has rows and a cached head only on chains it locked, and there they continue what it
      sees; its cached head is the newest leaf it can see or has added. */
  ghost predicate SessionOk(h: HashFn, st: Store, s: nat, c: ChainKey) {
    var me, rows := SessionOf(st, s), View(st, s);
    if c in st.locks && st.locks[c] == s then
      && Linked(h, rows, c)
      && Continues(h, me.pending, c, HeadBelow(rows, c, st.nextId))
      && (c in me.heads ==> me.heads[c] == HeadAfter(me.pending, c, HeadBelow(rows, c, st.nextId)))
      && (c !in me.heads ==> forall row <- me.pending :: row.chain != c)
    else
      c !in me.heads && NoRows(me.inserted, c) && forall row <- me.pending :: row.chain != c
  }

  ghost predicate IdsOk(st: Store) {
    && Below(st.committed, st.nextId)
    && (forall s: nat :: Below(SessionOf(st, s).inserted, st.nextId))
    && (forall s: nat :: SessionOf(st, s).inserted.Keys !! st.committed.Keys)
    && (forall s: nat, t: nat :: s != t ==> SessionOf(st, s).inserted.Keys !! SessionOf(st, t).inserted.Keys)
  }

  ghost predicate Inv(h: HashFn, st: Store) {
    && IdsOk(st)
    && (forall c :: Linked(h, st.committed, c))
    && (forall s: nat, c :: SessionOk(h, st, s, c))
  }
}
