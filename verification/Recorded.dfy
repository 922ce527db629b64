/** What ends up in the log. Each chain is a plain list with one writer at a time: a session's events are
    staged in the order they were recorded and are added, all of them, when it commits. */
module Recorded {
  import opened Hashing
  import opened Unicode
  import opened Chain
  import opened Recorder
  import opened RecorderProofs
  import Canonical
  import CanonicalMeaning

  // ----- canonical text can always be hashed

  ghost predicate ValidJson(j: Canonical.Json)
    decreases j
  {
    match j
    case JStr(s) => Valid(s)
    case JArr(items) => forall i :: 0 <= i < |items| ==> ValidJson(items[i])
    case JObj(ms) => forall i :: 0 <= i < |ms| ==> Valid(ms[i].name) && ValidJson(ms[i].value)
    case _ => true
  }

  lemma {:induction false} SortedValid(ms: seq<Canonical.Member>)
    requires forall m <- ms :: Valid(m.name) && ValidJson(m.value)
    ensures forall m <- Canonical.SortMembers(ms) :: Valid(m.name) && ValidJson(m.value)
  {
    CanonicalMeaning.SortPermutes(ms);
    CanonicalMeaning.SameElements(Canonical.SortMembers(ms), ms);
  }

  lemma {:induction false} CanonValid(v: Canonical.Value)
    requires Canonical.Canon(v).Some?
    ensures ValidJson(Canonical.Canon(v).value)
    decreases v
  {
    match v
    case Mapping(entries) =>
      CanonicalMeaning.CanonEntriesAt(entries);
      var ms := Canonical.CanonEntries(entries).value;
      forall m | m in ms
        ensures Valid(m.name) && ValidJson(m.value)
      {
        var i :| 0 <= i < |ms| && ms[i] == m;
        assert Canonical.CanonEntry(entries[i]) == Canonical.Some(ms[i]);
        CanonValid(entries[i].value);
      }
      SortedValid(ms);
    case List(items) => CanonItemsValid(items);
    case Tuple(items) => CanonItemsValid(items);
    case _ =>
  }

  lemma {:induction false} CanonItemsValid(items: seq<Canonical.Value>)
    requires Canonical.CanonItems(items).Some?
    ensures forall i :: 0 <= i < |items| ==> ValidJson(Canonical.CanonItems(items).value[i])
    decreases items
  {
    CanonicalMeaning.CanonItemsAt(items);
    forall i | 0 <= i < |items|
      ensures ValidJson(Canonical.CanonItems(items).value[i])
    {
      CanonValid(items[i]);
    }
  }

  lemma {:induction false} DecimalValid(n: nat)
    ensures Valid(Canonical.Decimal(n))
  {
    if n >= 10 {
      DecimalValid(n / 10);
    }
  }

  lemma {:induction false} QuotedValid(s: Text)
    requires Valid(s)
    ensures Valid(Canonical.Escape(s)) && Valid(Canonical.Quoted(s))
  {
    if s != [] {
      assert s[0] in s;
      QuotedValid(s[1..]);
    }
  }

  lemma {:induction false} PrintValid(j: Canonical.Json)
    requires ValidJson(j)
    ensures Valid(Canonical.Print(j))
    decreases j, 1
  {
    match j
    case JInt(n) => DecimalValid(if n < 0 then -n else n);
    case JStr(s) => QuotedValid(s);
    case JArr(items) => PrintItemsValid(items);
    case JObj(ms) => PrintMembersValid(ms);
    case _ =>
  }

  lemma {:induction false} PrintItemsValid(items: seq<Canonical.Json>)
    requires forall i :: 0 <= i < |items| ==> ValidJson(items[i])
    ensures Valid(Canonical.PrintItems(items))
    decreases items, 0
  {
    if items != [] {
      PrintValid(items[0]);
      PrintItemsValid(items[1..]);
    }
  }

  lemma {:induction false} PrintMembersValid(ms: seq<Canonical.Member>)
    requires forall i :: 0 <= i < |ms| ==> Valid(ms[i].name) && ValidJson(ms[i].value)
    ensures Valid(Canonical.PrintMembers(ms))
    decreases ms, 0
  {
    if ms != [] {
      QuotedValid(ms[0].name);
      PrintValid(ms[0].value);
      PrintMembersValid(ms[1..]);
    }
  }

  lemma {:induction false} CanonicalTextValid(v: Canonical.Value)
    requires Canonical.CanonicalJson(v).Some?
    ensures Valid(Canonical.CanonicalJson(v).value)
  {
    CanonValid(v);
    PrintValid(Canonical.Canon(v).value);
  }

  // ----- one record

  lemma {:induction false} HeadLength(h: HashFn, rows: Rows, c: ChainKey, n: nat)
    requires Linked(h, rows, c)
    ensures |HeadBelow(rows, c, n)| == 32
  {
    if n > 0 {
      assert RowLinked(h, rows, c, n - 1);
      HeadLength(h, rows, c, n - 1);
    }
  }

  lemma {:induction false} HeadAfterLength(h: HashFn, pending: seq<Row>, c: ChainKey, head: Bytes)
    requires Continues(h, pending, c, head) && |head| == 32
    ensures |HeadAfter(pending, c, head)| == 32
  {
    if pending != [] {
      HeadAfterLength(h, pending[1..], c, if pending[0].chain == c then pending[0].link.leaf else head);
    }
  }

  lemma {:induction false} ChainHeadLength(h: HashFn, st: Store, s: nat, c: ChainKey)
    requires Inv(h, st) && CanLock(st, s, c)
    ensures |ChainHead(st, s, c)| == 32
  {
    assert SessionOk(h, st, s, c);
    if c in st.locks && st.locks[c] == s {
      HeadLength(h, View(st, s), c, st.nextId);
      HeadAfterLength(h, SessionOf(st, s).pending, c, HeadBelow(View(st, s), c, st.nextId));
    } else {
      assert SameRows(st.committed, View(st, s), c);
      LinkedSame(h, st.committed, View(st, s), c);
      HeadLength(h, View(st, s), c, st.nextId);
    }
  }

  /** A record adds one row exactly when the payload can be encoded and no other session holds the chain.
      The row has the given chain, event type and salt, the payload's own canonical text, the chain's head,
      the digest of the byte 0x00, these three, and no batch. */
  lemma {:induction false} RecordIs(h: HashFn, st: Store, s: nat, c: ChainKey, eventType: string,
        payload: Canonical.Value, salt: Hash32)
    requires Inv(h, st)
    ensures var r := RecordStep(h, st, s, c, eventType, payload, salt);
            var text := Canonical.CanonicalJson(payload);
            if text.Some? && (c in st.locks ==> st.locks[c] == s) then
              var prev, me := ChainHead(st, s, c), SessionOf(st, s);
              && Valid(text.value)
              && var leaf := h([0] + salt + prev + Utf8(text.value));
                 r == st.(
                   sessions := st.sessions[s := Session(
                     me.pending + [Row(c, eventType, Link(salt, prev, text.value, leaf), None, None, None)],
                     me.inserted, me.heads[c := leaf])],
                   locks := st.locks[c := s])
            else r == st
  {
    assert SessionOk(h, st, s, c);
    if Canonical.CanonicalJson(payload).Some? && CanLock(st, s, c) {
      CanonicalTextValid(payload);
      ChainHeadLength(h, st, s, c);
    }
  }

  /** A chain's head among some rows: the leaf of its newest row, or 32 zero bytes. */
  lemma {:induction false} HeadIs(rows: Rows, c: ChainKey, n: nat)
    ensures || (HeadBelow(rows, c, n) == seq(32, _ => 0) && forall i: nat :: i < n && i in rows ==> rows[i].chain != c)
            || (exists k: nat :: k < n && k in rows && rows[k].chain == c && HeadBelow(rows, c, n) == rows[k].link.leaf
                                 && forall i: nat :: k < i < n && i in rows ==> rows[i].chain != c)
  {
    if n > 0 && !(n - 1 in rows && rows[n - 1].chain == c) {
      HeadIs(rows, c, n - 1);
    }
  }

  /** A batch update sets the three batch columns of one committed row that has none, and nothing else ever
      happens by it. */
  lemma {:induction false} AssignIs(st: Store, id: nat, row: Row)
    ensures AssignStep(st, id, row) ==
            if id in st.committed
               && st.committed[id].seqNo.None? && st.committed[id].batchId.None? && st.committed[id].leafIndex.None?
               && row.seqNo.Some? && row.batchId.Some? && row.leafIndex.Some?
               && row == st.committed[id].(seqNo := row.seqNo, batchId := row.batchId, leafIndex := row.leafIndex)
            then st.(committed := st.committed[id := row])
            else st
  {
  }

  // ----- chains as plain lists

  /** What was recorded. */
  datatype Event = Event(eventType: string, salt: Bytes, payload: Text)

  function EventOf(row: Row): Event {
    Event(row.eventType, row.link.salt, row.link.payload)
  }

  /** The events of a chain among some rows, in id order. */
  function EventsIn(rows: Rows, c: ChainKey, n: nat): seq<Event> {
    if n == 0 then []
    else EventsIn(rows, c, n - 1) + if n - 1 in rows && rows[n - 1].chain == c then [EventOf(rows[n - 1])] else []
  }

  function EventsPending(pending: seq<Row>, c: ChainKey): seq<Event> {
    if pending == [] then []
    else (if pending[0].chain == c then [EventOf(pending[0])] else []) + EventsPending(pending[1..], c)
  }

  /** The session that writes, what it has staged, and what is committed. */
  datatype Line = Line(holder: Option<nat>, staged: seq<Event>, done: seq<Event>)

  function LineStep(l: Line, step: Step, c: ChainKey): Line {
    match step
    case Record(s, chain, eventType, payload, salt) =>
      var text := Canonical.CanonicalJson(payload);
      if chain == c && text.Some? && (l.holder.None? || l.holder.value == s) then
        Line(Some(s), l.staged + [Event(eventType, salt, text.value)], l.done)
      else l
    case Commit(s) => if l.holder == Some(s) then Line(None, [], l.done + l.staged) else l
    case Rollback(s) => if l.holder == Some(s) then Line(None, [], l.done) else l
    case _ => l
  }

  function LineOf(steps: seq<Step>, c: ChainKey): Line {
    if steps == [] then Line(None, [], []) else LineStep(LineOf(steps[..|steps| - 1], c), steps[|steps| - 1], c)
  }

  ghost predicate Tracks(st: Store, l: Line, c: ChainKey) {
    && l.holder == (if c in st.locks then Some(st.locks[c]) else None)
    && EventsIn(st.committed, c, st.nextId) == l.done
    && (l.holder.None? ==> l.staged == [])
    && (l.holder.Some? ==>
         EventsIn(View(st, l.holder.value), c, st.nextId) + EventsPending(SessionOf(st, l.holder.value).pending, c) ==
         l.done + l.staged)
  }

  // ----- rows that say the same about a chain

  predicate SameAt(a: Rows, b: Rows, c: ChainKey, i: nat) {
    && (i in a && a[i].chain == c <==> i in b && b[i].chain == c)
    && (i in a && i in b && a[i].chain == c ==> EventOf(a[i]) == EventOf(b[i]))
  }

  lemma {:induction false} SameEvents(a: Rows, b: Rows, c: ChainKey, n: nat)
    requires forall i: nat :: i < n ==> SameAt(a, b, c, i)
    ensures EventsIn(a, c, n) == EventsIn(b, c, n)
  {
    if n > 0 {
      assert SameAt(a, b, c, n - 1);
      SameEvents(a, b, c, n - 1);
    }
  }

  lemma {:induction false} PendingSnoc(pending: seq<Row>, row: Row, c: ChainKey)
    ensures EventsPending(pending + [row], c) ==
            EventsPending(pending, c) + if row.chain == c then [EventOf(row)] else []
  {
    if pending == [] {
      PendingCons(row, [], c);
      assert pending + [row] == [row] + [];
    } else {
      PendingSnoc(pending[1..], row, c);
      PendingCons(pending[0], pending[1..] + [row], c);
      assert pending + [row] == [pending[0]] + (pending[1..] + [row]);
    }
  }

  lemma {:induction false} PendingCons(row: Row, others: seq<Row>, c: ChainKey)
    ensures EventsPending([row] + others, c) ==
            (if row.chain == c then [EventOf(row)] else []) + EventsPending(others, c)
  {
    assert ([row] + others)[1..] == others;
  }

  lemma {:induction false} NothingPending(pending: seq<Row>, c: ChainKey)
    requires forall row <- pending :: row.chain != c
    ensures EventsPending(pending, c) == []
  {
    if pending != [] {
      assert pending[0] in pending;
      NothingPending(pending[1..], c);
    }
  }

  // ----- each step

  /** The chain recorded on: its holder has one more row pending. */
  lemma {:induction false} OwnRecordTracks(st: Store, r: Store, l: Line, c: ChainKey, s: nat, row: Row)
    requires Tracks(st, l, c) && (l.holder == Some(s) || l.holder.None?) && row.chain == c
    requires l.holder.None? ==> EventsIn(View(st, s), c, st.nextId) == l.done
    requires l.holder.None? ==> EventsPending(SessionOf(st, s).pending, c) == []
    requires r.nextId == st.nextId && r.committed == st.committed && r.locks == st.locks[c := s]
    requires SessionOf(r, s).pending == SessionOf(st, s).pending + [row]
    requires SessionOf(r, s).inserted == SessionOf(st, s).inserted
    ensures Tracks(r, Line(Some(s), l.staged + [EventOf(row)], l.done), c)
  {
    var seen, e := EventsIn(View(st, s), c, st.nextId), EventOf(row);
    PendingSnoc(SessionOf(st, s).pending, row, c);
    assert View(r, s) == View(st, s);
    assert seen + EventsPending(SessionOf(r, s).pending, c) ==
           (seen + EventsPending(SessionOf(st, s).pending, c)) + [e];
    assert l.done + (l.staged + [e]) == (l.done + l.staged) + [e];
  }

  /** A record on another chain, by the holder of this one or by another session. */
  lemma {:induction false} OtherRecordTracks(st: Store, r: Store, l: Line, c: ChainKey, d: ChainKey, s: nat, row: Row)
    requires Tracks(st, l, c) && d != c && row.chain == d
    requires r.nextId == st.nextId && r.committed == st.committed && r.locks == st.locks[d := s]
    requires SessionOf(r, s).pending == SessionOf(st, s).pending + [row]
    requires SessionOf(r, s).inserted == SessionOf(st, s).inserted
    requires forall t: nat :: t != s ==> SessionOf(r, t) == SessionOf(st, t)
    ensures Tracks(r, l, c)
  {
    PendingSnoc(SessionOf(st, s).pending, row, c);
    if l.holder.Some? {
      assert View(r, l.holder.value) == View(st, l.holder.value);
    }
  }

  lemma {:induction false} FreeChain(h: HashFn, st: Store, l: Line, c: ChainKey, s: nat)
    requires Inv(h, st) && Tracks(st, l, c) && l.holder.None?
    ensures EventsIn(View(st, s), c, st.nextId) == l.done && EventsPending(SessionOf(st, s).pending, c) == []
  {
    assert SessionOk(h, st, s, c);
    NothingPending(SessionOf(st, s).pending, c);
    SameEvents(st.committed, View(st, s), c, st.nextId);
  }

  lemma {:induction false} RecordTracks(h: HashFn, st: Store, l: Line, c: ChainKey, step: Step)
    requires Inv(h, st) && Tracks(st, l, c) && step.Record?
    ensures Tracks(Next(h, st, step), LineStep(l, step, c), c)
  {
    var s, d := step.session, step.chain;
    var text := Canonical.CanonicalJson(step.payload);
    RecordIs(h, st, s, d, step.eventType, step.payload, step.salt);
    if text.Some? && (d in st.locks ==> st.locks[d] == s) {
      var prev := ChainHead(st, s, d);
      var link := Link(step.salt, prev, text.value, h([0] + step.salt + prev + Utf8(text.value)));
      var row := Row(d, step.eventType, link, None, None, None);
      if d != c {
        OtherRecordTracks(st, Next(h, st, step), l, c, d, s, row);
      } else {
        if l.holder.None? {
          FreeChain(h, st, l, c, s);
        }
        OwnRecordTracks(st, Next(h, st, step), l, c, s, row);
      }
    }
  }

  /** The holder's first pending row becomes its newest row. */
  lemma {:induction false} FlushedMoves(view: Rows, pending: seq<Row>, c: ChainKey, n: nat)
    requires pending != [] && n !in view
    ensures EventsIn(view[n := pending[0]], c, n + 1) + EventsPending(pending[1..], c) ==
            EventsIn(view, c, n) + EventsPending(pending, c)
  {
    SameEvents(view, view[n := pending[0]], c, n);
    var seen, first := EventsIn(view, c, n), if pending[0].chain == c then [EventOf(pending[0])] else [];
    assert EventsIn(view[n := pending[0]], c, n + 1) == seen + first;
    assert seen + (first + EventsPending(pending[1..], c)) == (seen + first) + EventsPending(pending[1..], c);
  }

  lemma {:induction false} FlushOneTracks(h: HashFn, st: Store, l: Line, c: ChainKey, s: nat)
    requires IdsOk(st) && Tracks(st, l, c) && SessionOf(st, s).pending != []
    ensures Tracks(FlushOne(st, s), l, c)
  {
    var r, n := FlushOne(st, s), st.nextId;
    assert n !in st.committed && n !in View(st, s);
    if l.holder.Some? {
      var t := l.holder.value;
      if t == s {
        assert View(r, s) == View(st, s)[n := SessionOf(st, s).pending[0]];
        FlushedMoves(View(st, s), SessionOf(st, s).pending, c, n);
      } else {
        assert n !in SessionOf(st, t).inserted;
        assert SessionOf(r, t) == SessionOf(st, t) && View(r, t) == View(st, t);
      }
    }
  }

  lemma {:induction false} FlushTracks(h: HashFn, st: Store, l: Line, c: ChainKey, s: nat)
    requires Inv(h, st) && Tracks(st, l, c)
    ensures Tracks(FlushStep(st, s), l, c) && FlushStep(st, s).locks == st.locks
    decreases |SessionOf(st, s).pending|
  {
    if SessionOf(st, s).pending != [] {
      FlushOneTracks(h, st, l, c, s);
      FlushOneKeepsIds(st, s);
      forall t: nat, d
        ensures SessionOk(h, FlushOne(st, s), t, d)
      {
        FlushOneKeepsSession(h, st, s, t, d);
      }
      FlushTracks(h, FlushOne(st, s), l, c, s);
    }
  }

  /** Publishing a session's rows changes nothing on a chain it does not hold. */
  lemma {:induction false} PublishTracks(h: HashFn, st: Store, l: Line, c: ChainKey, s: nat)
    requires Inv(h, st) && Tracks(st, l, c) && SessionOf(st, s).pending == []
    ensures Tracks(Release(st.(committed := View(st, s)), s), LineStep(l, Commit(s), c), c)
  {
    var r := Release(st.(committed := View(st, s)), s);
    assert SessionOk(h, st, s, c);
    if l.holder != Some(s) {
      SameEvents(st.committed, View(st, s), c, st.nextId);
      if l.holder.Some? {
        var t := l.holder.value;
        assert SessionOf(r, t) == SessionOf(st, t);
        PublishedSame(st, s, t, c);
        SameEvents(View(st, t), View(r, t), c, st.nextId);
      }
    }
  }

  lemma {:induction false} PublishedSame(st: Store, s: nat, t: nat, c: ChainKey)
    requires IdsOk(st) && s != t && NoRows(SessionOf(st, s).inserted, c)
    ensures forall i: nat :: SameAt(View(st, t), View(st, s) + SessionOf(st, t).inserted, c, i)
  {
    assert SessionOf(st, s).inserted.Keys !! SessionOf(st, t).inserted.Keys;
    assert SessionOf(st, s).inserted.Keys !! st.committed.Keys;
  }

  lemma {:induction false} ReleaseTracks(h: HashFn, st: Store, l: Line, c: ChainKey, s: nat)
    requires Inv(h, st) && Tracks(st, l, c)
    ensures Tracks(Release(st, s), LineStep(l, Rollback(s), c), c)
  {
    var r := Release(st, s);
    if l.holder.Some? && l.holder.value != s {
      assert SessionOf(r, l.holder.value) == SessionOf(st, l.holder.value);
    }
  }

  lemma {:induction false} AssignTracks(h: HashFn, st: Store, l: Line, c: ChainKey, id: nat, row: Row)
    requires Inv(h, st) && Tracks(st, l, c)
    ensures Tracks(AssignStep(st, id, row), l, c)
  {
    var r := AssignStep(st, id, row);
    if r != st {
      SameEvents(st.committed, r.committed, c, st.nextId);
      if l.holder.Some? {
        AssignedView(st, l.holder.value, id, row, c);
        SameEvents(View(st, l.holder.value), View(r, l.holder.value), c, st.nextId);
      }
    }
  }

  lemma {:induction false} AssignedView(st: Store, t: nat, id: nat, row: Row, c: ChainKey)
    requires id in st.committed && UpdateAllowed(st.committed[id], row)
    ensures var was, now := View(st, t), View(st.(committed := st.committed[id := row]), t);
            forall i: nat :: SameAt(was, now, c, i)
  {
  }

  lemma {:induction false} StepTracks(h: HashFn, st: Store, l: Line, c: ChainKey, step: Step)
    requires Inv(h, st) && Tracks(st, l, c)
    ensures Tracks(Next(h, st, step), LineStep(l, step, c), c)
  {
    match step
    case Record(_, _, _, _, _) => RecordTracks(h, st, l, c, step);
    case Flush(s) => FlushTracks(h, st, l, c, s);
    case Commit(s) =>
      FlushTracks(h, st, l, c, s);
      FlushKeeps(h, st, s);
      PublishTracks(h, FlushStep(st, s), l, c, s);
    case Rollback(s) => ReleaseTracks(h, st, l, c, s);
    case AssignBatch(id, row) => AssignTracks(h, st, l, c, id, row);
  }

  lemma {:induction false} RunTracks(h: HashFn, steps: seq<Step>, c: ChainKey)
    ensures Tracks(Run(h, steps), LineOf(steps, c), c)
    decreases |steps|
  {
    if steps != [] {
      RunTracks(h, steps[..|steps| - 1], c);
      RunsKeepInv(h, steps[..|steps| - 1]);
      StepTracks(h, Run(h, steps[..|steps| - 1]), LineOf(steps[..|steps| - 1], c), c, steps[|steps| - 1]);
    }
  }

  /** Under any interleaving of sessions, flushes and batches, the committed events of a chain are, in id
      order, those of the plain list: the types, salts and canonical texts that were recorded by sessions
      that then committed, in the order they were recorded. */
  lemma {:induction false} CommittedEventsAre(h: HashFn, steps: seq<Step>, c: ChainKey)
    ensures EventsIn(Run(h, steps).committed, c, Run(h, steps).nextId) == LineOf(steps, c).done
  {
    RunTracks(h, steps, c);
  }

  // ----- the same, step by step

  /** The session of a step commits or rolls back there. */
  predicate EndsSession(step: Step, s: nat) {
    step == Commit(s) || step == Rollback(s)
  }

  /** What becomes of a session from some step on: nothing yet, a commit, or a rollback. */
  datatype Fate = StillOpen | Committed | RolledBack

  function FateFrom(steps: seq<Step>, i: nat, s: nat): Fate
    decreases |steps| - i
  {
    if i >= |steps| then StillOpen
    else if steps[i] == Commit(s) then Committed
    else if steps[i] == Rollback(s) then RolledBack
    else FateFrom(steps, i + 1, s)
  }

  /** The step records on the chain: the payload can be encoded, and no other session holds the chain. */
  predicate Takes(steps: seq<Step>, i: nat, c: ChainKey)
    requires i < |steps|
  {
    && steps[i].Record? && steps[i].chain == c && Canonical.CanonicalJson(steps[i].payload).Some?
    && LineOf(steps[..i], c).holder in {None, Some(steps[i].session)}
  }

  /** The events of the first n steps that were recorded on a chain and whose session commits next; with
      open ones, also those whose session has done neither yet. */
  function Surviving(steps: seq<Step>, c: ChainKey, n: nat, open: bool): seq<Event>
    requires n <= |steps|
  {
    if n == 0 then []
    else
      var i := n - 1;
      Surviving(steps, c, i, open) +
      if Takes(steps, i, c) && Survives(FateFrom(steps, n, steps[i].session), open) then
        [Event(steps[i].eventType, steps[i].salt, Canonical.CanonicalJson(steps[i].payload).value)]
      else []
  }

  predicate Survives(fate: Fate, open: bool) {
    fate.Committed? || (open && fate.StillOpen?)
  }

  lemma {:induction false} FateSnoc(steps: seq<Step>, i: nat, s: nat, last: Step)
    requires i <= |steps|
    ensures FateFrom(steps + [last], i, s) ==
            if !FateFrom(steps, i, s).StillOpen? then FateFrom(steps, i, s)
            else if last == Commit(s) then Committed
            else if last == Rollback(s) then RolledBack
            else StillOpen
    decreases |steps| - i
  {
    if i < |steps| {
      FateSnoc(steps, i + 1, s, last);
    }
  }

  /** Two runs under which the same steps survive. */
  lemma {:induction false} SurvivingSame(a: seq<Step>, b: seq<Step>, c: ChainKey, n: nat, openA: bool, openB: bool)
    requires n <= |a| <= |b| && b[..|a|] == a
    requires forall i :: 0 <= i < n && Takes(a, i, c) ==>
               (Survives(FateFrom(a, i + 1, a[i].session), openA) <==>
                Survives(FateFrom(b, i + 1, a[i].session), openB))
    ensures Surviving(b, c, n, openB) == Surviving(a, c, n, openA)
  {
    if n > 0 {
      assert b[..n - 1] == a[..n - 1];
      SurvivingSame(a, b, c, n - 1, openA, openB);
    }
  }

  /** The plain list, told by fates. */
  ghost predicate Told(steps: seq<Step>, c: ChainKey) {
    var l := LineOf(steps, c);
    && Surviving(steps, c, |steps|, false) == l.done
    && Surviving(steps, c, |steps|, true) == l.done + l.staged
    && forall i :: 0 <= i < |steps| && Takes(steps, i, c) && FateFrom(steps, i + 1, steps[i].session).StillOpen? ==>
         l.holder == Some(steps[i].session)
  }

  lemma {:induction false} LineSnoc(steps: seq<Step>, last: Step, c: ChainKey)
    ensures LineOf(steps + [last], c) == LineStep(LineOf(steps, c), last, c)
  {
    assert (steps + [last])[..|steps|] == steps;
  }

  function WriterOf(step: Step): nat {
    if step.Record? then step.session else 0
  }

  /** What a step's event comes to when one more step is run. */
  function FateAfter(fate: Fate, last: Step, s: nat): Fate {
    if fate.StillOpen? && EndsSession(last, s) then (if last.Commit? then Committed else RolledBack) else fate
  }

  /** Earlier steps are taken as before, and their fates change only where the last step ends their session. */
  ghost predicate Extends(steps: seq<Step>, b: seq<Step>, last: Step, c: ChainKey) {
    && b == steps + [last]
    && forall i :: 0 <= i < |steps| ==>
         && (Takes(b, i, c) <==> Takes(steps, i, c))
         && FateFrom(b, i + 1, WriterOf(steps[i])) ==
            FateAfter(FateFrom(steps, i + 1, WriterOf(steps[i])), last, WriterOf(steps[i]))
  }

  lemma {:induction false} ExtendsBy(steps: seq<Step>, last: Step, c: ChainKey)
    ensures Extends(steps, steps + [last], last, c)
  {
    var b := steps + [last];
    forall i | 0 <= i < |steps|
      ensures Takes(b, i, c) <==> Takes(steps, i, c)
      ensures FateFrom(b, i + 1, WriterOf(steps[i])) ==
              FateAfter(FateFrom(steps, i + 1, WriterOf(steps[i])), last, WriterOf(steps[i]))
    {
      assert b[..i] == steps[..i] && b[i] == steps[i];
      FateSnoc(steps, i + 1, WriterOf(steps[i]), last);
    }
  }

  lemma {:induction false} LastIsOpen(steps: seq<Step>, last: Step, c: ChainKey)
    ensures var b := steps + [last];
            && (Takes(b, |steps|, c) <==>
                 last.Record? && last.chain == c && Canonical.CanonicalJson(last.payload).Some? &&
                 LineOf(steps, c).holder in {None, Some(last.session)})
            && forall s :: FateFrom(b, |b|, s) == StillOpen
  {
    assert (steps + [last])[..|steps|] == steps;
  }

  /** A commit by the chain's holder makes its open events survive; a rollback drops them. */
  lemma {:induction false} EarlierSurvive(steps: seq<Step>, b: seq<Step>, last: Step, c: ChainKey)
    requires Told(steps, c) && Extends(steps, b, last, c)
    ensures var l := LineOf(steps, c);
            && Surviving(b, c, |steps|, false) ==
               Surviving(steps, c, |steps|, l.holder.Some? && last == Commit(l.holder.value))
            && Surviving(b, c, |steps|, true) ==
               Surviving(steps, c, |steps|, !(l.holder.Some? && last == Rollback(l.holder.value)))
  {
    var l := LineOf(steps, c);
    SurvivingSame(steps, b, c, |steps|, l.holder.Some? && last == Commit(l.holder.value), false);
    SurvivingSame(steps, b, c, |steps|, !(l.holder.Some? && last == Rollback(l.holder.value)), true);
  }

  lemma {:induction false} ToldSnoc(steps: seq<Step>, last: Step, c: ChainKey)
    requires Told(steps, c)
    ensures Told(steps + [last], c)
  {
    var b, l := steps + [last], LineOf(steps, c);
    ExtendsBy(steps, last, c);
    LineSnoc(steps, last, c);
    LastIsOpen(steps, last, c);
    EarlierSurvive(steps, b, last, c);
    NewestSurvives(steps, b, last, c);
    assert (l.done + l.staged) + [] == l.done + l.staged && l.done + [] == l.done;
    HolderAfter(steps, b, last, c);
  }

  /** The last step's own event is open. */
  lemma {:induction false} NewestSurvives(steps: seq<Step>, b: seq<Step>, last: Step, c: ChainKey)
    requires b == steps + [last]
    ensures Surviving(b, c, |b|, false) == Surviving(b, c, |steps|, false)
    ensures Surviving(b, c, |b|, true) == Surviving(b, c, |steps|, true) +
            if Takes(b, |steps|, c) then [Event(last.eventType, last.salt, Canonical.CanonicalJson(last.payload).value)]
            else []
  {
    LastIsOpen(steps, last, c);
  }

  lemma {:induction false} HolderAfter(steps: seq<Step>, b: seq<Step>, last: Step, c: ChainKey)
    requires Told(steps, c) && Extends(steps, b, last, c)
    ensures forall i :: 0 <= i < |b| && Takes(b, i, c) && FateFrom(b, i + 1, b[i].session).StillOpen? ==>
              LineStep(LineOf(steps, c), last, c).holder == Some(b[i].session)
  {
    LastIsOpen(steps, last, c);
    forall i | 0 <= i < |b| && Takes(b, i, c) && FateFrom(b, i + 1, b[i].session).StillOpen?
      ensures LineStep(LineOf(steps, c), last, c).holder == Some(b[i].session)
    {
      if i < |steps| {
        assert b[i] == steps[i] && Takes(steps, i, c);
        assert FateFrom(steps, i + 1, steps[i].session).StillOpen?;
      }
    }
  }

  /** Committed events of a chain, in id order, are exactly those that were recorded on it by a session that
      next committed, in the order of the record steps: nothing rolled back, nothing twice, nothing else. */
  lemma {:induction false} CommittedEventsSurvive(h: HashFn, steps: seq<Step>, c: ChainKey)
    ensures EventsIn(Run(h, steps).committed, c, Run(h, steps).nextId) == Surviving(steps, c, |steps|, false)
  {
    CommittedEventsAre(h, steps, c);
    RunTold(steps, c);
  }

  lemma {:induction false} RunTold(steps: seq<Step>, c: ChainKey)
    ensures Told(steps, c)
  {
    if steps != [] {
      var before, last := steps[..|steps| - 1], steps[|steps| - 1];
      RunTold(before, c);
      ToldSnoc(before, last, c);
      assert steps == before + [last];
    }
  }
}
