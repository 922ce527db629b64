/** The recorder as the service runs it, on the log's mutable state. */
module AnchorLogs {
  import opened Hashing
  import opened Chain
  import opened Recorder
  import opened RecorderProofs
  import Recorded
  import Canonical
  import CanonicalMeaning
  import Encoder

  /** Waiting: the chain is locked by another session. Raised: the payload or the lengths are refused. */
  datatype Outcome = Recorded(row: Row) | Waiting | Raised

  class AnchorLog {
    const h: HashFn
    var nextId: nat
    var committed: Rows
    var sessions: map<nat, Session>
    var locks: map<ChainKey, nat>

    constructor (h: HashFn)
      ensures this.h == h && Snapshot() == EMPTY && Valid()
    {
      this.h := h;
      nextId := 0;
      committed := map[];
      sessions := map[];
      locks := map[];
      new;
      RunsKeepInv(h, []);
    }

    function Snapshot(): Store
      reads this
    {
      Store(nextId, committed, sessions, locks)
    }

    ghost predicate Valid()
      reads this
    {
      Inv(h, Snapshot())
    }

    /** The newest visible leaf of a chain, searched from the highest id down. */
    method NewestLeaf(s: nat, c: ChainKey) returns (leaf: Bytes)
      ensures leaf == HeadBelow(View(Snapshot(), s), c, nextId)
    {
      var rows := View(Snapshot(), s);
      var n := nextId;
      while n > 0
        invariant HeadBelow(rows, c, nextId) == HeadBelow(rows, c, n)
      {
        n := n - 1;
        if n in rows && rows[n].chain == c {
          return rows[n].link.leaf;
        }
      }
      return ZeroHash();
    }

    /** The head an event continues, or nothing where another session has the chain. */
    method LockedHead(s: nat, c: ChainKey) returns (head: Option<Bytes>)
      ensures head == if CanLock(Snapshot(), s, c) then Option.Some(ChainHead(Snapshot(), s, c)) else Option.None
    {
      var heads := SessionOf(Snapshot(), s).heads;
      if c in heads {
        return Option.Some(heads[c]);
      }
      if c in locks && locks[c] != s {
        return Option.None;
      }
      var leaf := NewestLeaf(s, c);
      return Option.Some(leaf);
    }

    method RecordAnchorEvent(s: nat, c: ChainKey, eventType: string, payload: Canonical.Value, salt: Hash32)
      returns (r: Outcome)
      requires Valid()
      modifies this
      ensures Valid()
      ensures Snapshot() == old(RecordStep(h, Snapshot(), s, c, eventType, payload, salt))
      ensures r.Raised? <==> !CanonicalMeaning.Encodable(payload)
      ensures r.Waiting? <==> CanonicalMeaning.Encodable(payload) && !old(CanLock(Snapshot(), s, c))
      ensures r.Recorded? ==>
                && r.row.chain == c && r.row.eventType == eventType && r.row.link.salt == salt
                && Canonical.CanonicalJson(payload) == Canonical.Some(r.row.link.payload)
                && r.row.seqNo.None? && r.row.batchId.None? && r.row.leafIndex.None?
      ensures r.Recorded? ==>
                && r.row.link.prev == old(ChainHead(Snapshot(), s, c))
                && Honest(h, r.row.link)
                && SessionOf(Snapshot(), s).pending == old(SessionOf(Snapshot(), s).pending) + [r.row]
                && ChainHead(Snapshot(), s, c) == r.row.link.leaf
    {
      RecordKeeps(h, Snapshot(), s, c, eventType, payload, salt);
      var text := Encoder.CanonicalText(payload);
      if text.None? {
        return Raised;
      }
      var prev := LockedHead(s, c);
      if prev.None? {
        return Waiting;
      }
      Recorded.CanonicalTextValid(payload);
      Recorded.ChainHeadLength(h, Snapshot(), s, c);
      var leaf := LeafHash(h, salt, prev.value, text.value);
      var me := SessionOf(Snapshot(), s);
      var link := Link(salt, prev.value, text.value, leaf.value);
      var row := Row(c, eventType, link, Option.None, Option.None, Option.None);
      assert SessionOk(h, Snapshot(), s, c);
      assert c in me.heads ==> locks == locks[c := s];
      locks := locks[c := s];
      sessions := sessions[s := Session(me.pending + [row], me.inserted, me.heads[c := leaf.value])];
      return Recorded(row);
    }

    method FlushSession(s: nat)
      requires Valid()
      modifies this
      ensures Valid()
      ensures Snapshot() == old(FlushStep(Snapshot(), s))
    {
      while SessionOf(Snapshot(), s).pending != []
        invariant FlushStep(Snapshot(), s) == old(FlushStep(Snapshot(), s))
        decreases |SessionOf(Snapshot(), s).pending|
      {
        var me := SessionOf(Snapshot(), s);
        sessions := sessions[s := Session(me.pending[1..], me.inserted[nextId := me.pending[0]], me.heads)];
        nextId := nextId + 1;
      }
      FlushKeeps(h, old(Snapshot()), s);
    }

    method ResetSession(s: nat)
      modifies this
      ensures Snapshot() == old(Release(Snapshot(), s))
    {
      sessions := sessions[s := IDLE];
      locks := map c | c in locks && locks[c] != s :: locks[c];
    }

    method Commit(s: nat)
      requires Valid()
      modifies this
      ensures Valid()
      ensures Snapshot() == old(CommitStep(Snapshot(), s))
    {
      FlushSession(s);
      PublishKeeps(h, Snapshot(), s);
      committed := View(Snapshot(), s);
      assert Snapshot() == old(FlushStep(Snapshot(), s).(committed := View(FlushStep(Snapshot(), s), s)));
      ResetSession(s);
    }

    method Rollback(s: nat)
      requires Valid()
      modifies this
      ensures Valid()
      ensures Snapshot() == old(Release(Snapshot(), s))
    {
      ReleaseKeeps(h, Snapshot(), s);
      ResetSession(s);
    }

    /** False when the guard refuses the update. */
    method AssignBatch(id: nat, row: Row) returns (allowed: bool)
      requires Valid()
      modifies this
      ensures Valid()
      ensures Snapshot() == old(AssignStep(Snapshot(), id, row))
      ensures allowed <==> id in old(committed) && UpdateAllowed(old(committed[id]), row)
    {
      AssignKeeps(h, Snapshot(), id, row);
      if id !in committed || !UpdateAllowed(committed[id], row) {
        return false;
      }
      committed := committed[id := row];
      return true;
    }
  }
}
