/** The two in-memory sliding-window limiters: codes asked for by one client, and log-in attempts. */
module Limiter {

  type Time = int

  /** How many admissions in how long a window. The log-in limiter keeps an admission that is exactly
      one window old, the client limiter drops it. */
  datatype Window = Window(limit: nat, length: int, keepsEdge: bool)

  /** Whether an admission still counts at a moment. */
  predicate Counts(w: Window, t: Time, now: Time) {
    if w.keepsEdge then t >= now - w.length else t > now - w.length
  }

  function Pruned(w: Window, bucket: seq<Time>, now: Time): seq<Time> {
    if bucket == [] || Counts(w, bucket[0], now) then bucket else Pruned(w, bucket[1..], now)
  }

  /** How many admissions lie in the window that ends at a moment. */
  function InWindow(w: Window, history: seq<Time>, now: Time): nat {
    if history == [] then 0
    else
      var t := history[|history| - 1];
      InWindow(w, history[..|history| - 1], now) + if t <= now && Counts(w, t, now) then 1 else 0
  }

  ghost predicate Ascending(history: seq<Time>) {
    forall i, j :: 0 <= i < j < |history| ==> history[i] <= history[j]
  }

  /** The bucket is what is left of the history after dropping admissions that no longer count. */
  ghost predicate BucketOf(w: Window, bucket: seq<Time>, history: seq<Time>, now: Time) {
    && |bucket| <= |history| && bucket == history[|history| - |bucket|..]
    && (forall i :: 0 <= i < |history| - |bucket| ==> !Counts(w, history[i], now))
    && (forall i :: 0 <= i < |history| ==> history[i] <= now)
  }

  /** No window contains one admission more than the limit. */
  ghost predicate Spread(w: Window, history: seq<Time>) {
    forall i :: 0 <= i < |history| - w.limit ==> !Counts(w, history[i], history[i + w.limit])
  }

  ghost predicate Sound(w: Window, bucket: seq<Time>, history: seq<Time>, now: Time) {
    w.length >= 0 && w.limit > 0 && Ascending(history) && BucketOf(w, bucket, history, now) && Spread(w, history)
  }

  lemma {:induction false} PrunedIsSuffix(w: Window, bucket: seq<Time>, history: seq<Time>, now: Time)
    requires Ascending(history) && BucketOf(w, bucket, history, now)
    ensures BucketOf(w, Pruned(w, bucket, now), history, now)
    ensures forall i :: 0 <= i < |Pruned(w, bucket, now)| ==> Counts(w, Pruned(w, bucket, now)[i], now)
    decreases |bucket|
  {
    if bucket != [] && !Counts(w, bucket[0], now) {
      assert history[|history| - |bucket|] == bucket[0];
      PrunedIsSuffix(w, bucket[1..], history, now);
    } else if bucket != [] {
      var d := |history| - |bucket|;
      assert forall i :: 0 <= i < |bucket| ==> bucket[i] == history[d + i] >= history[d];
    }
  }

  /** Time only drops admissions. */
  lemma {:induction false} LaterBucket(w: Window, bucket: seq<Time>, history: seq<Time>, now: Time, later: Time)
    requires BucketOf(w, bucket, history, now) && now <= later
    ensures BucketOf(w, bucket, history, later)
  {
  }

  /** Admitting with room in the pruned bucket keeps every window within the limit. */
  lemma {:induction false} AdmitKeepsSpread(w: Window, bucket: seq<Time>, history: seq<Time>, now: Time)
    requires Sound(w, bucket, history, now) && |Pruned(w, bucket, now)| < w.limit
    ensures Sound(w, Pruned(w, bucket, now) + [now], history + [now], now)
  {
    PrunedIsSuffix(w, bucket, history, now);
    BucketSnoc(w, Pruned(w, bucket, now), history, now);
    SpreadSnoc(w, history, now, |Pruned(w, bucket, now)|);
  }

  lemma {:induction false} BucketSnoc(w: Window, kept: seq<Time>, history: seq<Time>, now: Time)
    requires w.length >= 0 && BucketOf(w, kept, history, now) && Ascending(history)
    ensures BucketOf(w, kept + [now], history + [now], now) && Ascending(history + [now])
  {
    var after := history + [now];
    assert after[|after| - |kept| - 1..] == kept + [now];
  }

  /** With fewer admissions in the last window than the limit, one more keeps every window within it. */
  lemma {:induction false} SpreadSnoc(w: Window, history: seq<Time>, now: Time, kept: nat)
    requires w.limit > 0 && Spread(w, history) && kept < w.limit && kept <= |history|
    requires forall i :: 0 <= i < |history| - kept ==> !Counts(w, history[i], now)
    ensures Spread(w, history + [now])
  {
    var after := history + [now];
    forall i | 0 <= i < |after| - w.limit
      ensures !Counts(w, after[i], after[i + w.limit])
    {
      if i + w.limit == |history| {
        assert i < |history| - kept;
      }
    }
  }

  /** A limiter's check of one key, whichever way it goes. */
  lemma {:induction false} CheckKeepsSound(w: Window, bucket: seq<Time>, history: seq<Time>, clock: Time, now: Time)
    requires Sound(w, bucket, history, clock) && clock <= now
    ensures var kept := Pruned(w, bucket, now);
            && |kept| == InWindow(w, history, now)
            && (|kept| < w.limit ==> Sound(w, kept + [now], history + [now], now))
            && Sound(w, kept, history, now)
  {
    LaterBucket(w, bucket, history, clock, now);
    PrunedIsSuffix(w, bucket, history, now);
    PrunedIsWindow(w, bucket, history, now);
    if |Pruned(w, bucket, now)| < w.limit {
      AdmitKeepsSpread(w, bucket, history, now);
    }
  }

  type Times = map<string, seq<Time>>

  /** Every key's bucket against its history. */
  ghost predicate AllSound(w: Window, buckets: Times, history: Times, now: Time) {
    && w.limit > 0 && w.length >= 0 && buckets.Keys == history.Keys
    && forall key <- buckets :: Sound(w, buckets[key], history[key], now)
  }

  /** A key's times; none for a key not seen. */
  function Of(times: Times, key: string): seq<Time> {
    if key in times then times[key] else []
  }

  /** One key replaced by something sound; the others only grow older. */
  lemma {:induction false} CheckKeepsAll(w: Window, buckets: Times, history: Times, key: string, bucket: seq<Time>,
        after: seq<Time>, clock: Time, now: Time)
    requires AllSound(w, buckets, history, clock) && clock <= now && Sound(w, bucket, after, now)
    ensures AllSound(w, buckets[key := bucket], history[key := after], now)
  {
    forall other | other in buckets && other != key
      ensures Sound(w, buckets[other], history[other], now)
    {
      LaterBucket(w, buckets[other], history[other], clock, now);
    }
  }

  /** A check of one key keeps every key's bucket sound, whichever way it goes. */
  lemma {:induction false} CheckOne(w: Window, buckets: Times, history: Times, key: string, clock: Time, now: Time)
    requires AllSound(w, buckets, history, clock) && clock <= now
    ensures var kept, before := Pruned(w, Of(buckets, key), now), Of(history, key);
            && |kept| == InWindow(w, before, now)
            && AllSound(w, buckets[key := kept], history[key := before], now)
            && (|kept| < w.limit ==> AllSound(w, buckets[key := kept + [now]], history[key := before + [now]], now))
  {
    var kept, before := Pruned(w, Of(buckets, key), now), Of(history, key);
    assert Sound(w, Of(buckets, key), before, clock);
    CheckKeepsSound(w, Of(buckets, key), before, clock, now);
    CheckKeepsAll(w, buckets, history, key, kept, before, clock, now);
    if |kept| < w.limit {
      CheckKeepsAll(w, buckets, history, key, kept + [now], before + [now], clock, now);
    }
  }

  lemma {:induction false} CountSuffix(w: Window, history: seq<Time>, now: Time, n: nat)
    requires n <= |history|
    requires forall i :: 0 <= i < |history| - n ==> !Counts(w, history[i], now) || history[i] > now
    ensures InWindow(w, history, now) <= n
    decreases |history|
  {
    if history != [] {
      var init := history[..|history| - 1];
      if n > 0 {
        CountSuffix(w, init, now, n - 1);
      } else {
        CountSuffix(w, init, now, 0);
      }
    }
  }

  lemma {:induction false} CountExact(w: Window, history: seq<Time>, now: Time, n: nat)
    requires n <= |history|
    requires forall i :: 0 <= i < |history| - n ==> !Counts(w, history[i], now)
    requires forall i :: |history| - n <= i < |history| ==> history[i] <= now && Counts(w, history[i], now)
    ensures InWindow(w, history, now) == n
    decreases |history|
  {
    if history != [] {
      CountExact(w, history[..|history| - 1], now, if n > 0 then n - 1 else 0);
    }
  }

  /** What is left of a bucket after pruning is exactly what the whole history has in the window. */
  lemma {:induction false} PrunedIsWindow(w: Window, bucket: seq<Time>, history: seq<Time>, now: Time)
    requires Ascending(history) && BucketOf(w, bucket, history, now)
    ensures |Pruned(w, bucket, now)| == InWindow(w, history, now)
  {
    PrunedIsSuffix(w, bucket, history, now);
    var kept := Pruned(w, bucket, now);
    var d := |history| - |kept|;
    assert forall i :: d <= i < |history| ==> history[i] == kept[i - d];
    CountExact(w, history, now, |kept|);
  }

  lemma {:induction false} DropLater(w: Window, history: seq<Time>, now: Time)
    requires Ascending(history) && history != [] && history[|history| - 1] > now
    ensures InWindow(w, history, now) == InWindow(w, history[..|history| - 1], now)
  {
  }

  /** A real rate bound: over the whole history, no window of the given length, ending at any moment,
      holds more admissions than the limit. */
  lemma {:induction false} NeverOverLimit(w: Window, history: seq<Time>, t: Time)
    requires w.limit > 0 && w.length >= 0 && Ascending(history) && Spread(w, history)
    ensures InWindow(w, history, t) <= w.limit
    decreases |history|
  {
    if history == [] {
    } else if history[|history| - 1] > t {
      DropLater(w, history, t);
      NeverOverLimit(w, history[..|history| - 1], t);
    } else if |history| <= w.limit {
      CountSuffix(w, history, t, |history|);
    } else {
      var d := |history| - w.limit;
      forall i | 0 <= i < d
        ensures !Counts(w, history[i], t)
      {
        assert !Counts(w, history[i], history[i + w.limit]) && history[i + w.limit] <= t;
      }
      CountSuffix(w, history, t, w.limit);
    }
  }

  /** The same by the clock: of any limit + 1 admissions in a row the last comes at least one window after the
      first, and strictly later where the edge of the window still counts. */
  lemma {:induction false} NoBurst(w: Window, bucket: seq<Time>, history: seq<Time>, now: Time, i: nat)
    requires Sound(w, bucket, history, now) && i + w.limit < |history|
    ensures history[i + w.limit] >= history[i] + w.length
    ensures w.keepsEdge ==> history[i + w.limit] > history[i] + w.length
  {
  }

  /** And an admission is refused only for a reason: limit of them are less than a window old, or exactly one
      where the edge counts. */
  lemma {:induction false} RefusedOnlyWhenFull(w: Window, bucket: seq<Time>, history: seq<Time>, now: Time)
    requires Sound(w, bucket, history, now) && |Pruned(w, bucket, now)| >= w.limit
    ensures |history| >= w.limit
    ensures var oldest := history[|history| - w.limit];
            if w.keepsEdge then oldest >= now - w.length else oldest > now - w.length
  {
    PrunedIsSuffix(w, bucket, history, now);
    var kept := Pruned(w, bucket, now);
    assert history[|history| - w.limit] == kept[|kept| - w.limit];
  }

  /** One limiter: a bucket of admission times per key. */
  class RateLimiter {
    const window: Window
    var buckets: Times
    /** Every admission since a key's bucket was last cleared, and the newest time seen. */
    ghost var history: Times
    ghost var clock: Time

    ghost predicate Valid()
      reads this
    {
      AllSound(window, buckets, history, clock)
    }

    constructor (window: Window, start: Time)
      requires window.limit > 0 && window.length >= 0
      ensures Valid() && this.window == window && history == map[] && clock == start
    {
      this.window := window;
      buckets := map[];
      history := map[];
      clock := start;
    }

    /** Drops admissions from the front until one still counts. */
    method Prune(bucket: seq<Time>, now: Time) returns (kept: seq<Time>)
      ensures kept == Pruned(window, bucket, now)
    {
      kept := bucket;
      while kept != [] && !Counts(window, kept[0], now)
        invariant Pruned(window, kept, now) == Pruned(window, bucket, now)
      {
        kept := kept[1..];
      }
    }

    /** Admits and records a call, or refuses it when its window is full. The clock does not go back. */
    method Check(key: string, now: Time) returns (admitted: bool)
      requires Valid() && clock <= now
      modifies this
      ensures Valid() && clock == now
      ensures var kept := Pruned(window, Of(old(buckets), key), now);
              && (admitted <==> |kept| < window.limit)
              && buckets == old(buckets)[key := if admitted then kept + [now] else kept]
      ensures var before := Of(old(history), key);
              && (admitted <==> InWindow(window, before, now) < window.limit)
              && history == old(history)[key := if admitted then before + [now] else before]
    {
      var bucket := Of(buckets, key);
      ghost var before := Of(history, key);
      CheckOne(window, buckets, history, key, clock, now);
      bucket := Prune(bucket, now);
      clock := now;
      admitted := |bucket| < window.limit;
      if admitted {
        bucket := bucket + [now];
      }
      buckets := buckets[key := bucket];
      history := history[key := if admitted then before + [now] else before];
    }

    /** A successful log-in forgets the key's attempts. */
    method Clear(key: string)
      requires Valid()
      modifies this
      ensures Valid() && clock == old(clock)
      ensures buckets == old(buckets) - {key} && history == old(history) - {key}
    {
      buckets := buckets - {key};
      history := history - {key};
    }

    /** In every state a limiter can reach, no window of any key is over its limit. */
    lemma {:induction false} Bounded(key: string, t: Time)
      requires Valid() && key in history
      ensures InWindow(window, history[key], t) <= window.limit
    {
      assert Sound(window, buckets[key], history[key], clock);
      NeverOverLimit(window, history[key], t);
    }
  }
}
