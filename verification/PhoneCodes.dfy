/** One-time SMS codes as a transition system: asking for a code, checking one, and the bounds that hold
    over every run under a clock that does not go back. */
module PhoneCodes {

  type Time = int

  datatype Option<+T> = None | Some(value: T)

  datatype Purpose = SignIn | Payout | Reset

  datatype Settings = Settings(ttl: int, resend: int, maxAttempts: nat, lockout: int, hourlyLimit: nat)

  /** Settings are validated to be positive when they are loaded. */
  predicate ValidSettings(s: Settings) {
    s.ttl > 0 && s.resend > 0 && s.maxAttempts > 0 && s.lockout > 0 && s.hourlyLimit > 0
  }

  const HOUR: int := 3600

  datatype Code = Code(
    phone: string, purpose: Purpose, attempts: nat, createdAt: Time, expiresAt: Time,
    consumedAt: Option<Time>, lockedUntil: Option<Time>)

  /** A comparison of a guess with a code that left a trace: a wrong guess, or a committed success. */
  datatype Mark = Mark(code: nat, at: Time, won: bool)

  /** Code rows in creation order, the traces so far, and the newest time seen. */
  datatype Auth = Auth(codes: seq<Code>, marks: seq<Mark>, clock: Time)

  const EMPTY := Auth([], [], 0)

  predicate For(c: Code, phone: string, purpose: Purpose) {
    c.phone == phone && c.purpose == purpose
  }

  predicate Alike(c: Code, d: Code) {
    c.phone == d.phone && c.purpose == d.purpose
  }

  /** The position of the newest code for a phone and purpose, or -1. */
  function Latest(codes: seq<Code>, phone: string, purpose: Purpose): (k: int)
    ensures -1 <= k < |codes|
    ensures k >= 0 ==> For(codes[k], phone, purpose)
    ensures forall j :: k < j < |codes| ==> !For(codes[j], phone, purpose)
  {
    if codes == [] then -1
    else if For(codes[|codes| - 1], phone, purpose) then |codes| - 1
    else Latest(codes[..|codes| - 1], phone, purpose)
  }

  /** Codes of a phone, for any purpose, created after one moment and not after another. */
  function Created(codes: seq<Code>, phone: string, since: Time, to: Time): nat {
    if codes == [] then 0
    else
      var c := codes[|codes| - 1];
      Created(codes[..|codes| - 1], phone, since, to) + if c.phone == phone && since < c.createdAt <= to then 1 else 0
  }

  /** Codes of a phone in the hour that ends at a moment. */
  function LastHour(codes: seq<Code>, phone: string, now: Time): nat {
    Created(codes, phone, now - HOUR, now)
  }

  // ----- asking for a code

  datatype RequestAnswer = Issued(expiresAt: Time) | Limited

  predicate Locked(c: Code, now: Time) {
    c.lockedUntil.Some? && c.lockedUntil.value > now
  }

  /** Refused while locked out, too soon after an unused code, or when the hour is full. The client's own
      quota is checked last. */
  predicate MayIssue(s: Settings, codes: seq<Code>, phone: string, purpose: Purpose, quota: bool, now: Time) {
    var k := Latest(codes, phone, purpose);
    && (k >= 0 ==> !Locked(codes[k], now) && !(codes[k].consumedAt.None? && codes[k].createdAt + s.resend > now))
    && LastHour(codes, phone, now) < s.hourlyLimit
    && quota
  }

  /** A new code replaces any earlier one. */
  function Replaced(codes: seq<Code>, phone: string, purpose: Purpose, now: Time): (r: seq<Code>)
    ensures |r| == |codes|
  {
    seq(|codes|, i requires 0 <= i < |codes| =>
      if For(codes[i], phone, purpose) && codes[i].consumedAt.None? then codes[i].(consumedAt := Some(now))
      else codes[i])
  }

  function Fresh(s: Settings, phone: string, purpose: Purpose, now: Time): Code {
    Code(phone, purpose, 0, now, now + s.ttl, None, None)
  }

  function Request(s: Settings, a: Auth, phone: string, purpose: Purpose, quota: bool,
        now: Time): (Auth, RequestAnswer) {
    if !MayIssue(s, a.codes, phone, purpose, quota, now) then (a.(clock := now), Limited)
    else
      (Auth(Replaced(a.codes, phone, purpose, now) + [Fresh(s, phone, purpose, now)], a.marks, now),
       Issued(now + s.ttl))
  }

  // ----- checking a code

  datatype CheckAnswer = Accepted | LockedOut | Expired | Invalid(attemptsLeft: int)

  /** A wrong guess at a live code: one try fewer, and at the last one the code is used up and locked. */
  function WrongGuess(s: Settings, a: Auth, k: nat, now: Time): (Auth, CheckAnswer)
    requires k < |a.codes|
  {
    var tries, marked := a.codes[k].attempts + 1, a.marks + [Mark(k, now, false)];
    if tries >= s.maxAttempts then
      var row := a.codes[k].(attempts := tries, consumedAt := Some(now), lockedUntil := Some(now + s.lockout));
      (Auth(a.codes[k := row], marked, now),
       LockedOut)
    else
      (Auth(a.codes[k := a.codes[k].(attempts := tries)], marked, now), Invalid(s.maxAttempts - tries))
  }

  /** Checks a guess. A wrong one is committed at once; a right one only if the caller commits. */
  function Check(s: Settings, a: Auth, phone: string, purpose: Purpose, matches: bool, committed: bool,
        now: Time): (Auth, CheckAnswer) {
    var k := Latest(a.codes, phone, purpose);
    if k >= 0 && Locked(a.codes[k], now) then (a.(clock := now), LockedOut)
    else if k < 0 || a.codes[k].consumedAt.Some? || a.codes[k].expiresAt <= now then (a.(clock := now), Expired)
    else if !matches then WrongGuess(s, a, k, now)
    else if committed then
      (Auth(a.codes[k := a.codes[k].(consumedAt := Some(now))], a.marks + [Mark(k, now, true)], now), Accepted)
    else (a.(clock := now), Accepted)
  }

  // ----- runs

  datatype Step =
    | AskCode(phone: string, purpose: Purpose, quota: bool, now: Time)
    | TryCode(phone: string, purpose: Purpose, matches: bool, committed: bool, now: Time)

  /** A step before the newest time seen does not happen. */
  function Next(s: Settings, a: Auth, step: Step): Auth {
    if step.now < a.clock then a
    else match step
      case AskCode(phone, purpose, quota, now) => Request(s, a, phone, purpose, quota, now).0
      case TryCode(phone, purpose, matches, committed, now) => Check(s, a, phone, purpose, matches, committed, now).0
  }

  function Run(s: Settings, steps: seq<Step>): Auth {
    if steps == [] then EMPTY else Next(s, Run(s, steps[..|steps| - 1]), steps[|steps| - 1])
  }

  // ----- the invariant

  function MarksOn(marks: seq<Mark>, k: nat): nat {
    if marks == [] then 0 else MarksOn(marks[..|marks| - 1], k) + if marks[|marks| - 1].code == k then 1 else 0
  }

  /** Codes are in order of time, and only the newest code of a phone and purpose can be unused. */
  ghost predicate OrderOk(codes: seq<Code>, clock: Time) {
    && (forall i, j :: 0 <= i < j < |codes| ==> codes[i].createdAt <= codes[j].createdAt)
    && (forall i :: 0 <= i < |codes| ==> codes[i].createdAt <= clock)
    && (forall i, j :: 0 <= i < j < |codes| && Alike(codes[i], codes[j]) ==> codes[i].consumedAt.Some?)
  }

  ghost predicate HourOk(s: Settings, codes: seq<Code>) {
    forall phone, t :: LastHour(codes, phone, t) <= s.hourlyLimit
  }

  /** A guess is compared with the newest code of its time. */
  ghost predicate MarksOk(codes: seq<Code>, marks: seq<Mark>, clock: Time) {
    && (forall i :: 0 <= i < |marks| ==>
         marks[i].code < |codes| && codes[marks[i].code].createdAt <= marks[i].at <= clock)
    && (forall i, j :: 0 <= i < |marks| && marks[i].code < j < |codes| && Alike(codes[marks[i].code], codes[j]) ==>
         marks[i].at <= codes[j].createdAt)
  }

  ghost predicate CountOk(s: Settings, c: Code, marksOn: nat) {
    && marksOn <= s.maxAttempts
    && (c.consumedAt.None? ==> marksOn == c.attempts < s.maxAttempts && c.lockedUntil.None?)
  }

  ghost predicate CountsOk(s: Settings, codes: seq<Code>, marks: seq<Mark>) {
    forall k: nat :: k < |codes| ==> CountOk(s, codes[k], MarksOn(marks, k))
  }

  /** A success uses its code up, so nothing is compared with the code again. */
  ghost predicate WinsOk(codes: seq<Code>, marks: seq<Mark>) {
    && (forall i :: 0 <= i < |marks| && marks[i].won && marks[i].code < |codes| ==>
         codes[marks[i].code].consumedAt.Some?)
    && (forall i, j :: 0 <= i < j < |marks| && marks[i].won ==> marks[j].code != marks[i].code)
  }

  ghost predicate Inv(s: Settings, a: Auth) {
    && OrderOk(a.codes, a.clock) && HourOk(s, a.codes) && MarksOk(a.codes, a.marks, a.clock)
    && CountsOk(s, a.codes, a.marks) && WinsOk(a.codes, a.marks)
  }

  // ----- requests keep it

  lemma {:induction false} CreatedSame(a: seq<Code>, b: seq<Code>, phone: string, since: Time, to: Time)
    requires |a| == |b| && forall i :: 0 <= i < |a| ==> a[i].phone == b[i].phone && a[i].createdAt == b[i].createdAt
    ensures Created(a, phone, since, to) == Created(b, phone, since, to)
    decreases |a|
  {
    if a != [] {
      CreatedSame(a[..|a| - 1], b[..|b| - 1], phone, since, to);
    }
  }

  lemma {:induction false} CreatedShrinks(codes: seq<Code>, phone: string, since: Time, to: Time, since': Time,
        to': Time)
    requires since <= since' && forall i :: 0 <= i < |codes| ==> codes[i].createdAt <= to
    ensures Created(codes, phone, since', to') <= Created(codes, phone, since, to)
    decreases |codes|
  {
    if codes != [] {
      CreatedShrinks(codes[..|codes| - 1], phone, since, to, since', to');
    }
  }

  lemma {:induction false} CreatedSnoc(codes: seq<Code>, c: Code, phone: string, since: Time, to: Time)
    ensures Created(codes + [c], phone, since, to) == Created(codes, phone, since, to) +
            if c.phone == phone && since < c.createdAt <= to then 1 else 0
  {
    assert (codes + [c])[..|codes|] == codes;
  }

  lemma {:induction false} IssueKeepsOrder(s: Settings, codes: seq<Code>, clock: Time, phone: string,
        purpose: Purpose, now: Time)
    requires OrderOk(codes, clock) && clock <= now
    ensures OrderOk(Replaced(codes, phone, purpose, now) + [Fresh(s, phone, purpose, now)], now)
  {
  }

  lemma {:induction false} IssueKeepsHour(s: Settings, codes: seq<Code>, clock: Time, phone: string,
        purpose: Purpose, now: Time)
    requires OrderOk(codes, clock) && HourOk(s, codes) && clock <= now && LastHour(codes, phone, now) < s.hourlyLimit
    ensures HourOk(s, Replaced(codes, phone, purpose, now) + [Fresh(s, phone, purpose, now)])
  {
    var replaced, code := Replaced(codes, phone, purpose, now), Fresh(s, phone, purpose, now);
    forall p, t
      ensures LastHour(replaced + [code], p, t) <= s.hourlyLimit
    {
      CreatedSnoc(replaced, code, p, t - HOUR, t);
      CreatedSame(replaced, codes, p, t - HOUR, t);
      assert LastHour(codes, p, t) <= s.hourlyLimit;
      if p == phone && t - HOUR < now <= t {
        CreatedShrinks(codes, phone, now - HOUR, now, t - HOUR, t);
      }
    }
  }

  lemma {:induction false} IssueKeepsMarks(s: Settings, codes: seq<Code>, marks: seq<Mark>, clock: Time,
        phone: string, purpose: Purpose, now: Time)
    requires OrderOk(codes, clock) && MarksOk(codes, marks, clock) && WinsOk(codes, marks) && clock <= now
    ensures var after := Replaced(codes, phone, purpose, now) + [Fresh(s, phone, purpose, now)];
            MarksOk(after, marks, now) && WinsOk(after, marks)
  {
  }

  lemma {:induction false} IssueKeepsCounts(s: Settings, codes: seq<Code>, marks: seq<Mark>, clock: Time,
        phone: string, purpose: Purpose, now: Time)
    requires ValidSettings(s) && MarksOk(codes, marks, clock) && CountsOk(s, codes, marks)
    ensures CountsOk(s, Replaced(codes, phone, purpose, now) + [Fresh(s, phone, purpose, now)], marks)
  {
    NoMarksYet(marks, |codes|);
    var after := Replaced(codes, phone, purpose, now) + [Fresh(s, phone, purpose, now)];
    forall k: nat | k < |after|
      ensures CountOk(s, after[k], MarksOn(marks, k))
    {
      if k < |codes| {
        assert CountOk(s, codes[k], MarksOn(marks, k));
      }
    }
  }

  lemma {:induction false} NoMarksYet(marks: seq<Mark>, k: nat)
    requires forall i :: 0 <= i < |marks| ==> marks[i].code < k
    ensures MarksOn(marks, k) == 0
  {
    if marks != [] {
      NoMarksYet(marks[..|marks| - 1], k);
    }
  }

  lemma {:induction false} RequestKeeps(s: Settings, a: Auth, phone: string, purpose: Purpose, quota: bool, now: Time)
    requires ValidSettings(s) && Inv(s, a) && a.clock <= now
    ensures Inv(s, Request(s, a, phone, purpose, quota, now).0)
  {
    if MayIssue(s, a.codes, phone, purpose, quota, now) {
      IssueKeepsOrder(s, a.codes, a.clock, phone, purpose, now);
      IssueKeepsHour(s, a.codes, a.clock, phone, purpose, now);
      IssueKeepsMarks(s, a.codes, a.marks, a.clock, phone, purpose, now);
      IssueKeepsCounts(s, a.codes, a.marks, a.clock, phone, purpose, now);
    }
  }

  // ----- checks keep it

  lemma {:induction false} MarksSnoc(marks: seq<Mark>, m: Mark, k: nat)
    ensures MarksOn(marks + [m], k) == MarksOn(marks, k) + if m.code == k then 1 else 0
  {
    assert (marks + [m])[..|marks|] == marks;
  }

  /** An answer that leaves a trace changes one unused code, the newest of its kind, and adds one mark. */
  ghost predicate Traces(s: Settings, codes: seq<Code>, k: nat, c: Code, won: bool) {
    && k < |codes| && codes[k].consumedAt.None?
    && k == Latest(codes, codes[k].phone, codes[k].purpose)
    && c == codes[k].(attempts := c.attempts, consumedAt := c.consumedAt, lockedUntil := c.lockedUntil)
    && (won ==> c.consumedAt.Some?)
    && (c.consumedAt.None? ==>
         c.attempts == codes[k].attempts + 1 < s.maxAttempts && c.lockedUntil == codes[k].lockedUntil)
  }

  lemma {:induction false} TraceKeepsCodes(s: Settings, codes: seq<Code>, clock: Time, k: nat, c: Code,
        now: Time, won: bool)
    requires OrderOk(codes, clock) && HourOk(s, codes) && clock <= now && Traces(s, codes, k, c, won)
    ensures OrderOk(codes[k := c], now) && HourOk(s, codes[k := c])
  {
    var after := codes[k := c];
    forall p, t
      ensures LastHour(after, p, t) <= s.hourlyLimit
    {
      CreatedSame(after, codes, p, t - HOUR, t);
      assert LastHour(codes, p, t) <= s.hourlyLimit;
    }
  }

  lemma {:induction false} TraceKeepsMarks(s: Settings, codes: seq<Code>, marks: seq<Mark>, clock: Time,
        k: nat, c: Code, now: Time, won: bool)
    requires OrderOk(codes, clock) && MarksOk(codes, marks, clock) && WinsOk(codes, marks)
    requires clock <= now && Traces(s, codes, k, c, won)
    ensures MarksOk(codes[k := c], marks + [Mark(k, now, won)], now)
    ensures WinsOk(codes[k := c], marks + [Mark(k, now, won)])
  {
  }

  lemma {:induction false} TraceKeepsCounts(s: Settings, codes: seq<Code>, marks: seq<Mark>, k: nat, c: Code,
        now: Time, won: bool)
    requires ValidSettings(s) && CountsOk(s, codes, marks) && Traces(s, codes, k, c, won)
    ensures CountsOk(s, codes[k := c], marks + [Mark(k, now, won)])
  {
    forall j: nat | j < |codes|
      ensures CountOk(s, codes[k := c][j], MarksOn(marks + [Mark(k, now, won)], j))
    {
      MarksSnoc(marks, Mark(k, now, won), j);
      assert CountOk(s, codes[j], MarksOn(marks, j));
    }
  }

  lemma {:induction false} TraceKeeps(s: Settings, a: Auth, k: nat, c: Code, now: Time, won: bool)
    requires ValidSettings(s) && Inv(s, a) && a.clock <= now && Traces(s, a.codes, k, c, won)
    ensures Inv(s, Auth(a.codes[k := c], a.marks + [Mark(k, now, won)], now))
  {
    TraceKeepsCodes(s, a.codes, a.clock, k, c, now, won);
    TraceKeepsMarks(s, a.codes, a.marks, a.clock, k, c, now, won);
    TraceKeepsCounts(s, a.codes, a.marks, k, c, now, won);
  }

  lemma {:induction false} LiveTraces(s: Settings, codes: seq<Code>, phone: string, purpose: Purpose, now: Time)
    requires var k := Latest(codes, phone, purpose); k >= 0 && codes[k].consumedAt.None?
    ensures var k := Latest(codes, phone, purpose);
            && Traces(s, codes, k, codes[k].(consumedAt := Some(now)), true)
            && Traces(s, codes, k, WrongGuess(s, Auth(codes, [], now), k, now).0.codes[k], false)
  {
  }

  /** A wrong guess changes one row and marks it. */
  lemma {:induction false} WrongGuessRow(s: Settings, a: Auth, k: nat, now: Time)
    requires k < |a.codes|
    ensures var r := WrongGuess(s, a, k, now).0;
            |r.codes| == |a.codes| && r == Auth(a.codes[k := r.codes[k]], a.marks + [Mark(k, now, false)], now)
  {
  }

  lemma {:induction false} WrongGuessKeeps(s: Settings, a: Auth, phone: string, purpose: Purpose, now: Time)
    requires ValidSettings(s) && Inv(s, a) && a.clock <= now
    requires var k := Latest(a.codes, phone, purpose); k >= 0 && a.codes[k].consumedAt.None?
    ensures Inv(s, WrongGuess(s, a, Latest(a.codes, phone, purpose), now).0)
  {
    var k := Latest(a.codes, phone, purpose);
    LiveTraces(s, a.codes, phone, purpose, now);
    TraceKeeps(s, a, k, WrongGuess(s, a, k, now).0.codes[k], now, false);
    WrongGuessRow(s, a, k, now);
  }

  lemma {:induction false} SuccessKeeps(s: Settings, a: Auth, phone: string, purpose: Purpose, now: Time)
    requires ValidSettings(s) && Inv(s, a) && a.clock <= now
    requires var k := Latest(a.codes, phone, purpose); k >= 0 && a.codes[k].consumedAt.None?
    ensures var k := Latest(a.codes, phone, purpose);
            Inv(s, Auth(a.codes[k := a.codes[k].(consumedAt := Some(now))], a.marks + [Mark(k, now, true)], now))
  {
    var k := Latest(a.codes, phone, purpose);
    LiveTraces(s, a.codes, phone, purpose, now);
    TraceKeeps(s, a, k, a.codes[k].(consumedAt := Some(now)), now, true);
  }

  lemma {:induction false} LaterKeeps(s: Settings, a: Auth, now: Time)
    requires Inv(s, a) && a.clock <= now
    ensures Inv(s, a.(clock := now))
  {
  }

  lemma {:induction false} CheckKeeps(s: Settings, a: Auth, phone: string, purpose: Purpose, matches: bool,
        committed: bool, now: Time)
    requires ValidSettings(s) && Inv(s, a) && a.clock <= now
    ensures Inv(s, Check(s, a, phone, purpose, matches, committed, now).0)
  {
    LaterKeeps(s, a, now);
    var k := Latest(a.codes, phone, purpose);
    if k >= 0 && a.codes[k].consumedAt.None? {
      WrongGuessKeeps(s, a, phone, purpose, now);
      SuccessKeeps(s, a, phone, purpose, now);
    }
  }

  lemma {:induction false} NextKeeps(s: Settings, a: Auth, step: Step)
    requires ValidSettings(s) && Inv(s, a)
    ensures Inv(s, Next(s, a, step))
  {
    if a.clock <= step.now {
      match step
      case AskCode(phone, purpose, quota, now) => RequestKeeps(s, a, phone, purpose, quota, now);
      case TryCode(phone, purpose, matches, committed, now) =>
        CheckKeeps(s, a, phone, purpose, matches, committed, now);
    }
  }

  lemma {:induction false} RunsKeepInv(s: Settings, steps: seq<Step>)
    requires ValidSettings(s)
    ensures Inv(s, Run(s, steps))
    decreases |steps|
  {
    if steps != [] {
      RunsKeepInv(s, steps[..|steps| - 1]);
      NextKeeps(s, Run(s, steps[..|steps| - 1]), steps[|steps| - 1]);
    }
  }

  // ----- what every run keeps to

  /** At most one code of a phone and purpose is unused, in every state of every run. */
  lemma {:induction false} OneUnused(s: Settings, steps: seq<Step>, i: nat, j: nat)
    requires ValidSettings(s)
    requires i < |Run(s, steps).codes| && j < |Run(s, steps).codes|
    requires var codes := Run(s, steps).codes;
             Alike(codes[i], codes[j]) && codes[i].consumedAt.None? && codes[j].consumedAt.None?
    ensures i == j
  {
    RunsKeepInv(s, steps);
    assert Alike(Run(s, steps).codes[j], Run(s, steps).codes[i]);
  }

  /** A code is used up by a success at most once, and nothing is compared with it afterwards. */
  lemma {:induction false} SucceedsOnce(s: Settings, steps: seq<Step>, i: nat, j: nat)
    requires ValidSettings(s)
    requires i < j < |Run(s, steps).marks| && Run(s, steps).marks[i].won
    ensures Run(s, steps).marks[j].code != Run(s, steps).marks[i].code
  {
    RunsKeepInv(s, steps);
  }

  /** No rolling hour of any run issues a phone more codes than the hourly limit. */
  lemma {:induction false} HourlyLimitHolds(s: Settings, steps: seq<Step>, phone: string, t: Time)
    requires ValidSettings(s)
    ensures Created(Run(s, steps).codes, phone, t - HOUR, t) <= s.hourlyLimit
  {
    RunsKeepInv(s, steps);
    assert LastHour(Run(s, steps).codes, phone, t) <= s.hourlyLimit;
  }

  // ----- how many guesses an hour allows

  predicate Within(m: Mark, since: Time, to: Time) {
    since < m.at <= to
  }

  /** Guesses compared with the codes of a phone and purpose after one moment and not after another. */
  function Guesses(codes: seq<Code>, marks: seq<Mark>, phone: string, purpose: Purpose, since: Time, to: Time): nat {
    if marks == [] then 0
    else
      var m := marks[|marks| - 1];
      Guesses(codes, marks[..|marks| - 1], phone, purpose, since, to) +
      if m.code < |codes| && For(codes[m.code], phone, purpose) && Within(m, since, to) then 1 else 0
  }

  function OnCode(marks: seq<Mark>, k: nat, since: Time, to: Time): (n: nat)
    ensures n <= MarksOn(marks, k)
  {
    if marks == [] then 0
    else
      var m := marks[|marks| - 1];
      OnCode(marks[..|marks| - 1], k, since, to) + if m.code == k && Within(m, since, to) then 1 else 0
  }

  /** The same guesses counted code by code, over the first n codes. */
  function ByCode(codes: seq<Code>, marks: seq<Mark>, phone: string, purpose: Purpose, since: Time, to: Time,
        n: nat): nat
    requires n <= |codes|
  {
    if n == 0 then 0
    else
      ByCode(codes, marks, phone, purpose, since, to, n - 1) +
      if For(codes[n - 1], phone, purpose) then OnCode(marks, n - 1, since, to) else 0
  }

  lemma {:induction false} ByCodeSnoc(codes: seq<Code>, marks: seq<Mark>, phone: string, purpose: Purpose,
        since: Time, to: Time, n: nat)
    requires n <= |codes| && marks != []
    ensures var m := marks[|marks| - 1];
            ByCode(codes, marks, phone, purpose, since, to, n) ==
            ByCode(codes, marks[..|marks| - 1], phone, purpose, since, to, n) +
            if m.code < n && For(codes[m.code], phone, purpose) && Within(m, since, to) then 1 else 0
    decreases n
  {
    if n > 0 {
      ByCodeSnoc(codes, marks, phone, purpose, since, to, n - 1);
    }
  }

  lemma {:induction false} NothingByCode(codes: seq<Code>, phone: string, purpose: Purpose, since: Time, to: Time,
        n: nat)
    requires n <= |codes|
    ensures ByCode(codes, [], phone, purpose, since, to, n) == 0
  {
    if n > 0 {
      NothingByCode(codes, phone, purpose, since, to, n - 1);
    }
  }

  lemma {:induction false} CountedEitherWay(codes: seq<Code>, marks: seq<Mark>, phone: string,
        purpose: Purpose, since: Time, to: Time)
    ensures Guesses(codes, marks, phone, purpose, since, to) == ByCode(codes, marks, phone, purpose, since, to, |codes|)
    decreases |marks|
  {
    if marks == [] {
      NothingByCode(codes, phone, purpose, since, to, |codes|);
    } else {
      CountedEitherWay(codes, marks[..|marks| - 1], phone, purpose, since, to);
      ByCodeSnoc(codes, marks, phone, purpose, since, to, |codes|);
    }
  }

  lemma {:induction false} GuessOnCode(marks: seq<Mark>, k: nat, since: Time, to: Time) returns (i: nat)
    requires OnCode(marks, k, since, to) > 0
    ensures i < |marks| && marks[i].code == k && Within(marks[i], since, to)
    decreases |marks|
  {
    var m := marks[|marks| - 1];
    if m.code == k && Within(m, since, to) {
      i := |marks| - 1;
    } else {
      i := GuessOnCode(marks[..|marks| - 1], k, since, to);
    }
  }

  lemma {:induction false} GuessByCode(codes: seq<Code>, marks: seq<Mark>, phone: string, purpose: Purpose,
        since: Time, to: Time, n: nat)
    returns (i: nat)
    requires n <= |codes| && ByCode(codes, marks, phone, purpose, since, to, n) > 0
    ensures i < |marks| && marks[i].code < n && For(codes[marks[i].code], phone, purpose) && Within(marks[i], since, to)
  {
    if For(codes[n - 1], phone, purpose) && OnCode(marks, n - 1, since, to) > 0 {
      i := GuessOnCode(marks, n - 1, since, to);
    } else {
      i := GuessByCode(codes, marks, phone, purpose, since, to, n - 1);
    }
  }

  /** A second code guessed at inside the period was created inside it: it replaced one still being guessed at. */
  lemma {:induction false} SecondCodeIsNew(codes: seq<Code>, marks: seq<Mark>, clock: Time, phone: string,
        purpose: Purpose, since: Time, to: Time, k: nat)
    requires k < |codes| && MarksOk(codes, marks, clock) && For(codes[k], phone, purpose)
    requires OnCode(marks, k, since, to) > 0 && ByCode(codes, marks, phone, purpose, since, to, k) > 0
    ensures since < codes[k].createdAt <= to
  {
    var i := GuessOnCode(marks, k, since, to);
    var earlier := GuessByCode(codes, marks, phone, purpose, since, to, k);
    assert Alike(codes[marks[earlier].code], codes[k]);
  }

  lemma {:induction false} TimesMonotone(m: nat, a: nat, b: nat)
    requires a <= b
    ensures m * a <= m * b
  {
  }

  ghost predicate Bounded(s: Settings, guesses: nat, made: nat) {
    guesses <= s.maxAttempts * (made + if guesses > 0 then 1 else 0)
  }

  lemma {:induction false} AddGuesses(s: Settings, guesses: nat, made: nat, more: nat, made': nat)
    requires Bounded(s, guesses, made) && more <= s.maxAttempts && made <= made'
    requires more > 0 && guesses > 0 ==> made' == made + 1
    ensures Bounded(s, guesses + more, made')
  {
    TimesMonotone(s.maxAttempts, made, made');
    assert s.maxAttempts * (made + 1) == s.maxAttempts * made + s.maxAttempts;
    assert s.maxAttempts * (made' + 1) == s.maxAttempts * made' + s.maxAttempts;
  }

  lemma {:induction false} GuessesNeedCodes(s: Settings, codes: seq<Code>, marks: seq<Mark>, clock: Time,
        phone: string, purpose: Purpose, since: Time, to: Time, n: nat)
    requires n <= |codes| && MarksOk(codes, marks, clock) && CountsOk(s, codes, marks)
    ensures Bounded(s, ByCode(codes, marks, phone, purpose, since, to, n), Created(codes[..n], phone, since, to))
  {
    if n > 0 {
      var k := n - 1;
      GuessesNeedCodes(s, codes, marks, clock, phone, purpose, since, to, k);
      assert codes[..n][..k] == codes[..k];
      var before, made, made' := ByCode(codes, marks, phone, purpose, since, to, k),
          Created(codes[..k], phone, since, to), Created(codes[..n], phone, since, to);
      var more := if For(codes[k], phone, purpose) then OnCode(marks, k, since, to) else 0;
      assert CountOk(s, codes[k], MarksOn(marks, k));
      if more > 0 && before > 0 {
        SecondCodeIsNew(codes, marks, clock, phone, purpose, since, to, k);
      }
      AddGuesses(s, before, made, more, made');
    }
  }

  lemma {:induction false} FewCodesFewGuesses(s: Settings, guesses: nat, made: nat)
    requires Bounded(s, guesses, made) && made <= s.hourlyLimit
    ensures guesses <= (s.hourlyLimit + 1) * s.maxAttempts
  {
    TimesMonotone(s.maxAttempts, made + if guesses > 0 then 1 else 0, s.hourlyLimit + 1);
  }

  lemma {:induction false} GuessesInHour(s: Settings, a: Auth, phone: string, purpose: Purpose, t: Time)
    requires MarksOk(a.codes, a.marks, a.clock) && CountsOk(s, a.codes, a.marks)
    requires Created(a.codes, phone, t - HOUR, t) <= s.hourlyLimit
    ensures Guesses(a.codes, a.marks, phone, purpose, t - HOUR, t) <= (s.hourlyLimit + 1) * s.maxAttempts
  {
    CountedEitherWay(a.codes, a.marks, phone, purpose, t - HOUR, t);
    GuessesNeedCodes(s, a.codes, a.marks, a.clock, phone, purpose, t - HOUR, t, |a.codes|);
    assert a.codes[..|a.codes|] == a.codes;
    FewCodesFewGuesses(s, Guesses(a.codes, a.marks, phone, purpose, t - HOUR, t), Created(a.codes, phone, t - HOUR, t));
  }

  /** In any rolling hour of any run, the guesses a phone can make for one purpose stay within
      (hourly limit + 1) times the attempts a code allows. */
  lemma {:induction false} GuessBound(s: Settings, steps: seq<Step>, phone: string, purpose: Purpose, t: Time)
    requires ValidSettings(s)
    ensures Guesses(Run(s, steps).codes, Run(s, steps).marks, phone, purpose, t - HOUR, t)
            <= (s.hourlyLimit + 1) * s.maxAttempts
  {
    RunsKeepInv(s, steps);
    HourlyLimitHolds(s, steps, phone, t);
    GuessesInHour(s, Run(s, steps), phone, purpose, t);
  }

  // ----- guesses whose caller rolls back

  /** Whether a step reaches the comparison of its guess with a live code. */
  predicate Compares(a: Auth, step: Step) {
    && step.TryCode? && a.clock <= step.now
    && var k := Latest(a.codes, step.phone, step.purpose);
       k >= 0 && !Locked(a.codes[k], step.now) && a.codes[k].consumedAt.None? && a.codes[k].expiresAt > step.now
  }

  predicate About(step: Step, phone: string, purpose: Purpose, since: Time, to: Time) {
    step.phone == phone && step.purpose == purpose && since < step.now <= to
  }

  /** A right guess whose caller then refuses the user and rolls the session back. */
  predicate RollsBack(step: Step) {
    step.TryCode? && step.matches && !step.committed
  }

  /** Comparisons made in a run; of those, the ones rolled back. */
  function Compared(s: Settings, steps: seq<Step>, phone: string, purpose: Purpose, since: Time, to: Time): nat {
    if steps == [] then 0
    else
      var rest, step := steps[..|steps| - 1], steps[|steps| - 1];
      Compared(s, rest, phone, purpose, since, to) +
      if Compares(Run(s, rest), step) && About(step, phone, purpose, since, to) then 1 else 0
  }

  function Forgotten(s: Settings, steps: seq<Step>, phone: string, purpose: Purpose, since: Time, to: Time): nat {
    if steps == [] then 0
    else
      var rest, step := steps[..|steps| - 1], steps[|steps| - 1];
      Forgotten(s, rest, phone, purpose, since, to) +
      if Compares(Run(s, rest), step) && RollsBack(step) && About(step, phone, purpose, since, to) then 1 else 0
  }

  lemma {:induction false} GuessesSame(a: seq<Code>, b: seq<Code>, marks: seq<Mark>, phone: string,
        purpose: Purpose, since: Time, to: Time)
    requires |a| <= |b| && forall i :: 0 <= i < |a| ==> Alike(a[i], b[i])
    requires forall i :: 0 <= i < |marks| ==> marks[i].code < |a|
    ensures Guesses(a, marks, phone, purpose, since, to) == Guesses(b, marks, phone, purpose, since, to)
    decreases |marks|
  {
    if marks != [] {
      GuessesSame(a, b, marks[..|marks| - 1], phone, purpose, since, to);
    }
  }

  lemma {:induction false} GuessesSnoc(codes: seq<Code>, marks: seq<Mark>, m: Mark, phone: string,
        purpose: Purpose, since: Time, to: Time)
    ensures Guesses(codes, marks + [m], phone, purpose, since, to) == Guesses(codes, marks, phone, purpose, since, to) +
            if m.code < |codes| && For(codes[m.code], phone, purpose) && Within(m, since, to) then 1 else 0
  {
    assert (marks + [m])[..|marks|] == marks;
  }

  /** A step keeps every code's phone and purpose, and marks exactly the comparisons that stand. */
  lemma {:induction false} StepMarks(s: Settings, a: Auth, step: Step)
    ensures var b := Next(s, a, step);
            && |a.codes| <= |b.codes| && (forall i :: 0 <= i < |a.codes| ==> Alike(a.codes[i], b.codes[i]))
            && b.marks == if Compares(a, step) && !RollsBack(step)
                          then a.marks + [Mark(Latest(a.codes, step.phone, step.purpose), step.now, step.matches)]
                          else a.marks
  {
  }

  lemma {:induction false} GuessesStep(s: Settings, a: Auth, step: Step, phone: string, purpose: Purpose,
        since: Time, to: Time)
    requires MarksOk(a.codes, a.marks, a.clock)
    ensures var b := Next(s, a, step);
            Guesses(b.codes, b.marks, phone, purpose, since, to) ==
                Guesses(a.codes, a.marks, phone, purpose, since, to) +
            if Compares(a, step) && !RollsBack(step) && About(step, phone, purpose, since, to) then 1 else 0
  {
    var b := Next(s, a, step);
    StepMarks(s, a, step);
    GuessesSame(a.codes, b.codes, a.marks, phone, purpose, since, to);
    if Compares(a, step) && !RollsBack(step) {
      var m := Mark(Latest(a.codes, step.phone, step.purpose), step.now, step.matches);
      GuessesSnoc(b.codes, a.marks, m, phone, purpose, since, to);
      assert For(b.codes[m.code], phone, purpose) <==> step.phone == phone && step.purpose == purpose;
    } else {
      assert b.marks == a.marks;
    }
  }

  /** Every comparison either leaves a trace, so the bound holds for it, or is rolled back. */
  lemma {:induction false} ComparedSplits(s: Settings, steps: seq<Step>, phone: string, purpose: Purpose,
        since: Time, to: Time)
    requires ValidSettings(s)
    ensures Compared(s, steps, phone, purpose, since, to) ==
            Guesses(Run(s, steps).codes, Run(s, steps).marks, phone, purpose, since, to) +
            Forgotten(s, steps, phone, purpose, since, to)
    decreases |steps|
  {
    if steps != [] {
      var rest := steps[..|steps| - 1];
      ComparedSplits(s, rest, phone, purpose, since, to);
      RunsKeepInv(s, rest);
      GuessesStep(s, Run(s, rest), steps[|steps| - 1], phone, purpose, since, to);
    }
  }

  function Repeat(step: Step, n: nat): seq<Step> {
    if n == 0 then [] else Repeat(step, n - 1) + [step]
  }

  lemma {:induction false} FirstAsk(s: Settings, phone: string, purpose: Purpose)
    requires ValidSettings(s)
    ensures Run(s, [AskCode(phone, purpose, true, 1)]) == Auth([Fresh(s, phone, purpose, 1)], [], 1)
    ensures Compared(s, [AskCode(phone, purpose, true, 1)], phone, purpose, 1 - HOUR, 1) == 0
  {
    var steps := [AskCode(phone, purpose, true, 1)];
    assert steps[..0] == [];
    assert Run(s, []) == EMPTY;
    assert Replaced([], phone, purpose, 1) == [];
    assert Compared(s, [], phone, purpose, 1 - HOUR, 1) == 0;
  }

  lemma {:induction false} RolledBackStep(s: Settings, phone: string, purpose: Purpose)
    requires ValidSettings(s)
    ensures var a, step := Auth([Fresh(s, phone, purpose, 1)], [], 1), TryCode(phone, purpose, true, false, 1);
            Compares(a, step) && Next(s, a, step) == a
  {
    var codes := [Fresh(s, phone, purpose, 1)];
    assert For(codes[0], phone, purpose);
    assert Latest(codes, phone, purpose) == 0;
  }

  /** Nothing limits rolled back comparisons: one code can be guessed right any number of times at one
      moment by a caller who is then refused, and its row never changes. */
  lemma {:induction false} RolledBackIsUnbounded(s: Settings, phone: string, purpose: Purpose, n: nat)
    requires ValidSettings(s)
    ensures var steps := [AskCode(phone, purpose, true, 1)] + Repeat(TryCode(phone, purpose, true, false, 1), n);
            && Run(s, steps) == Auth([Fresh(s, phone, purpose, 1)], [], 1)
            && Compared(s, steps, phone, purpose, 1 - HOUR, 1) == n
  {
    var ask, guess := AskCode(phone, purpose, true, 1), TryCode(phone, purpose, true, false, 1);
    FirstAsk(s, phone, purpose);
    if n == 0 {
      assert [ask] + Repeat(guess, 0) == [ask];
    } else {
      RolledBackIsUnbounded(s, phone, purpose, n - 1);
      RolledBackStep(s, phone, purpose);
      var steps, rest := [ask] + Repeat(guess, n), [ask] + Repeat(guess, n - 1);
      assert steps[..|steps| - 1] == rest;
      assert steps[|steps| - 1] == guess;
    }
  }

  /** No right guess of a run at a code of the phone and purpose is rolled back. */
  ghost predicate Sticks(steps: seq<Step>, phone: string, purpose: Purpose) {
    forall i :: 0 <= i < |steps| && steps[i].phone == phone && steps[i].purpose == purpose ==> !RollsBack(steps[i])
  }

  lemma {:induction false} NothingForgotten(s: Settings, steps: seq<Step>, phone: string, purpose: Purpose,
        since: Time, to: Time)
    requires Sticks(steps, phone, purpose)
    ensures Forgotten(s, steps, phone, purpose, since, to) == 0
    decreases |steps|
  {
    if steps != [] {
      NothingForgotten(s, steps[..|steps| - 1], phone, purpose, since, to);
    }
  }

  function ComparedInHour(s: Settings, steps: seq<Step>, phone: string, purpose: Purpose, t: Time): nat {
    Compared(s, steps, phone, purpose, t - HOUR, t)
  }

  /** Whether the bound holds for all comparisons, over every run in which callers may, or may not, roll
      a right guess back. */
  ghost predicate BoundsAllGuesses(s: Settings, phone: string, purpose: Purpose, mayRollBack: bool) {
    forall steps, t :: mayRollBack || Sticks(steps, phone, purpose) ==>
      ComparedInHour(s, steps, phone, purpose, t) <= (s.hourlyLimit + 1) * s.maxAttempts
  }

  /** One comparison more than the bound, all rolled back. */
  function TooMany(s: Settings, phone: string, purpose: Purpose): seq<Step> {
    var n := (s.hourlyLimit + 1) * s.maxAttempts + 1;
    [AskCode(phone, purpose, true, 1)] + Repeat(TryCode(phone, purpose, true, false, 1), n)
  }

  lemma {:induction false} TooManyAreTooMany(s: Settings, phone: string, purpose: Purpose)
    requires ValidSettings(s)
    ensures ComparedInHour(s, TooMany(s, phone, purpose), phone, purpose, 1) > (s.hourlyLimit + 1) * s.maxAttempts
  {
    var n: nat := (s.hourlyLimit + 1) * s.maxAttempts + 1;
    RolledBackIsUnbounded(s, phone, purpose, n);
    assert TooMany(s, phone, purpose) ==
        [AskCode(phone, purpose, true, 1)] + Repeat(TryCode(phone, purpose, true, false, 1), n);
  }

  lemma {:induction false} StickyRunsAreBounded(s: Settings, steps: seq<Step>, phone: string, purpose: Purpose, t: Time)
    requires ValidSettings(s) && Sticks(steps, phone, purpose)
    ensures ComparedInHour(s, steps, phone, purpose, t) <= (s.hourlyLimit + 1) * s.maxAttempts
  {
    ComparedSplits(s, steps, phone, purpose, t - HOUR, t);
    NothingForgotten(s, steps, phone, purpose, t - HOUR, t);
    GuessBound(s, steps, phone, purpose, t);
  }

  /** It holds if and only if callers never do. */
  lemma {:induction false} BoundHoldsExactly(s: Settings, phone: string, purpose: Purpose, mayRollBack: bool)
    requires ValidSettings(s)
    ensures BoundsAllGuesses(s, phone, purpose, mayRollBack) <==> !mayRollBack
  {
    if mayRollBack {
      TooManyAreTooMany(s, phone, purpose);
    } else {
      forall steps, t | Sticks(steps, phone, purpose)
        ensures ComparedInHour(s, steps, phone, purpose, t) <= (s.hourlyLimit + 1) * s.maxAttempts
      {
        StickyRunsAreBounded(s, steps, phone, purpose, t);
      }
    }
  }

  // ----- lockout

  function RunFrom(s: Settings, a: Auth, steps: seq<Step>): Auth {
    if steps == [] then a else Next(s, RunFrom(s, a, steps[..|steps| - 1]), steps[|steps| - 1])
  }

  ghost predicate LockedUntil(a: Auth, phone: string, purpose: Purpose, k: nat, c: Code, until: Time) {
    k < |a.codes| && Latest(a.codes, phone, purpose) == k && a.codes[k] == c && c.lockedUntil == Some(until)
  }

  lemma {:induction false} LatestIs(codes: seq<Code>, phone: string, purpose: Purpose, k: nat)
    requires k < |codes| && For(codes[k], phone, purpose)
    requires forall j :: k < j < |codes| ==> !For(codes[j], phone, purpose)
    ensures Latest(codes, phone, purpose) == k
  {
    if k < |codes| - 1 {
      LatestIs(codes[..|codes| - 1], phone, purpose, k);
    }
  }

  lemma {:induction false} LockedIsUsed(s: Settings, a: Auth, phone: string, purpose: Purpose, k: nat, c: Code,
        until: Time)
    requires Inv(s, a) && LockedUntil(a, phone, purpose, k, c, until)
    ensures c.consumedAt.Some?
  {
    assert CountOk(s, a.codes[k], MarksOn(a.marks, k));
  }

  /** A step about another phone or purpose. */
  lemma {:induction false} OtherRequest(s: Settings, a: Auth, phone: string, purpose: Purpose, quota: bool,
        now: Time, j: nat)
    requires j < |a.codes| && !For(a.codes[j], phone, purpose)
    ensures Request(s, a, phone, purpose, quota, now).0.codes[j] == a.codes[j]
  {
  }

  lemma {:induction false} OtherCheck(s: Settings, a: Auth, phone: string, purpose: Purpose, matches: bool,
        committed: bool, now: Time, j: nat)
    requires j < |a.codes| && !For(a.codes[j], phone, purpose)
    ensures Check(s, a, phone, purpose, matches, committed, now).0.codes[j] == a.codes[j]
  {
  }

  lemma {:induction false} OtherCode(s: Settings, a: Auth, step: Step, j: nat)
    requires j < |a.codes| && !For(a.codes[j], step.phone, step.purpose)
    ensures j < |Next(s, a, step).codes| && Next(s, a, step).codes[j] == a.codes[j]
  {
    match step
    case AskCode(phone, purpose, quota, now) => OtherRequest(s, a, phone, purpose, quota, now, j);
    case TryCode(phone, purpose, matches, committed, now) =>
      OtherCheck(s, a, phone, purpose, matches, committed, now, j);
  }

  /** A step about another phone or purpose. */
  lemma {:induction false} OtherStep(s: Settings, a: Auth, step: Step, phone: string, purpose: Purpose, k: nat)
    requires k == Latest(a.codes, phone, purpose) && (step.phone != phone || step.purpose != purpose)
    ensures k < |Next(s, a, step).codes| && Next(s, a, step).codes[k] == a.codes[k]
    ensures Latest(Next(s, a, step).codes, phone, purpose) == k
  {
    OtherCode(s, a, step, k);
    NewCodesAre(s, a, step);
    LatestIs(Next(s, a, step).codes, phone, purpose, k);
  }

  /** A step keeps every code's phone and purpose, and adds codes only for its own. */
  lemma {:induction false} NewCodesAre(s: Settings, a: Auth, step: Step)
    ensures var codes := Next(s, a, step).codes;
            && |a.codes| <= |codes| && (forall j :: 0 <= j < |a.codes| ==> Alike(a.codes[j], codes[j]))
            && (forall j :: |a.codes| <= j < |codes| ==> For(codes[j], step.phone, step.purpose))
  {
  }

  lemma {:induction false} LockedStep(s: Settings, a: Auth, step: Step, phone: string, purpose: Purpose,
        k: nat, c: Code, until: Time)
    requires LockedUntil(a, phone, purpose, k, c, until) && c.consumedAt.Some? && step.now < until
    ensures LockedUntil(Next(s, a, step), phone, purpose, k, c, until)
    ensures step.phone == phone && step.purpose == purpose ==> !Compares(a, step)
  {
    if step.phone == phone && step.purpose == purpose {
      assert Next(s, a, step).codes == a.codes;
    } else {
      OtherStep(s, a, step, phone, purpose, k);
    }
  }

  /** Comparisons with the codes of a phone and purpose in a run from some state, rolled back or not. */
  function ComparedFrom(s: Settings, a: Auth, steps: seq<Step>, phone: string, purpose: Purpose): nat {
    if steps == [] then 0
    else
      var rest, step := steps[..|steps| - 1], steps[|steps| - 1];
      ComparedFrom(s, a, rest, phone, purpose) +
      if step.phone == phone && step.purpose == purpose && Compares(RunFrom(s, a, rest), step) then 1 else 0
  }

  /** Until a lockout ends, whatever is asked or tried: the locked code stays the newest, no new one is
      issued for it, and nothing is compared with it, rolled back or not. */
  lemma {:induction false} LockoutHolds(s: Settings, a: Auth, steps: seq<Step>, phone: string, purpose: Purpose,
        k: nat, c: Code, until: Time, since: Time, to: Time)
    requires ValidSettings(s) && Inv(s, a) && LockedUntil(a, phone, purpose, k, c, until)
    requires forall i :: 0 <= i < |steps| ==> steps[i].now < until
    ensures var b := RunFrom(s, a, steps);
            && Inv(s, b) && LockedUntil(b, phone, purpose, k, c, until)
            && ComparedFrom(s, a, steps, phone, purpose) == 0
            && Guesses(b.codes, b.marks, phone, purpose, since, to) ==
                 Guesses(a.codes, a.marks, phone, purpose, since, to)
    decreases |steps|
  {
    if steps != [] {
      var rest, step := steps[..|steps| - 1], steps[|steps| - 1];
      LockoutHolds(s, a, rest, phone, purpose, k, c, until, since, to);
      var b := RunFrom(s, a, rest);
      LockedIsUsed(s, b, phone, purpose, k, c, until);
      LockedStep(s, b, step, phone, purpose, k, c, until);
      NextKeeps(s, b, step);
      GuessesStep(s, b, step, phone, purpose, since, to);
    }
  }
}
