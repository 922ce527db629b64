/** What a request for a code and a guess are answered, by the clock: lifetimes, the resend interval, the
    hour, and the lockout after the last wrong guess. */
module Lockouts {
  import opened PhoneCodes

  // ----- the columns that hold times

  /** A code lives ttl seconds from its creation. It is locked exactly when its tries are used up, from the
      moment of the last one and for the lockout's length. */
  predicate TimesOk(s: Settings, c: Code) {
    && c.expiresAt == c.createdAt + s.ttl
    && (c.lockedUntil.Some? <==> c.attempts >= s.maxAttempts)
    && (c.attempts >= s.maxAttempts ==> c.consumedAt.Some? && c.lockedUntil.value == c.consumedAt.value + s.lockout)
  }

  ghost predicate AllTimesOk(s: Settings, codes: seq<Code>) {
    forall i :: 0 <= i < |codes| ==> TimesOk(s, codes[i])
  }

  lemma {:induction false} WrongGuessTimes(s: Settings, a: Auth, k: nat, now: Time)
    requires ValidSettings(s) && AllTimesOk(s, a.codes) && k < |a.codes| && a.codes[k].consumedAt.None?
    ensures AllTimesOk(s, WrongGuess(s, a, k, now).0.codes)
  {
  }

  lemma {:induction false} NextKeepsTimes(s: Settings, a: Auth, step: Step)
    requires ValidSettings(s) && AllTimesOk(s, a.codes)
    ensures AllTimesOk(s, Next(s, a, step).codes)
  {
    var k := Latest(a.codes, step.phone, step.purpose);
    if step.TryCode? && k >= 0 && a.codes[k].consumedAt.None? {
      assert TimesOk(s, a.codes[k]);
      WrongGuessTimes(s, a, k, step.now);
    }
  }

  /** So it is for every code of every run. */
  lemma {:induction false} RunsKeepTimes(s: Settings, steps: seq<Step>)
    requires ValidSettings(s)
    ensures AllTimesOk(s, Run(s, steps).codes)
    decreases |steps|
  {
    if steps != [] {
      RunsKeepTimes(s, steps[..|steps| - 1]);
      NextKeepsTimes(s, Run(s, steps[..|steps| - 1]), steps[|steps| - 1]);
    }
  }

  // ----- requests

  /** Codes a phone was sent in the last 3600 seconds, for any purpose. */
  function SentLately(codes: seq<Code>, phone: string, now: Time): nat {
    if codes == [] then 0
    else
      var c := codes[|codes| - 1];
      SentLately(codes[..|codes| - 1], phone, now) + if c.phone == phone && c.createdAt > now - 3600 then 1 else 0
  }

  lemma {:induction false} SentIsLastHour(codes: seq<Code>, phone: string, now: Time)
    requires forall i :: 0 <= i < |codes| ==> codes[i].createdAt <= now
    ensures LastHour(codes, phone, now) == SentLately(codes, phone, now)
  {
    if codes != [] {
      SentIsLastHour(codes[..|codes| - 1], phone, now);
    }
  }

  /** Whether the newest code keeps a new one back: its lockout runs, or it is unused and too recent. */
  predicate HoldsBack(s: Settings, c: Code, now: Time) {
    || (c.attempts >= s.maxAttempts && c.consumedAt.Some? && now < c.consumedAt.value + s.lockout)
    || (c.consumedAt.None? && now < c.createdAt + s.resend)
  }

  predicate Granted(s: Settings, codes: seq<Code>, phone: string, purpose: Purpose, quota: bool, now: Time) {
    var k := Latest(codes, phone, purpose);
    && (k >= 0 ==> !HoldsBack(s, codes[k], now))
    && SentLately(codes, phone, now) < s.hourlyLimit && quota
  }

  lemma {:induction false} GrantedIsMayIssue(s: Settings, codes: seq<Code>, phone: string, purpose: Purpose,
        quota: bool,
        now: Time)
    requires AllTimesOk(s, codes) && forall i :: 0 <= i < |codes| ==> codes[i].createdAt <= now
    ensures Granted(s, codes, phone, purpose, quota, now) <==> MayIssue(s, codes, phone, purpose, quota, now)
  {
    SentIsLastHour(codes, phone, now);
    var k := Latest(codes, phone, purpose);
    if k >= 0 {
      assert TimesOk(s, codes[k]);
    }
  }

  /** A new code, and every earlier one of its phone and purpose used up. */
  predicate Issues(s: Settings, codes: seq<Code>, after: seq<Code>, phone: string, purpose: Purpose, now: Time) {
    && |after| == |codes| + 1 && after[|codes|] == Code(phone, purpose, 0, now, now + s.ttl, None, None)
    && forall i :: 0 <= i < |codes| ==>
         after[i] == if codes[i].phone == phone && codes[i].purpose == purpose && codes[i].consumedAt.None? then
                       codes[i].(consumedAt := Some(now))
                     else codes[i]
  }

  lemma {:induction false} RequestIssues(s: Settings, a: Auth, phone: string, purpose: Purpose, now: Time)
    requires MayIssue(s, a.codes, phone, purpose, true, now)
    ensures var (b, answer) := Request(s, a, phone, purpose, true, now);
            answer == Issued(now + s.ttl) && Issues(s, a.codes, b.codes, phone, purpose, now)
  {
  }

  /** In every reachable state a request is answered with a code that lives ttl seconds exactly when the
      newest code does not hold it back, the phone was sent fewer codes in the last hour than the limit, and
      the client has quota. The new code then is the only unused one. */
  lemma {:induction false} RequestsAre(s: Settings, steps: seq<Step>, phone: string, purpose: Purpose, quota: bool,
        now: Time)
    requires ValidSettings(s) && Run(s, steps).clock <= now
    ensures var a := Run(s, steps);
            var (b, answer) := Request(s, a, phone, purpose, quota, now);
            if Granted(s, a.codes, phone, purpose, quota, now) then
              answer == Issued(now + s.ttl) && Issues(s, a.codes, b.codes, phone, purpose, now)
            else answer == Limited && b.codes == a.codes
  {
    var a := Run(s, steps);
    RunsKeepInv(s, steps);
    RunsKeepTimes(s, steps);
    GrantedIsMayIssue(s, a.codes, phone, purpose, quota, now);
    if Granted(s, a.codes, phone, purpose, quota, now) {
      RequestIssues(s, a, phone, purpose, now);
    }
  }

  // ----- guesses

  /** A code that a guess is compared with. */
  predicate Open(s: Settings, c: Code, now: Time) {
    c.consumedAt.None? && now < c.createdAt + s.ttl
  }

  /** In every reachable state: a guess at a phone without a code, or at one that is used or older than ttl
      seconds, is answered Expired, and LockedOut while the lockout of the newest code runs. Otherwise a
      right guess is accepted, and uses the code up if its caller commits; a wrong one costs a try, and the
      last one uses the code up and locks it from now on. */
  lemma {:induction false} ChecksAre(s: Settings, steps: seq<Step>, phone: string, purpose: Purpose, matches: bool,
        committed: bool, now: Time)
    requires ValidSettings(s) && Run(s, steps).clock <= now
    ensures var a := Run(s, steps);
            var k, (b, answer) := Latest(a.codes, phone, purpose), Check(s, a, phone, purpose, matches, committed, now);
            if k < 0 then answer == Expired && b.codes == a.codes
            else
              var c := a.codes[k];
              if c.attempts >= s.maxAttempts && c.consumedAt.Some? && now < c.consumedAt.value + s.lockout then
                answer == LockedOut && b.codes == a.codes
              else if !Open(s, c, now) then answer == Expired && b.codes == a.codes
              else if matches then
                && answer == Accepted
                && b.codes == (if committed then a.codes[k := c.(consumedAt := Some(now))] else a.codes)
              else if c.attempts + 1 == s.maxAttempts then
                && answer == LockedOut
                && b.codes == a.codes[k := c.(attempts := s.maxAttempts, consumedAt := Some(now),
                                              lockedUntil := Some(now + s.lockout))]
              else
                && answer == Invalid(s.maxAttempts - c.attempts - 1)
                && b.codes == a.codes[k := c.(attempts := c.attempts + 1)]
  {
    var a := Run(s, steps);
    RunsKeepInv(s, steps);
    RunsKeepTimes(s, steps);
    var k := Latest(a.codes, phone, purpose);
    if k >= 0 {
      assert TimesOk(s, a.codes[k]);
      assert CountOk(s, a.codes[k], MarksOn(a.marks, k));
    }
  }

  // ----- the lockout

  /** The last allowed wrong guess at a code, made at a time when the code is open. */
  ghost predicate LastTry(s: Settings, a: Auth, guess: Step) {
    && guess.TryCode? && !guess.matches && a.clock <= guess.now
    && var k := Latest(a.codes, guess.phone, guess.purpose);
       k >= 0 && Open(s, a.codes[k], guess.now) && a.codes[k].attempts == s.maxAttempts - 1
  }

  lemma {:induction false} LastTryLocks(s: Settings, a: Auth, guess: Step)
    requires ValidSettings(s) && Inv(s, a) && AllTimesOk(s, a.codes) && LastTry(s, a, guess)
    ensures var k, b := Latest(a.codes, guess.phone, guess.purpose), Next(s, a, guess);
            Inv(s, b) && LockedUntil(b, guess.phone, guess.purpose, k, b.codes[k], guess.now + s.lockout)
  {
    var k := Latest(a.codes, guess.phone, guess.purpose);
    assert TimesOk(s, a.codes[k]);
    assert CountOk(s, a.codes[k], MarksOn(a.marks, k));
    NextKeeps(s, a, guess);
    LatestIs(Next(s, a, guess).codes, guess.phone, guess.purpose, k);
  }

  /** While a code is locked, a request is refused and a guess is answered LockedOut. */
  lemma {:induction false} AnswersWhileLocked(s: Settings, a: Auth, phone: string, purpose: Purpose, k: nat, c: Code,
        until: Time, matches: bool, committed: bool, quota: bool, now: Time)
    requires LockedUntil(a, phone, purpose, k, c, until) && now < until
    ensures Request(s, a, phone, purpose, quota, now) == (a.(clock := now), Limited)
    ensures Check(s, a, phone, purpose, matches, committed, now) == (a.(clock := now), LockedOut)
  {
  }

  /** After the last allowed wrong guess at t, whatever is tried before t + lockout: no guess at that phone and
      purpose is compared, every one is answered LockedOut, and every request for a code is refused. */
  lemma {:induction false} LockoutLasts(s: Settings, steps: seq<Step>, guess: Step, later: seq<Step>, matches: bool,
        committed: bool, quota: bool, now: Time)
    requires ValidSettings(s) && LastTry(s, Run(s, steps), guess)
    requires forall i :: 0 <= i < |later| ==> later[i].now < guess.now + s.lockout
    requires now < guess.now + s.lockout
    ensures var b := Next(s, Run(s, steps), guess);
            var d := RunFrom(s, b, later);
            && ComparedFrom(s, b, later, guess.phone, guess.purpose) == 0
            && Latest(d.codes, guess.phone, guess.purpose) == Latest(Run(s, steps).codes, guess.phone, guess.purpose)
            && Check(s, d, guess.phone, guess.purpose, matches, committed, now).1 == LockedOut
            && Request(s, d, guess.phone, guess.purpose, quota, now).1 == Limited
  {
    RunsKeepInv(s, steps);
    RunsKeepTimes(s, steps);
    LastTryLocks(s, Run(s, steps), guess);
    var k, b := Latest(Run(s, steps).codes, guess.phone, guess.purpose), Next(s, Run(s, steps), guess);
    LockedLasts(s, b, later, guess.phone, guess.purpose, k, b.codes[k], guess.now + s.lockout, matches, committed,
                quota, now);
  }

  lemma {:induction false} LockedLasts(s: Settings, b: Auth, later: seq<Step>, phone: string, purpose: Purpose, k: nat,
        c: Code, until: Time, matches: bool, committed: bool, quota: bool, now: Time)
    requires ValidSettings(s) && Inv(s, b) && LockedUntil(b, phone, purpose, k, c, until) && now < until
    requires forall i :: 0 <= i < |later| ==> later[i].now < until
    ensures var d := RunFrom(s, b, later);
            && ComparedFrom(s, b, later, phone, purpose) == 0 && Latest(d.codes, phone, purpose) == k
            && Check(s, d, phone, purpose, matches, committed, now).1 == LockedOut
            && Request(s, d, phone, purpose, quota, now).1 == Limited
  {
    LockoutHolds(s, b, later, phone, purpose, k, c, until, 0, 0);
    AnswersWhileLocked(s, RunFrom(s, b, later), phone, purpose, k, c, until, matches, committed, quota, now);
  }

  /** A fresh code after some wrong guesses at one moment. */
  predicate Tried(s: Settings, a: Auth, phone: string, purpose: Purpose, k: nat, born: Time, now: Time, n: nat) {
    && k < |a.codes| && Latest(a.codes, phone, purpose) == k && a.clock <= now < born + s.ttl
    && a.codes[k] == (if n == s.maxAttempts then
                        Code(phone, purpose, n, born, born + s.ttl, Some(now), Some(now + s.lockout))
                      else Code(phone, purpose, n, born, born + s.ttl, None, None))
  }

  lemma {:induction false} OneMoreTry(s: Settings, a: Auth, phone: string, purpose: Purpose, k: nat, born: Time,
        now: Time, n: nat)
    requires Tried(s, a, phone, purpose, k, born, now, n) && n < s.maxAttempts
    ensures Tried(s, Next(s, a, TryCode(phone, purpose, false, true, now)), phone, purpose, k, born, now, n + 1)
  {
    LatestIs(Next(s, a, TryCode(phone, purpose, false, true, now)).codes, phone, purpose, k);
  }

  lemma {:induction false} RepeatRuns(s: Settings, a: Auth, step: Step, n: nat)
    requires n > 0
    ensures RunFrom(s, a, Repeat(step, n)) == Next(s, RunFrom(s, a, Repeat(step, n - 1)), step)
    ensures RunFrom(s, a, Repeat(step, 0)) == a
  {
    var steps := Repeat(step, n);
    assert steps[..|steps| - 1] == Repeat(step, n - 1);
  }

  /** A code takes exactly as many wrong guesses as it has tries: with fewer it is still open, and the last
      one locks it. */
  lemma {:induction false} TriesAreCounted(s: Settings, a: Auth, phone: string, purpose: Purpose, k: nat, born: Time,
        now: Time, n: nat)
    requires Tried(s, a, phone, purpose, k, born, now, 0) && 0 < n <= s.maxAttempts
    ensures var b := RunFrom(s, a, Repeat(TryCode(phone, purpose, false, true, now), n));
            Tried(s, b, phone, purpose, k, born, now, n)
  {
    var guess := TryCode(phone, purpose, false, true, now);
    RepeatRuns(s, a, guess, n);
    if n > 1 {
      TriesAreCounted(s, a, phone, purpose, k, born, now, n - 1);
    }
    OneMoreTry(s, RunFrom(s, a, Repeat(guess, n - 1)), phone, purpose, k, born, now, n - 1);
  }
}
