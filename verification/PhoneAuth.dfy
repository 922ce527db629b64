/** The code table as a session works on it, proved against the transition system of PhoneCodes. */
module PhoneAuths {

  import opened PhoneCodes
  import opened Limiter

  const CLIENT_HOURLY_LIMIT: nat := 20

  function ClientWindow(): Window {
    Window(CLIENT_HOURLY_LIMIT, HOUR, false)
  }

  /** The account a phone belongs to, if any. */
  datatype Account = NoAccount | Account(buyer: bool, active: bool)

  datatype SignIn = SignedIn | NotBuyer | Refused(why: CheckAnswer)

  predicate MaySignIn(user: Account) {
    user.NoAccount? || (user.buyer && user.active)
  }

  /** How signing in ends, once the code was checked. */
  function SignInAnswer(user: Account, answer: CheckAnswer): SignIn {
    if !answer.Accepted? then Refused(answer)
    else if user.Account? && !user.buyer then NotBuyer
    else if user.Account? && !user.active then Refused(Expired)
    else SignedIn
  }

  /** Twenty codes per client in any 3600 seconds, and who may sign in by code: a phone nobody has registered,
      or an active buyer's. A right code is answered by the account, a wrong one by the code. */
  lemma {:induction false} SignInIs(user: Account, answer: CheckAnswer)
    ensures ClientWindow() == Window(20, 3600, false)
    ensures MaySignIn(user) <==> user in {NoAccount, Account(true, true)}
    ensures SignInAnswer(user, answer) ==
            if answer != Accepted then Refused(answer)
            else if user in {Account(false, true), Account(false, false)} then NotBuyer
            else if user == Account(true, false) then Refused(Expired)
            else SignedIn
  {
  }

  /** Sign-in attempts for a phone commit exactly when its account may sign in this way. */
  ghost predicate SignsInAs(steps: seq<Step>, phone: string, user: Account) {
    forall i ::
      0 <= i < |steps| && steps[i].TryCode? && steps[i].phone == phone && steps[i].purpose == Purpose.SignIn ==>
      steps[i].committed == MaySignIn(user)
  }

  /** The guess bound over every run in which the phone belongs to that account throughout. */
  ghost predicate BoundsGuessesAt(s: Settings, phone: string, user: Account) {
    forall steps, t :: SignsInAs(steps, phone, user) ==>
      ComparedInHour(s, steps, phone, Purpose.SignIn, t) <= (s.hourlyLimit + 1) * s.maxAttempts
  }

  lemma {:induction false} RepeatedStep(step: Step, n: nat)
    ensures |Repeat(step, n)| == n && forall i :: 0 <= i < n ==> Repeat(step, n)[i] == step
  {
    if n > 0 {
      RepeatedStep(step, n - 1);
    }
  }

  /** The check a caller can make: sign-in guesses at a phone are bounded if and only if its account may
      sign in by code. With a seller's, an admin's or an inactive account's phone right guesses are
      rolled back and unbounded; wrong ones count towards the lockout there too. */
  lemma {:induction false} BoundedIffMaySignIn(s: Settings, phone: string, user: Account)
    requires ValidSettings(s)
    ensures BoundsGuessesAt(s, phone, user) <==> MaySignIn(user)
  {
    if MaySignIn(user) {
      forall steps, t | SignsInAs(steps, phone, user)
        ensures ComparedInHour(s, steps, phone, Purpose.SignIn, t) <= (s.hourlyLimit + 1) * s.maxAttempts
      {
        assert Sticks(steps, phone, Purpose.SignIn);
        StickyRunsAreBounded(s, steps, phone, Purpose.SignIn, t);
      }
    } else {
      RepeatedStep(TryCode(phone, Purpose.SignIn, true, false, 1), (s.hourlyLimit + 1) * s.maxAttempts + 1);
      TooManyAreTooMany(s, phone, Purpose.SignIn);
      assert SignsInAs(TooMany(s, phone, Purpose.SignIn), phone, user);
    }
  }

  /** A client's admissions after a request: one more when a code is sent; touched but not longer when only
      the client's own quota refuses; untouched when something else does. */
  ghost function HistoryAfter(history: map<string, seq<PhoneCodes.Time>>, client: string, now: PhoneCodes.Time,
        sent: bool, allowed: bool): map<string, seq<PhoneCodes.Time>>
  {
    var before := if client in history then history[client] else [];
    if sent then history[client := before + [now]]
    else if allowed then history[client := before]
    else history
  }

  lemma {:induction false} NothingYet(s: Settings, a: Auth)
    requires ValidSettings(s) && a == EMPTY
    ensures Inv(s, a)
  {
    RunsKeepInv(s, []);
  }

  class PhoneAuth {
    const settings: Settings
    const clients: RateLimiter
    /** The rows this session sees, and the rows it has committed. */
    var codes: seq<Code>
    var committed: seq<Code>
    ghost var marks: seq<Mark>
    ghost var clock: PhoneCodes.Time

    ghost function Durable(): Auth
      reads this
    {
      Auth(committed, marks, clock)
    }

    /** Between requests the session has nothing pending. */
    ghost predicate Valid()
      reads this, clients
    {
      && ValidSettings(settings) && codes == committed && Inv(settings, Durable())
      && clients.Valid() && clients.window == ClientWindow() && clients.clock <= clock
    }

    ghost predicate QuotaLeft(client: string, now: PhoneCodes.Time)
      reads clients
    {
      client in clients.buckets ==> |Pruned(clients.window, clients.buckets[client], now)| < clients.window.limit
    }

    constructor (settings: Settings)
      requires ValidSettings(settings)
      ensures Valid() && fresh(clients) && this.settings == settings && Durable() == EMPTY
    {
      this.settings := settings;
      clients := new RateLimiter(ClientWindow(), 0);
      codes, committed, marks, clock := [], [], [], 0;
      new;
      NothingYet(settings, Durable());
    }

    method LatestCode(phone: string, purpose: Purpose) returns (k: int)
      ensures k == Latest(codes, phone, purpose)
    {
      k := |codes| - 1;
      while k >= 0 && !For(codes[k], phone, purpose)
        invariant -1 <= k < |codes|
        invariant forall j :: k < j < |codes| ==> !For(codes[j], phone, purpose)
      {
        k := k - 1;
      }
    }

    /** How many codes a phone was sent after a moment. */
    method SentSince(phone: string, since: PhoneCodes.Time, ghost now: PhoneCodes.Time) returns (n: nat)
      requires forall i :: 0 <= i < |codes| ==> codes[i].createdAt <= now
      ensures n == Created(codes, phone, since, now)
    {
      n := 0;
      for i := 0 to |codes|
        invariant n == Created(codes[..i], phone, since, now)
      {
        assert codes[..i + 1][..i] == codes[..i];
        if codes[i].phone == phone && codes[i].createdAt > since {
          n := n + 1;
        }
      }
      assert codes[..|codes|] == codes;
    }

    method UseUpEarlier(phone: string, purpose: Purpose, now: PhoneCodes.Time)
      modifies this`codes
      ensures codes == Replaced(old(codes), phone, purpose, now)
    {
      for i := 0 to |codes|
        invariant |codes| == |old(codes)|
        invariant forall j :: 0 <= j < i ==> codes[j] == Replaced(old(codes), phone, purpose, now)[j]
        invariant forall j :: i <= j < |codes| ==> codes[j] == old(codes)[j]
      {
        if For(codes[i], phone, purpose) && codes[i].consumedAt.None? {
          codes := codes[i := codes[i].(consumedAt := Some(now))];
        }
      }
    }

    /** Whether a lockout, a recent code or a full hour forbids a new code. */
    method Limits(phone: string, purpose: Purpose, now: PhoneCodes.Time) returns (limited: bool)
      requires forall i :: 0 <= i < |codes| ==> codes[i].createdAt <= now
      ensures limited <==> !MayIssue(settings, codes, phone, purpose, true, now)
    {
      var latest := LatestCode(phone, purpose);
      if latest >= 0 {
        var row := codes[latest];
        if row.lockedUntil.Some? && row.lockedUntil.value > now {
          return true;
        }
        if row.consumedAt.None? && row.createdAt + settings.resend > now {
          return true;
        }
      }
      var sent := SentSince(phone, now - HOUR, now);
      return sent >= settings.hourlyLimit;
    }

    method Issue(phone: string, purpose: Purpose, ghost quota: bool, now: PhoneCodes.Time)
      returns (answer: RequestAnswer)
      requires codes == committed && MayIssue(settings, codes, phone, purpose, quota, now)
      modifies this
      ensures codes == committed
      ensures (Durable(), answer) == Request(settings, old(Durable()), phone, purpose, quota, now)
    {
      UseUpEarlier(phone, purpose, now);
      codes := codes + [Code(phone, purpose, 0, now, now + settings.ttl, None, None)];
      committed, clock := codes, now;
      return Issued(now + settings.ttl);
    }

    /** The clients' limiter is in order, whatever the codes. */
    ghost predicate ClientsOk(now: PhoneCodes.Time)
      reads clients
    {
      clients.Valid() && clients.window == ClientWindow() && clients.clock <= now
    }

    /** Whether a code may be sent. Only the client's limiter, asked last, is changed. */
    method Admits(phone: string, purpose: Purpose, client: string, now: PhoneCodes.Time) returns (ok: bool)
      requires ClientsOk(now) && forall i :: 0 <= i < |codes| ==> codes[i].createdAt <= now
      modifies clients
      ensures ClientsOk(now)
      ensures ok == MayIssue(settings, codes, phone, purpose, old(QuotaLeft(client, now)), now)
      ensures clients.history ==
              HistoryAfter(old(clients.history), client, now, ok, MayIssue(settings, codes, phone, purpose, true, now))
    {
      var limited := Limits(phone, purpose, now);
      if limited {
        return false;
      }
      ok := clients.Check(client, now);
    }

    method TryRequest(phone: string, purpose: Purpose, client: string, now: PhoneCodes.Time)
      returns (answer: RequestAnswer)
      requires codes == committed && ClientsOk(now) && forall i :: 0 <= i < |codes| ==> codes[i].createdAt <= now
      modifies this, clients
      ensures codes == committed && ClientsOk(now)
      ensures (Durable(), answer) == Request(settings, old(Durable()), phone, purpose, old(QuotaLeft(client, now)), now)
      ensures clients.history ==
              HistoryAfter(old(clients.history), client, now, answer.Issued?,
                           MayIssue(settings, old(committed), phone, purpose, true, now))
    {
      ghost var quota := QuotaLeft(client, now);
      var ok := Admits(phone, purpose, client, now);
      if ok {
        answer := Issue(phone, purpose, quota, now);
      } else {
        clock := now;
        return Limited;
      }
    }

    /** Sends a code unless the phone is locked out, asked too recently or too often, or the client did.
        The client's quota is spent only when everything else allows a code. */
    method RequestPhoneCode(phone: string, purpose: Purpose, client: string, now: PhoneCodes.Time)
      returns (answer: RequestAnswer)
      requires Valid() && clock <= now
      modifies this, clients
      ensures Valid()
      ensures (Durable(), answer) == Request(settings, old(Durable()), phone, purpose, old(QuotaLeft(client, now)), now)
      ensures clients.history ==
              HistoryAfter(old(clients.history), client, now, answer.Issued?,
                           MayIssue(settings, old(committed), phone, purpose, true, now))
    {
      RequestKeeps(settings, Durable(), phone, purpose, QuotaLeft(client, now), now);
      assert OrderOk(committed, clock);
      answer := TryRequest(phone, purpose, client, now);
    }

    method CountWrongGuess(k: nat, now: PhoneCodes.Time) returns (answer: CheckAnswer)
      requires codes == committed && k < |codes| && clock == now
      modifies this
      ensures codes == committed && (Durable(), answer) == WrongGuess(settings, old(Durable()), k, now)
    {
      marks := marks + [Mark(k, now, false)];
      var row := codes[k].(attempts := codes[k].attempts + 1);
      if row.attempts >= settings.maxAttempts {
        codes := codes[k := row.(consumedAt := Some(now), lockedUntil := Some(now + settings.lockout))];
        committed := codes;
        return LockedOut;
      }
      codes := codes[k := row];
      committed := codes;
      return Invalid(settings.maxAttempts - row.attempts);
    }

    /** Checks a code and uses it up. Wrong tries are committed, success is left to the caller. */
    method ConsumePhoneCode(phone: string, purpose: Purpose, matches: bool,
          now: PhoneCodes.Time) returns (answer: CheckAnswer)
      requires codes == committed
      modifies this
      ensures answer == Check(settings, old(Durable()), phone, purpose, matches, true, now).1
      ensures Durable() == Check(settings, old(Durable()), phone, purpose, matches, false, now).0
      ensures codes == Check(settings, old(Durable()), phone, purpose, matches, true, now).0.codes
    {
      clock := now;
      var k := LatestCode(phone, purpose);
      if k >= 0 && codes[k].lockedUntil.Some? && codes[k].lockedUntil.value > now {
        return LockedOut;
      }
      if k < 0 || codes[k].consumedAt.Some? || codes[k].expiresAt <= now {
        return Expired;
      }
      if !matches {
        answer := CountWrongGuess(k, now);
        return;
      }
      codes := codes[k := codes[k].(consumedAt := Some(now))];
      return Accepted;
    }

    method Verify(phone: string, user: Account, matches: bool, now: PhoneCodes.Time) returns (r: SignIn)
      requires codes == committed
      modifies this
      ensures codes == committed
      ensures Durable() == Check(settings, old(Durable()), phone, Purpose.SignIn, matches, MaySignIn(user), now).0
      ensures r == SignInAnswer(user, Check(settings, old(Durable()), phone, Purpose.SignIn, matches, true, now).1)
    {
      var answer := ConsumePhoneCode(phone, Purpose.SignIn, matches, now);
      if !answer.Accepted? {
        return Refused(answer);
      }
      if user.Account? && !user.buyer {
        codes := committed;
        return NotBuyer;
      }
      if user.Account? && !user.active {
        codes := committed;
        return Refused(Expired);
      }
      marks := marks + [Mark(Latest(committed, phone, Purpose.SignIn), now, true)];
      committed := codes;
      return SignedIn;
    }

    /** Signs a buyer in, or rolls the code's use back when the account may not sign in this way. */
    method VerifyPhoneCode(phone: string, user: Account, matches: bool, now: PhoneCodes.Time) returns (r: SignIn)
      requires Valid() && clock <= now
      modifies this
      ensures Valid()
      ensures Durable() == Check(settings, old(Durable()), phone, Purpose.SignIn, matches, MaySignIn(user), now).0
      ensures r == SignInAnswer(user, Check(settings, old(Durable()), phone, Purpose.SignIn, matches, true, now).1)
    {
      CheckKeeps(settings, Durable(), phone, Purpose.SignIn, matches, MaySignIn(user), now);
      r := Verify(phone, user, matches, now);
    }
  }
}
