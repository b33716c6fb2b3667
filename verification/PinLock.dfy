/** The counters that bound guessing: the PIN lockout and the one-time code. Times are in seconds. */
module PinLock {
  import opened Wrappers

  const MAX_PIN_ATTEMPTS := 3
  const PIN_LOCKOUT := 15 * 60

  /** `users.pin_attempts` and `users.pin_locked_until`. */
  datatype Lock = Lock(attempts: nat, until: Option<int>)

  datatype Outcome = Refused | Wrong | WrongAndLocked | Right

  predicate Locked(l: Lock, now: int) { l.until.Some? && now < l.until.value }

  /** One PIN entry. A refused entry is not evaluated and changes nothing. */
  function TryPin(l: Lock, now: int, correct: bool): (Lock, Outcome) {
    if Locked(l, now) then (l, Refused)
    else if correct then (Lock(0, None), Right)
    else if l.attempts + 1 >= MAX_PIN_ATTEMPTS then (Lock(0, Some(now + PIN_LOCKOUT)), WrongAndLocked)
    else (Lock(l.attempts + 1, None), Wrong)
  }

  /** The times at which a list of wrong entries is actually evaluated. */
  function Evaluated(l: Lock, times: seq<int>): seq<int>
    decreases |times|
  {
    if times == [] then []
    else
      var (next, outcome) := TryPin(l, times[0], false);
      (if outcome.Refused? then [] else [times[0]]) + Evaluated(next, times[1..])
  }

  /** The lock after a list of wrong entries. */
  function AfterEntries(l: Lock, times: seq<int>): Lock
    decreases |times|
  {
    if times == [] then l else AfterEntries(TryPin(l, times[0], false).0, times[1..])
  }

  lemma {:induction false} EntryAppended(l: Lock, times: seq<int>, t: int)
    ensures AfterEntries(l, times + [t]) == TryPin(AfterEntries(l, times), t, false).0
    ensures Evaluated(l, times + [t]) == Evaluated(l, times) + if Locked(AfterEntries(l, times), t) then [] else [t]
    decreases |times|
  {
    if times == [] {
      assert [t][1..] == [];
      assert times + [t] == [t];
    } else {
      assert (times + [t])[1..] == times[1..] + [t];
      EntryAppended(TryPin(l, times[0], false).0, times[1..], t);
    }
  }

  predicate Ordered(times: seq<int>) { forall i, j :: 0 <= i < j < |times| ==> times[i] <= times[j] }

  /** The counter after one more wrong entry. */
  function Bumped(attempts: nat): nat { if attempts + 1 >= MAX_PIN_ATTEMPTS then 0 else attempts + 1 }

  /** Times that never go back, with a lockout between the entry that exhausts the counter and the next. */
  predicate Spaced(attempts: nat, t: seq<int>)
    decreases |t|
  {
    |t| >= 2 ==>
      t[1] >= t[0] + (if Bumped(attempts) == 0 then PIN_LOCKOUT else 0) && Spaced(Bumped(attempts), t[1..])
  }

  /** The entries that get evaluated are spaced by the lockouts. */
  lemma {:induction false} EvaluatedAreSpaced(l: Lock, times: seq<int>)
    requires Ordered(times)
    ensures var t := Evaluated(l, times);
            && Spaced(l.attempts, t)
            && (t != [] ==> t[0] >= times[0] && (l.until.Some? ==> t[0] >= l.until.value))
    decreases |times|
  {
    if times != [] {
      var (next, outcome) := TryPin(l, times[0], false);
      EvaluatedAreSpaced(next, times[1..]);
      var rest := Evaluated(next, times[1..]);
      if !outcome.Refused? {
        assert ([times[0]] + rest)[1..] == rest;
      } else {
        assert [] + rest == rest;
      }
    }
  }

  /** Three evaluations apart means a lockout apart. */
  lemma {:induction false} ThreeApart(attempts: nat, t: seq<int>, k: nat)
    requires attempts < MAX_PIN_ATTEMPTS && Spaced(attempts, t) && k + 3 < |t|
    ensures t[k + 3] >= t[k] + PIN_LOCKOUT
    decreases k
  {
    if k > 0 {
      ThreeApart(Bumped(attempts), t[1..], k - 1);
    } else {
      var u := t[1..];
      assert Spaced(Bumped(attempts), u) && u[1..][0] == t[2] && u[1..][1] == t[3];
      assert Spaced(Bumped(Bumped(attempts)), u[1..]);
    }
  }

  lemma {:induction false} SpacedNeverGoBack(attempts: nat, t: seq<int>, k: nat)
    requires Spaced(attempts, t) && k < |t|
    ensures t[k] >= t[0]
    decreases k
  {
    if k > 0 {
      SpacedNeverGoBack(Bumped(attempts), t[1..], k - 1);
    }
  }

  /** Guessing is rate-bounded: any `k + 1` evaluated wrong PINs in a row span at least `k / 3` lockouts,
      whatever was stored before and however often entries are tried. */
  lemma {:induction false} GuessingIsRateBounded(l: Lock, times: seq<int>, k: nat)
    requires l.attempts < MAX_PIN_ATTEMPTS && Ordered(times) && k < |Evaluated(l, times)|
    ensures Evaluated(l, times)[k] - Evaluated(l, times)[0] >= (k / 3) * PIN_LOCKOUT
    decreases k
  {
    EvaluatedAreSpaced(l, times);
    if k >= 3 {
      GuessingIsRateBounded(l, times, k - 3);
      ThreeApart(l.attempts, Evaluated(l, times), k - 3);
    } else {
      SpacedNeverGoBack(l.attempts, Evaluated(l, times), k);
    }
  }

  /** The stored counter stays below the limit, and a PIN is accepted only when nothing is locked. */
  lemma PinStateStaysBounded(l: Lock, now: int, correct: bool)
    requires l.attempts < MAX_PIN_ATTEMPTS
    ensures var (next, outcome) := TryPin(l, now, correct);
            && next.attempts < MAX_PIN_ATTEMPTS
            && (outcome.Right? <==> correct && !Locked(l, now))
            && (outcome.WrongAndLocked? ==> forall t: int :: Locked(next, t) <==> t < now + PIN_LOCKOUT)
  {
  }

  // One-time codes.

  datatype Challenge = Challenge(phone: string, code: string, attempts: nat, maxAttempts: nat, expiresAt: int,
                                 consumedAt: Option<int>)

  datatype CodeError = NoChallenge | Spent | Stale | TooManyAttempts | WrongCode

  function TryCode(c: Challenge, now: int, code: string): (Challenge, Result<string, CodeError>) {
    if c.consumedAt.Some? then (c, Err(Spent))
    else if now > c.expiresAt then (c, Err(Stale))
    else if c.attempts >= c.maxAttempts then (c, Err(TooManyAttempts))
    else if code != c.code then
      (c.(attempts := c.attempts + 1), Err(if c.attempts + 1 >= c.maxAttempts then TooManyAttempts else WrongCode))
    else (c, Ok(c.phone))
  }

  /** A code that is unspent and not past its time, with attempts left. */
  predicate Open(c: Challenge, now: int) { c.consumedAt.None? && now <= c.expiresAt && c.attempts < c.maxAttempts }

  /** The right code is accepted exactly while the challenge is open, and costs nothing; a wrong one is counted exactly
      while it is open; and each refusal has its own cause, the first that applies. */
  lemma TryCodeIff(c: Challenge, now: int, code: string)
    ensures var (next, r) := TryCode(c, now, code);
            && (r.Ok? <==> Open(c, now) && code == c.code) && (r.Ok? ==> r.value == c.phone)
            && next == (if Open(c, now) && code != c.code then c.(attempts := c.attempts + 1) else c)
            && (r == Err(Spent) <==> c.consumedAt.Some?)
            && (r == Err(Stale) <==> c.consumedAt.None? && c.expiresAt < now)
            && (r == Err(WrongCode) <==> Open(c, now) && code != c.code && c.attempts + 1 < c.maxAttempts)
            && r != Err(NoChallenge)
  {
  }

  /** How many wrong codes are compared with the stored one over a list of guesses. */
  function WrongGuesses(c: Challenge, guesses: seq<(int, string)>): nat
    decreases |guesses|
  {
    if guesses == [] then 0
    else
      var (next, r) := TryCode(c, guesses[0].0, guesses[0].1);
      (if next.attempts > c.attempts then 1 else 0) + WrongGuesses(next, guesses[1..])
  }

  function AfterGuesses(c: Challenge, guesses: seq<(int, string)>): Challenge
    decreases |guesses|
  {
    if guesses == [] then c else AfterGuesses(TryCode(c, guesses[0].0, guesses[0].1).0, guesses[1..])
  }

  /** A code can be guessed wrong at most as often as it has attempts left; after the last of them
      even the right code is refused. */
  lemma {:induction false} GuessesRunOut(c: Challenge, guesses: seq<(int, string)>, now: int, code: string)
    requires c.attempts <= c.maxAttempts
    ensures WrongGuesses(c, guesses) <= c.maxAttempts - c.attempts
    ensures WrongGuesses(c, guesses) == c.maxAttempts - c.attempts ==>
              TryCode(AfterGuesses(c, guesses), now, code).1.Err?
    decreases |guesses|
  {
    if guesses != [] {
      GuessesRunOut(TryCode(c, guesses[0].0, guesses[0].1).0, guesses[1..], now, code);
    }
  }

  /** `consumeChallenge`: a code is spent once, and only while it is fresh. */
  function Consume(c: Challenge, now: int): Result<Challenge, CodeError> {
    if c.consumedAt.Some? then Err(Spent)
    else if now > c.expiresAt then Err(Stale)
    else Ok(c.(consumedAt := Some(now)))
  }

  /** A code is spent exactly when it was not spent before and its time has not passed, and only its mark changes. */
  lemma ConsumeIff(c: Challenge, now: int)
    ensures var r := Consume(c, now);
            && (r.Ok? <==> c.consumedAt.None? && now <= c.expiresAt)
            && (r.Ok? ==> r.value == c.(consumedAt := Some(now)))
            && (r.Err? ==> r.error == if c.consumedAt.Some? then Spent else Stale)
  {
  }

  lemma ConsumedIsFinal(c: Challenge, now: int, later: int, code: string)
    requires Consume(c, now).Ok?
    ensures Consume(Consume(c, now).value, later) == Err(Spent)
    ensures TryCode(Consume(c, now).value, later, code) == (Consume(c, now).value, Err(Spent))
  {
  }
}
