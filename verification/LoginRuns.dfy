/** Devices, one-time codes and PINs over whole runs of the auth store. */
module LoginRuns {
  import opened Wrappers
  import opened Sessions
  import opened AuthStore
  import opened SessionSteps
  import opened SessionCache
  import PinLock

  // Devices and one-time codes.

  predicate NoneLiveOn(t: Table, device: string) {
    forall i :: 0 <= i < |t| && t[i].device == device ==> !Live(t[i])
  }

  /** A revoked device without live sessions. */
  predicate SignedOut(w: World, device: string) {
    device in w.devices && w.devices[device].revoked && NoneLiveOn(w.sessions, device)
  }

  lemma RefreshKeepsOut(t: Table, i: nat, g: Grant, now: int, device: string)
    requires i < |t| && NoneLiveOn(t, device)
    ensures NoneLiveOn(Refreshed(t, i, g, now).0, device)
  {
    if t[i].rotatedTo.Some? {
      ChainRevokedEffect(t, i, now);
    }
  }

  lemma LoginKeepsOut(w: World, req: LoginRequest, newDevice: string, g: Grant, now: int, device: string)
    requires SignedOut(w, device)
    ensures SignedOut(LoginStep(w, req, newDevice, g, now).0, device)
  {
  }

  lemma WorldKeepsOut(w: World, a: Action, now: int, device: string)
    requires SignedOut(w, device)
    ensures SignedOut(WorldAct(w, a, now), device)
  {
    match a
    case CommitRefresh(token, g) =>
      var f := Find(w.sessions, ByRefresh, token);
      if f.Some? {
        RefreshKeepsOut(w.sessions, f.value, g, now, device);
      }
    case DoLogin(request, newDevice, g) => LoginKeepsOut(w, request, newDevice, g, now, device);
    case _ =>
  }

  lemma ActKeepsOut(s: State, step: Timed, device: string)
    requires SignedOut(s.w, device)
    ensures SignedOut(Act(s, step).w, device)
  {
    WorldKeepsOut(s.w, step.action, step.now, device);
  }

  /** Revoking a device signs it out, and nothing that happens later signs it in again. */
  lemma {:induction false} SignedOutForever(s: State, device: string, steps: seq<Timed>)
    requires SignedOut(s.w, device)
    ensures SignedOut(Run(s, steps).w, device)
    decreases |steps|
  {
    if steps != [] {
      SignedOutForever(s, device, steps[..|steps| - 1]);
      ActKeepsOut(Run(s, steps[..|steps| - 1]), steps[|steps| - 1], device);
    }
  }

  lemma RevokeDeviceSignsOut(s: State, user: string, device: string, now: int, steps: seq<Timed>)
    requires OwnsDevice(s.w, user, device)
    ensures SignedOut(Run(Act(s, Timed(CommitRevokeDevice(user, device), now)), steps).w, device)
  {
    SignedOutForever(Act(s, Timed(CommitRevokeDevice(user, device), now)), device, steps);
  }

  predicate Spent(w: World, id: string) {
    id != "" && id in w.challenges && w.challenges[id].consumedAt.Some?
  }

  lemma LoginSpendsCode(w: World, req: LoginRequest, newDevice: string, g: Grant, now: int)
    ensures var (u, r) := LoginStep(w, req, newDevice, g, now);
            && (r.Ok? && req.challengeId != "" ==> !Spent(w, req.challengeId) && Spent(u, req.challengeId))
            && (r.Err? ==> u.challenges == w.challenges)
            && (forall id :: Spent(w, id) ==> Spent(u, id))
  {
  }

  lemma WorldKeepsSpent(w: World, a: Action, now: int, id: string)
    requires Spent(w, id)
    ensures Spent(WorldAct(w, a, now), id)
  {
    match a
    case DoLogin(request, newDevice, g) => LoginSpendsCode(w, request, newDevice, g, now);
    case CommitRefresh(_, _) =>
    case _ =>
  }

  lemma ActKeepsSpent(s: State, step: Timed, id: string)
    requires Spent(s.w, id)
    ensures Spent(Act(s, step).w, id)
  {
    WorldKeepsSpent(s.w, step.action, step.now, id);
  }

  lemma {:induction false} SpentForever(s: State, id: string, steps: seq<Timed>)
    requires Spent(s.w, id)
    ensures Spent(Run(s, steps).w, id)
    decreases |steps|
  {
    if steps != [] {
      SpentForever(s, id, steps[..|steps| - 1]);
      ActKeepsSpent(Run(s, steps[..|steps| - 1]), steps[|steps| - 1], id);
    }
  }

  /** A one-time code admits once: after a login with it, whatever codes are requested, tried and spent in between, no
      login with the same code succeeds and the code itself is not accepted. A login that fails, by a wrong PIN for
      instance, leaves the code as it was. */
  lemma CodeAdmitsOnce(s: State, req: LoginRequest, d: string, g: Grant, now: int, steps: seq<Timed>,
                       again: LoginRequest, d2: string, g2: Grant, code: string, later: int)
    requires LoginStep(s.w, req, d, g, now).1.Ok? && req.challengeId != "" && again.challengeId == req.challengeId
    ensures var v := Run(Act(s, Timed(DoLogin(req, d, g), now)), steps).w;
            LoginStep(v, again, d2, g2, later).1.Err? && TryCodeStep(v, req.challengeId, code, later).1.Err?
  {
    var s1 := Act(s, Timed(DoLogin(req, d, g), now));
    LoginSpendsCode(s.w, req, d, g, now);
    SpentForever(s1, req.challengeId, steps);
    LoginSpendsCode(Run(s1, steps).w, again, d2, g2, later);
  }

  // PIN guessing in runs.

  /** The PIN counter and lock of a user; a user who is not there has none. */
  function LockOf(w: World, user: string): PinLock.Lock {
    if user in w.users then w.users[user].lock else PinLock.Lock(0, None)
  }

  /** A login for this user, who is active, so that it gets as far as the PIN. */
  predicate TriesPin(w: World, a: Action, user: string) {
    a.DoLogin? && a.request.phone in w.phones && w.phones[a.request.phone] == user && user in w.users &&
      w.users[user].active
  }

  /** The times of the user's PIN entries in the run. */
  function Entries(s: State, steps: seq<Timed>, user: string): seq<int>
    decreases |steps|
  {
    if steps == [] then []
    else
      var n := |steps| - 1;
      Entries(s, steps[..n], user) +
      if TriesPin(Run(s, steps[..n]).w, steps[n].action, user) then [steps[n].now] else []
  }

  /** The times at which a wrong PIN of the user was evaluated: answered as wrong, or locking the PIN. */
  function WrongPins(s: State, steps: seq<Timed>, user: string): seq<int>
    decreases |steps|
  {
    if steps == [] then []
    else
      var n := |steps| - 1;
      var w := Run(s, steps[..n]).w;
      WrongPins(s, steps[..n], user) +
      if TriesPin(w, steps[n].action, user) && !PinLock.Locked(LockOf(w, user), steps[n].now)
      then [steps[n].now] else []
  }

  /** No entry of this user in the run is the right PIN. */
  ghost predicate OnlyWrong(s: State, steps: seq<Timed>, user: string) {
    forall n :: 0 <= n < |steps| && TriesPin(Run(s, steps[..n]).w, steps[n].action, user) ==>
      steps[n].action.request.pin != Run(s, steps[..n]).w.users[user].pin
  }

  /** Other users' logins, and everything else that happens, leave a user's lock alone. */
  lemma WorldLock(w: World, a: Action, now: int, user: string)
    requires TriesPin(w, a, user) ==> a.request.pin != w.users[user].pin
    ensures LockOf(WorldAct(w, a, now), user) ==
            if TriesPin(w, a, user) then PinLock.TryPin(LockOf(w, user), now, false).0 else LockOf(w, user)
  {
  }

  lemma ActLock(s: State, step: Timed, user: string)
    ensures LockOf(Act(s, step).w, user) == LockOf(WorldAct(s.w, step.action, step.now), user)
  {
  }

  lemma OnlyWrongBefore(s: State, steps: seq<Timed>, user: string)
    requires steps != [] && OnlyWrong(s, steps, user)
    ensures OnlyWrong(s, steps[..|steps| - 1], user)
  {
    var before := steps[..|steps| - 1];
    forall m | 0 <= m < |before| && TriesPin(Run(s, before[..m]).w, before[m].action, user)
      ensures before[m].action.request.pin != Run(s, before[..m]).w.users[user].pin
    {
      assert before[..m] == steps[..m];
    }
  }

  /** One more step of the run is one more entry, or leaves the lock alone. */
  lemma LockAfterStep(s: State, step: Timed, user: string, l: PinLock.Lock, entries: seq<int>)
    requires LockOf(s.w, user) == PinLock.AfterEntries(l, entries)
    requires TriesPin(s.w, step.action, user) ==> step.action.request.pin != s.w.users[user].pin
    ensures var more := entries + if TriesPin(s.w, step.action, user) then [step.now] else [];
            && LockOf(Act(s, step).w, user) == PinLock.AfterEntries(l, more)
            && PinLock.Evaluated(l, more) == PinLock.Evaluated(l, entries) +
                 if TriesPin(s.w, step.action, user) && !PinLock.Locked(LockOf(s.w, user), step.now)
                 then [step.now] else []
  {
    ActLock(s, step, user);
    WorldLock(s.w, step.action, step.now, user);
    PinLock.EntryAppended(l, entries, step.now);
    assert entries + [] == entries;
  }

  lemma {:induction false} LockAfterRun(s: State, steps: seq<Timed>, user: string)
    requires OnlyWrong(s, steps, user)
    ensures LockOf(Run(s, steps).w, user) == PinLock.AfterEntries(LockOf(s.w, user), Entries(s, steps, user))
    ensures WrongPins(s, steps, user) == PinLock.Evaluated(LockOf(s.w, user), Entries(s, steps, user))
    decreases |steps|
  {
    if steps != [] {
      var n := |steps| - 1;
      OnlyWrongBefore(s, steps, user);
      LockAfterRun(s, steps[..n], user);
      LockAfterStep(Run(s, steps[..n]), steps[n], user, LockOf(s.w, user), Entries(s, steps[..n], user));
    }
  }

  lemma {:induction false} EntriesAreTimely(s: State, steps: seq<Timed>, user: string, now: int, t: int)
    requires Timely(steps, now, t)
    ensures var e := Entries(s, steps, user); PinLock.Ordered(e) && forall k :: 0 <= k < |e| ==> e[k] <= t
    decreases |steps|
  {
    if steps != [] {
      EntriesAreTimely(s, steps[..|steps| - 1], user, now, steps[|steps| - 1].now);
    }
  }

  /** Guessing is rate-bounded in every run: with any other logins, users and sessions in between, `k + 1` wrong PINs of
      one user that are evaluated span at least `k / 3` lockouts. */
  lemma GuessingIsRateBoundedInRuns(s: State, steps: seq<Timed>, user: string, now: int, t: int, k: nat)
    requires Timely(steps, now, t) && OnlyWrong(s, steps, user) && LockOf(s.w, user).attempts < PinLock.MAX_PIN_ATTEMPTS
    requires k < |WrongPins(s, steps, user)|
    ensures WrongPins(s, steps, user)[k] - WrongPins(s, steps, user)[0] >= (k / 3) * PinLock.PIN_LOCKOUT
  {
    LockAfterRun(s, steps, user);
    EntriesAreTimely(s, steps, user, now, t);
    PinLock.GuessingIsRateBounded(LockOf(s.w, user), Entries(s, steps, user), k);
  }
}
