/** What the session cache may answer, over whole runs of the auth store. */
module SessionCache {
  import opened Wrappers
  import opened Sessions
  import opened Principals
  import opened AuthStore
  import opened SessionSteps

  // Where cache entries come from.

  /** Step `l` of the run read the database for operation `c` and found what the operation carries. */
  ghost predicate ReadAt(s0: State, steps: seq<Timed>, l: nat, op: Op) {
    && l < |steps| && steps[l].action.Look? && op.Found?
    && Verdict(Run(s0, steps[..l]).w, op.token, steps[l].now) == op
  }

  ghost predicate WasRead(s0: State, steps: seq<Timed>, op: Op) {
    exists l: nat :: ReadAt(s0, steps, l, op)
  }

  /** Step `k` wrote the entry from an operation that had read the database at step `l`. */
  ghost predicate WrittenAt(s0: State, steps: seq<Timed>, l: nat, k: nat, op: Op, token: string, entry: Cached) {
    && ReadAt(s0, steps, l, op) && l < k < |steps| && steps[k].action.Store? && op.token == token
    && Remember(map[], token, op.principal, op.accessExpires, steps[k].now) == map[token := entry]
  }

  ghost predicate WasWritten(s0: State, steps: seq<Timed>, token: string, entry: Cached) {
    exists l: nat, k: nat, op :: WrittenAt(s0, steps, l, k, op, token, entry)
  }

  lemma ReadLater(s0: State, steps: seq<Timed>, op: Op)
    requires steps != [] && WasRead(s0, steps[..|steps| - 1], op)
    ensures WasRead(s0, steps, op)
  {
    var before := steps[..|steps| - 1];
    var l: nat :| ReadAt(s0, before, l, op);
    assert before[..l] == steps[..l];
    assert ReadAt(s0, steps, l, op);
  }

  lemma WrittenLater(s0: State, steps: seq<Timed>, token: string, entry: Cached)
    requires steps != [] && WasWritten(s0, steps[..|steps| - 1], token, entry)
    ensures WasWritten(s0, steps, token, entry)
  {
    var before := steps[..|steps| - 1];
    var l: nat, k: nat, op :| WrittenAt(s0, before, l, k, op, token, entry);
    assert before[..l] == steps[..l];
    assert WrittenAt(s0, steps, l, k, op, token, entry);
  }

  /** A step leaves an operation as it was or reads the database for it, and adds only operations that carry nothing. */
  lemma OpsComeFromLooks(s: State, step: Timed, c: nat)
    requires c < |Act(s, step).ops| && Act(s, step).ops[c].Found?
    ensures (c < |s.ops| && s.ops[c] == Act(s, step).ops[c]) ||
            (step.action == Look(c) && Verdict(s.w, Act(s, step).ops[c].token, step.now) == Act(s, step).ops[c])
  {
  }

  predicate OnlyForgets(before: map<string, Cached>, after: map<string, Cached>) {
    forall k <- after :: k in before && after[k] == before[k]
  }

  lemma WorldOnlyForgets(w: World, a: Action, now: int)
    ensures OnlyForgets(w.cache, WorldAct(w, a, now).cache)
  {
    if a.DoLogin? {
      LoginKeepsCache(w, a.request, a.newDevice, a.grant, now);
    }
  }

  lemma LoginKeepsCache(w: World, req: LoginRequest, newDevice: string, g: Grant, now: int)
    ensures LoginStep(w, req, newDevice, g, now).0.cache == w.cache
  {
  }

  /** What a step leaves in the cache for a token: what was there, or what a store writes for it. */
  predicate Stores(s: State, step: Timed, token: string, e: Cached) {
    && step.action.Store? && step.action.c < |s.ops| && s.ops[step.action.c].Found?
    && var op := s.ops[step.action.c];
       op.token == token && Remember(map[], token, op.principal, op.accessExpires, step.now) == map[token := e]
  }

  lemma StoreWrites(s: State, c: nat, token: string, now: int)
    requires c < |s.ops| && token in Continue(s, Store(c), now).w.cache
    ensures var e := Continue(s, Store(c), now).w.cache[token];
            (token in s.w.cache && e == s.w.cache[token]) || Stores(s, Timed(Store(c), now), token, e)
  {
  }

  lemma OthersOnlyForget(s: State, step: Timed)
    requires !step.action.Store?
    ensures OnlyForgets(s.w.cache, Act(s, step).w.cache)
  {
    WorldOnlyForgets(s.w, step.action, step.now);
  }

  /** Only a store writes an entry, and only what its operation carries. */
  lemma EntriesComeFromStores(s: State, step: Timed, token: string)
    requires token in Act(s, step).w.cache
    ensures var e := Act(s, step).w.cache[token];
            (token in s.w.cache && e == s.w.cache[token]) || Stores(s, step, token, e)
  {
    if step.action.Store? {
      if step.action.c < |s.ops| {
        StoreWrites(s, step.action.c, token, step.now);
      }
    } else {
      OthersOnlyForget(s, step);
    }
  }

  lemma {:induction false} EveryVerdictWasRead(s0: State, steps: seq<Timed>, c: nat)
    requires s0.ops == [] && c < |Run(s0, steps).ops| && Run(s0, steps).ops[c].Found?
    ensures WasRead(s0, steps, Run(s0, steps).ops[c])
    decreases |steps|
  {
    var n := |steps| - 1;
    var before, op := Run(s0, steps[..n]), Run(s0, steps).ops[c];
    OpsComeFromLooks(before, steps[n], c);
    if c < |before.ops| && before.ops[c] == op {
      EveryVerdictWasRead(s0, steps[..n], c);
      ReadLater(s0, steps, op);
    } else {
      assert ReadAt(s0, steps, n, op);
    }
  }

  lemma {:induction false} EveryEntryWasWritten(s0: State, steps: seq<Timed>, token: string)
    requires s0.ops == [] && s0.w.cache == map[] && token in Run(s0, steps).w.cache
    ensures WasWritten(s0, steps, token, Run(s0, steps).w.cache[token])
    decreases |steps|
  {
    var n := |steps| - 1;
    var before, e := Run(s0, steps[..n]), Run(s0, steps).w.cache[token];
    EntriesComeFromStores(before, steps[n], token);
    if token in before.w.cache && e == before.w.cache[token] {
      EveryEntryWasWritten(s0, steps[..n], token);
      WrittenLater(s0, steps, token, e);
    } else {
      var op := before.ops[steps[n].action.c];
      EveryVerdictWasRead(s0, steps[..n], steps[n].action.c);
      var l: nat :| ReadAt(s0, steps[..n], l, op);
      assert steps[..n][..l] == steps[..l];
      assert WrittenAt(s0, steps, l, n, op, token, e);
    }
  }

  /** Times never go back, from `now` on and up to `t`. */
  ghost predicate Timely(steps: seq<Timed>, now: int, t: int) {
    && now <= t
    && (forall k :: 0 <= k < |steps| ==> now <= steps[k].now <= t)
    && (forall j, k :: 0 <= j < k < |steps| ==> steps[j].now <= steps[k].now)
  }

  /** At time `at` there was a session with this token, not revoked and not past its time, of an active user; `p` names
      its user, device and id and the user's role; and at `t` the access token has not expired. */
  ghost predicate LiveThen(w: World, token: string, at: int, p: Principal, t: int) {
    exists i: nat :: Admissible(w, i, token, at) && Names(w, i, p) && t <= w.sessions[i].accessExpires
  }

  /** The verification that read the database at step `l` stored its verdict at step `k`: live when read, and the entry
      is no older than a minute at `t`. */
  ghost predicate StoredInTime(s0: State, steps: seq<Timed>, l: nat, k: nat, token: string, p: Principal, t: int) {
    && l < k < |steps| && steps[l].action.Look? && steps[k].action.Store?
    && steps[l].now <= steps[k].now <= t <= steps[k].now + SESSION_CACHE_TTL
    && LiveThen(Run(s0, steps[..l]).w, token, steps[l].now, p, t)
  }

  /** Bounded staleness: whatever the cache accepts at `t` was live, with an active user, when the verification that
      stored it read the database; it stored it no more than a minute before `t`; and the access token has not
      expired. */
  lemma AcceptedWasLive(s0: State, steps: seq<Timed>, token: string, now: int, t: int)
    requires s0.ops == [] && s0.w.cache == map[] && Timely(steps, now, t)
    requires CachedVerdict(Run(s0, steps).w, token, t).Some?
    ensures exists l: nat, k: nat ::
              StoredInTime(s0, steps, l, k, token, CachedVerdict(Run(s0, steps).w, token, t).value, t)
  {
    var w := Run(s0, steps).w;
    EveryEntryWasWritten(s0, steps, token);
    var l: nat, k: nat, op :| WrittenAt(s0, steps, l, k, op, token, w.cache[token]);
    EntryIsTheVerdict(op, w.cache[token], steps[k].now, t);
    FoundWasLive(Run(s0, steps[..l]).w, token, steps[l].now, op, t);
    assert StoredInTime(s0, steps, l, k, token, CachedVerdict(w, token, t).value, t);
  }

  lemma FoundWasLive(w: World, token: string, at: int, op: Op, t: int)
    requires Verdict(w, token, at) == op && op.Found? && t <= op.accessExpires
    ensures LiveThen(w, token, at, op.principal, t)
  {
    VerdictIff(w, token, at);
    var i := DatabaseVerdict(w, token, at).value;
    assert Admissible(w, i, token, at) && Names(w, i, op.principal);
  }

  lemma EntryIsTheVerdict(op: Op, entry: Cached, written: int, t: int)
    requires op.Found? && Remember(map[], op.token, op.principal, op.accessExpires, written) == map[op.token := entry]
    requires t <= entry.expires && Decoded(entry.text).Some?
    ensures t <= written + SESSION_CACHE_TTL && t <= op.accessExpires && Decoded(entry.text) == Some(op.principal)
  {
    assert op.token in Remember(map[], op.token, op.principal, op.accessExpires, written);
    assert map[op.token := entry][op.token] == entry;
    DecodeAfterEncode(op.principal);
  }

  // Revoked sessions.

  /** The access token of a revoked row. */
  ghost predicate RevokedToken(w: World, i: nat, token: string) {
    Coherent(w) && i < |w.sessions| && !Live(w.sessions[i]) && w.sessions[i].access == token
  }

  lemma RevokedIsNotReverified(w: World, i: nat, token: string, now: int)
    requires RevokedToken(w, i, token)
    ensures DatabaseVerdict(w, token, now).Err?
  {
    FindIsThatRow(w, i, ByAccess);
  }

  lemma StaysRevoked(s: State, i: nat, token: string, step: Timed)
    requires RevokedToken(s.w, i, token)
    ensures RevokedToken(Act(s, step).w, i, token)
  {
    ActAdvances(s, step);
    assert Get(Act(s, step).w.sessions[i], ByAccess) == Get(s.w.sessions[i], ByAccess);
  }

  lemma {:induction false} RevokedForever(s: State, i: nat, token: string, steps: seq<Timed>)
    requires RevokedToken(s.w, i, token)
    ensures RevokedToken(Run(s, steps).w, i, token)
    decreases |steps|
  {
    if steps != [] {
      RevokedForever(s, i, token, steps[..|steps| - 1]);
      StaysRevoked(Run(s, steps[..|steps| - 1]), i, token, steps[|steps| - 1]);
    }
  }

  // Exactly when a revoked token is gone.

  /** A verification that read the database before the revocation and can still write what it found. */
  predicate Carries(op: Op, token: string, now: int) {
    op.Found? && op.token == token && Clean(op.principal) && now < op.accessExpires
  }

  ghost predicate HeldByLook(ops: seq<Op>, token: string, now: int) {
    exists c :: 0 <= c < |ops| && Carries(ops[c], token, now)
  }

  ghost predicate GoneForever(s: State, token: string, now: int) {
    forall steps, t :: Timely(steps, now, t) ==> !Accepts(Run(s, steps).w, token, t)
  }

  /** Neither the cache nor a half-done verification has anything left to say for the token. */
  ghost predicate Silent(s: State, token: string, now: int) {
    && (token in s.w.cache ==> s.w.cache[token].expires < now || Decoded(s.w.cache[token].text).None?)
    && !HeldByLook(s.ops, token, now)
  }

  lemma SilentLater(s: State, token: string, now: int, later: int)
    requires Silent(s, token, now) && now <= later
    ensures Silent(s, token, later)
  {
  }

  lemma StoreKeepsSilent(s: State, token: string, c: nat, now: int)
    requires Silent(s, token, now) && c < |s.ops|
    ensures Silent(Continue(s, Store(c), now), token, now)
  {
    var op, u := s.ops[c], Continue(s, Store(c), now);
    if op.Found? {
      assert !Carries(op, token, now);
      DecodeAfterEncode(op.principal);
    }
    forall d | 0 <= d < |u.ops| ensures !Carries(u.ops[d], token, now) {
      assert d != c ==> u.ops[d] == s.ops[d];
    }
  }

  lemma LookKeepsSilent(s: State, i: nat, token: string, c: nat, now: int)
    requires Silent(s, token, now) && c < |s.ops| && RevokedToken(s.w, i, token)
    ensures Silent(Continue(s, Look(c), now), token, now)
  {
    var u := Continue(s, Look(c), now);
    RevokedIsNotReverified(s.w, i, token, now);
    forall d | 0 <= d < |u.ops| ensures !Carries(u.ops[d], token, now) {
      assert d != c ==> u.ops[d] == s.ops[d];
      assert !Carries(s.ops[d], token, now);
    }
  }

  /** A step that neither looks nor stores adds no operation that carries a verdict and no entry. */
  lemma OthersKeepSilent(s: State, token: string, step: Timed)
    requires Silent(s, token, step.now) && !step.action.Look? && !step.action.Store?
    ensures Silent(Act(s, step), token, step.now)
  {
    var u := Act(s, step);
    if token in u.w.cache {
      EntriesComeFromStores(s, step, token);
    }
    forall d | 0 <= d < |u.ops| ensures !Carries(u.ops[d], token, step.now) {
      if u.ops[d].Found? {
        OpsComeFromLooks(s, step, d);
        assert !Carries(s.ops[d], token, step.now);
      }
    }
  }

  lemma StepKeepsSilent(s: State, i: nat, token: string, step: Timed)
    requires Silent(s, token, step.now) && RevokedToken(s.w, i, token)
    ensures Silent(Act(s, step), token, step.now)
  {
    match step.action
    case Look(c) => if c < |s.ops| { LookKeepsSilent(s, i, token, c, step.now); }
    case Store(c) => if c < |s.ops| { StoreKeepsSilent(s, token, c, step.now); }
    case _ => OthersKeepSilent(s, token, step);
  }

  lemma {:induction false} SilentForever(s: State, i: nat, token: string, steps: seq<Timed>, now: int, t: int)
    requires Silent(s, token, now) && RevokedToken(s.w, i, token) && Timely(steps, now, t)
    ensures Silent(Run(s, steps), token, t)
    decreases |steps|
  {
    if steps == [] {
      SilentLater(s, token, now, t);
    } else {
      var n := |steps| - 1;
      SilentForever(s, i, token, steps[..n], now, steps[n].now);
      RevokedForever(s, i, token, steps[..n]);
      StepKeepsSilent(Run(s, steps[..n]), i, token, steps[n]);
      SilentLater(Run(s, steps), token, steps[n].now, t);
    }
  }

  lemma SilentIsGone(s: State, i: nat, token: string, now: int)
    requires Silent(s, token, now) && RevokedToken(s.w, i, token)
    ensures GoneForever(s, token, now)
  {
    forall steps, t | Timely(steps, now, t) ensures !Accepts(Run(s, steps).w, token, t) {
      SilentForever(s, i, token, steps, now, t);
      RevokedForever(s, i, token, steps);
      RevokedIsNotReverified(Run(s, steps).w, i, token, t);
    }
  }

  /** What a half-done verification does when it goes on, at any later time before the access token expires: the token
      is accepted for a minute from then, or until its own expiry. */
  lemma LateStore(s: State, c: nat, token: string, now: int, t: int)
    requires c < |s.ops| && Carries(s.ops[c], token, now) && now <= t
    ensures var u := Act(s, Timed(Store(c), now));
            CachedVerdict(u.w, token, t).Some? <==> t <= now + SESSION_CACHE_TTL && t <= s.ops[c].accessExpires
  {
    DecodeAfterEncode(s.ops[c].principal);
  }

  lemma RunOne(s: State, step: Timed)
    ensures Run(s, [step]) == Act(s, step)
  {
    assert [step][..0] == [];
    assert Run(s, []) == s;
  }

  /** The token of a revoked session is rejected in every continuation if and only if no cache entry still shows it and
      no verification that had already read the database is waiting to store it. */
  lemma RevokedIsGoneIff(s: State, i: nat, token: string, now: int)
    requires RevokedToken(s.w, i, token)
    ensures GoneForever(s, token, now) <==> CachedVerdict(s.w, token, now).None? && !HeldByLook(s.ops, token, now)
  {
    if CachedVerdict(s.w, token, now).Some? {
      assert Timely([], now, now) && Accepts(Run(s, []).w, token, now);
    } else if HeldByLook(s.ops, token, now) {
      var c :| 0 <= c < |s.ops| && Carries(s.ops[c], token, now);
      var steps := [Timed(Store(c), now)];
      LateStore(s, c, token, now, now);
      RunOne(s, steps[0]);
      assert Timely(steps, now, now) && Accepts(Run(s, steps).w, token, now);
    } else {
      SilentIsGone(s, i, token, now);
    }
  }

  /** An operation that has committed the revocation of row `i` and is about to forget its token. */
  ghost predicate Revoking(s: State, i: nat, token: string, c: nat) {
    RevokedToken(s.w, i, token) && c < |s.ops| && s.ops[c].Forgetting? && token in s.ops[c].tokens
  }

  /** When it does forget, the token is gone for good if and only if no half-done verification holds it. */
  lemma ForgottenIsGoneIff(s: State, i: nat, token: string, c: nat, now: int)
    requires Revoking(s, i, token, c)
    ensures var u := Act(s, Timed(Forget(c, token), now));
            GoneForever(u, token, now) <==> !HeldByLook(s.ops, token, now)
  {
    var u := Act(s, Timed(Forget(c, token), now));
    StaysRevoked(s, i, token, Timed(Forget(c, token), now));
    RevokedIsGoneIff(u, i, token, now);
    forall d | 0 <= d < |s.ops| ensures Carries(u.ops[d], token, now) == Carries(s.ops[d], token, now) {
    }
    if HeldByLook(s.ops, token, now) {
      var d :| 0 <= d < |s.ops| && Carries(s.ops[d], token, now);
      assert Carries(u.ops[d], token, now);
    }
  }

  lemma LogoutIsRevoking(s: State, i: nat, now: int)
    requires Coherent(s.w) && i < |s.w.sessions| && Live(s.w.sessions[i])
    ensures Revoking(Act(s, Timed(CommitLogout(s.w.sessions[i].id), now)), i, s.w.sessions[i].access, |s.ops|)
  {
    FindIsThatRow(s.w, i, ById);
    LogoutAdvances(s.w, s.w.sessions[i].id, now);
  }

  /** A refresh that rotates the row, or finds it rotated before. */
  predicate Rotates(w: World, i: nat, g: Grant, now: int)
    requires i < |w.sessions|
  {
    var r := RefreshStep(w, w.sessions[i].refresh, g, now).1; r.Ok? || r == Err(Denied(Replayed))
  }

  lemma RotationForgets(w: World, i: nat, g: Grant, now: int)
    requires Coherent(w) && i < |w.sessions| && Rotates(w, i, g, now)
    ensures w.sessions[i].access in Forgets(w, CommitRefresh(w.sessions[i].refresh, g), now)
  {
    FindIsThatRow(w, i, ByRefresh);
  }

  lemma RotationRevokes(w: World, i: nat, g: Grant, now: int)
    requires Coherent(w) && i < |w.sessions| && Rotates(w, i, g, now)
    ensures RevokedToken(RefreshStep(w, w.sessions[i].refresh, g, now).0, i, w.sessions[i].access)
  {
    var token := w.sessions[i].refresh;
    FindIsThatRow(w, i, ByRefresh);
    RefreshAdvances(w, token, g, now);
    assert Get(RefreshStep(w, token, g, now).0.sessions[i], ByAccess) == Get(w.sessions[i], ByAccess);
    if w.sessions[i].rotatedTo.Some? {
      ChainRevokedEffect(w.sessions, i, now);
    }
  }

  lemma RotationIsRevoking(s: State, i: nat, g: Grant, now: int)
    requires Coherent(s.w) && i < |s.w.sessions| && Rotates(s.w, i, g, now)
    ensures Revoking(Act(s, Timed(CommitRefresh(s.w.sessions[i].refresh, g), now)), i, s.w.sessions[i].access, |s.ops|)
  {
    RotationRevokes(s.w, i, g, now);
    RotationForgets(s.w, i, g, now);
  }

  lemma DeviceRevocationIsRevoking(s: State, i: nat, user: string, now: int)
    requires Coherent(s.w) && i < |s.w.sessions| && Live(s.w.sessions[i]) &&
             OwnsDevice(s.w, user, s.w.sessions[i].device)
    ensures var step := Timed(CommitRevokeDevice(user, s.w.sessions[i].device), now);
            Revoking(Act(s, step), i, s.w.sessions[i].access, |s.ops|)
  {
    var device := s.w.sessions[i].device;
    RevokeDeviceAdvances(s.w, user, device, now);
    assert s.w.sessions[i] in s.w.sessions && s.w.sessions[i].access in DeviceTokens(s.w.sessions, device);
  }

  /** What follows a commit that revokes row `i`: whatever happens in `between`, the forget that ends the operation
      makes the token rejected in every continuation exactly when no half-done verification holds it. */
  lemma ForgetDecides(s: State, i: nat, token: string, c: nat, between: seq<Timed>, now: int)
    requires Revoking(s, i, token, c)
    requires c < |Run(s, between).ops| && Run(s, between).ops[c].Forgetting? && token in Run(s, between).ops[c].tokens
    ensures var v := Run(s, between);
            GoneForever(Act(v, Timed(Forget(c, token), now)), token, now) <==> !HeldByLook(v.ops, token, now)
  {
    RevokedForever(s, i, token, between);
    ForgottenIsGoneIff(Run(s, between), i, token, c, now);
  }

  /** Logging out is immediate and final, exactly but for verifications that had already read the database. */
  lemma LogoutIsImmediateIff(s: State, i: nat, now: int, between: seq<Timed>, later: int)
    requires Coherent(s.w) && i < |s.w.sessions| && Live(s.w.sessions[i])
    requires var v := Run(Act(s, Timed(CommitLogout(s.w.sessions[i].id), now)), between);
             |s.ops| < |v.ops| && v.ops[|s.ops|].Forgetting? && s.w.sessions[i].access in v.ops[|s.ops|].tokens
    ensures var token := s.w.sessions[i].access;
            var v := Run(Act(s, Timed(CommitLogout(s.w.sessions[i].id), now)), between);
            GoneForever(Act(v, Timed(Forget(|s.ops|, token), later)), token, later) <==>
              !HeldByLook(v.ops, token, later)
  {
    LogoutIsRevoking(s, i, now);
    ForgetDecides(Act(s, Timed(CommitLogout(s.w.sessions[i].id), now)), i, s.w.sessions[i].access, |s.ops|, between,
                  later);
  }

  /** So is rotation for the token that was rotated away, and replay for the token of the replayed session. */
  lemma RotationIsImmediateIff(s: State, i: nat, g: Grant, now: int, between: seq<Timed>, later: int)
    requires Coherent(s.w) && i < |s.w.sessions| && Rotates(s.w, i, g, now)
    requires var v := Run(Act(s, Timed(CommitRefresh(s.w.sessions[i].refresh, g), now)), between);
             |s.ops| < |v.ops| && v.ops[|s.ops|].Forgetting? && s.w.sessions[i].access in v.ops[|s.ops|].tokens
    ensures var token := s.w.sessions[i].access;
            var v := Run(Act(s, Timed(CommitRefresh(s.w.sessions[i].refresh, g), now)), between);
            GoneForever(Act(v, Timed(Forget(|s.ops|, token), later)), token, later) <==>
              !HeldByLook(v.ops, token, later)
  {
    RotationIsRevoking(s, i, g, now);
    ForgetDecides(Act(s, Timed(CommitRefresh(s.w.sessions[i].refresh, g), now)), i, s.w.sessions[i].access, |s.ops|,
                  between, later);
  }

  /** ... and revoking a device for every session that was live on it. */
  lemma DeviceRevocationIsImmediateIff(s: State, i: nat, user: string, now: int, between: seq<Timed>, later: int)
    requires Coherent(s.w) && i < |s.w.sessions| && Live(s.w.sessions[i]) &&
             OwnsDevice(s.w, user, s.w.sessions[i].device)
    requires var v := Run(Act(s, Timed(CommitRevokeDevice(user, s.w.sessions[i].device), now)), between);
             |s.ops| < |v.ops| && v.ops[|s.ops|].Forgetting? && s.w.sessions[i].access in v.ops[|s.ops|].tokens
    ensures var token := s.w.sessions[i].access;
            var v := Run(Act(s, Timed(CommitRevokeDevice(user, s.w.sessions[i].device), now)), between);
            GoneForever(Act(v, Timed(Forget(|s.ops|, token), later)), token, later) <==>
              !HeldByLook(v.ops, token, later)
  {
    DeviceRevocationIsRevoking(s, i, user, now);
    ForgetDecides(Act(s, Timed(CommitRevokeDevice(user, s.w.sessions[i].device), now)), i, s.w.sessions[i].access,
                  |s.ops|, between, later);
  }

  // How long a token can outlive its session.

  /** A verification of a revoked token that still carries its verdict, written at `now`. */
  lemma LateStoreAccepts(s: State, i: nat, c: nat, token: string, now: int, t: int)
    requires RevokedToken(s.w, i, token) && c < |s.ops| && Carries(s.ops[c], token, now) && now <= t
    ensures Accepts(Act(s, Timed(Store(c), now)).w, token, t) <==>
            t <= now + SESSION_CACHE_TTL && t <= s.ops[c].accessExpires
  {
    LateStore(s, c, token, now, t);
    StaysRevoked(s, i, token, Timed(Store(c), now));
    RevokedIsNotReverified(Act(s, Timed(Store(c), now)).w, i, token, t);
  }

  /** A verification of row `i` that has asked the cache and read the database. */
  function HalfVerified(s: State, i: nat, now: int): State
    requires i < |s.w.sessions|
  {
    Act(Act(s, Timed(Ask(s.w.sessions[i].access), now)), Timed(Look(|s.ops|), now))
  }

  /** Asking and reading is all it takes to hold a token: such states arise from any live row that is not cached. */
  lemma LookFinds(s: State, i: nat, now: int)
    requires i < |s.w.sessions| && DatabaseVerdict(s.w, s.w.sessions[i].access, now) == Ok(i)
    requires CachedVerdict(s.w, s.w.sessions[i].access, now).None?
    ensures HalfVerified(s, i, now).w == s.w
    ensures HalfVerified(s, i, now).ops ==
            s.ops + [Found(s.w.sessions[i].access, PrincipalOf(s.w, i), s.w.sessions[i].accessExpires)]
    ensures Clean(PrincipalOf(s.w, i)) ==>
            forall write :: write < s.w.sessions[i].accessExpires ==>
              Carries(HalfVerified(s, i, now).ops[|s.ops|], s.w.sessions[i].access, write)
  {
  }

  /** The state once a logout of row `i` has committed and forgotten its token. */
  function AfterLogout(s: State, i: nat, now: int): State
    requires i < |s.w.sessions|
  {
    Act(Act(s, Timed(CommitLogout(s.w.sessions[i].id), now)), Timed(Forget(|s.ops|, s.w.sessions[i].access), now))
  }

  lemma LogoutThenForget(s: State, i: nat, now: int)
    requires Coherent(s.w) && i < |s.w.sessions| && Live(s.w.sessions[i])
    ensures var u := AfterLogout(s, i, now);
            && RevokedToken(u.w, i, s.w.sessions[i].access) && !Accepts(u.w, s.w.sessions[i].access, now)
            && |u.ops| > |s.ops| && u.ops[..|s.ops|] == s.ops
  {
    var row := s.w.sessions[i];
    var v := Act(s, Timed(CommitLogout(row.id), now));
    LogoutIsRevoking(s, i, now);
    StaysRevoked(v, i, row.access, Timed(Forget(|s.ops|, row.access), now));
    RevokedIsNotReverified(AfterLogout(s, i, now).w, i, row.access, now);
  }

  /** Row `i` is revoked and its token rejected at `now`; once operation `c` has stored what it carries, at `write`, the
      token is accepted at `t` exactly within a minute of that and up to `expires`. */
  ghost predicate Lingers(s: State, i: nat, c: nat, token: string, expires: int, now: int, write: int, t: int) {
    && RevokedToken(s.w, i, token) && !Accepts(s.w, token, now)
    && (Accepts(Act(s, Timed(Store(c), write)).w, token, t) <==> t <= write + SESSION_CACHE_TTL && t <= expires)
  }

  /** A verification that read the database before a logout outlives it, whatever the delay before it writes: in any
      state where one holds the token of a live row, log the row out and forget its token, and then let it write. */
  lemma LateEntryOutlivesLogout(s: State, i: nat, c: nat, op: Op, now: int, write: int, t: int)
    requires Coherent(s.w) && i < |s.w.sessions| && Live(s.w.sessions[i]) && now <= write <= t
    requires c < |s.ops| && s.ops[c] == op && Carries(op, s.w.sessions[i].access, write)
    ensures Lingers(AfterLogout(s, i, now), i, c, op.token, op.accessExpires, now, write, t)
  {
    LogoutThenForget(s, i, now);
    assert AfterLogout(s, i, now).ops[c] == s.ops[c];
    LateStoreAccepts(AfterLogout(s, i, now), i, c, op.token, write, t);
  }

  lemma ReplayStep(w: World, i: nat, g: Grant, now: int)
    requires Coherent(w) && i < |w.sessions| && w.sessions[i].rotatedTo.Some?
    ensures RefreshStep(w, w.sessions[i].refresh, g, now).0 ==
            w.(sessions := ChainRevoked(w.sessions, i, now), cache := w.cache - {w.sessions[i].access})
  {
    FindIsThatRow(w, i, ByRefresh);
  }

  lemma ReplayEffect(w: World, i: nat, g: Grant, now: int)
    requires Coherent(w) && i < |w.sessions| && w.sessions[i].rotatedTo.Some?
    ensures var u := RefreshStep(w, w.sessions[i].refresh, g, now).0;
            && u.cache == w.cache - {w.sessions[i].access} && Dead(u.sessions, RootOf(w.sessions, i))
            && Chain(u.sessions, RootOf(w.sessions, i)) == Chain(w.sessions, RootOf(w.sessions, i))
  {
    ReplayStep(w, i, g, now);
    ReplayKillsFamily(w.sessions, i, g, now);
    assert Refreshed(w.sessions, i, g, now).0 == ChainRevoked(w.sessions, i, now);
  }

  /** The state once a replay of row `i` has committed and forgotten what it forgets. */
  function AfterReplay(s: State, i: nat, g: Grant, now: int): State
    requires i < |s.w.sessions|
  {
    Act(Act(s, Timed(CommitRefresh(s.w.sessions[i].refresh, g), now)),
        Timed(Forget(|s.ops|, s.w.sessions[i].access), now))
  }

  lemma ReplayedWorld(s: State, i: nat, g: Grant, now: int)
    requires Coherent(s.w) && i < |s.w.sessions| && s.w.sessions[i].rotatedTo.Some?
    ensures AfterReplay(s, i, g, now).w == RefreshStep(s.w, s.w.sessions[i].refresh, g, now).0
    ensures |AfterReplay(s, i, g, now).ops| == |s.ops| + 1 && AfterReplay(s, i, g, now).ops[..|s.ops|] == s.ops
    ensures AfterReplay(s, i, g, now).ops[|s.ops|].Forgetting?
  {
    FindIsThatRow(s.w, i, ByRefresh);
    UninterruptedRefresh(s, i, g, now);
  }

  lemma AppendedHolds(ops: seq<Op>, op: Op, token: string, now: int)
    requires !op.Found?
    ensures HeldByLook(ops + [op], token, now) <==> HeldByLook(ops, token, now)
  {
    if HeldByLook(ops, token, now) {
      var c :| 0 <= c < |ops| && Carries(ops[c], token, now);
      assert Carries((ops + [op])[c], token, now);
    }
  }

  /** Every token of the family is that of a revoked session afterwards, and the cache has lost the replayed one's. */
  lemma ReplayRevokesFamily(s: State, i: nat, j: nat, g: Grant, now: int)
    requires Coherent(s.w) && i < |s.w.sessions| && s.w.sessions[i].rotatedTo.Some?
    requires j in Chain(s.w.sessions, RootOf(s.w.sessions, i)) && j < |s.w.sessions|
    ensures RevokedToken(AfterReplay(s, i, g, now).w, j, s.w.sessions[j].access)
    ensures AfterReplay(s, i, g, now).w.cache == s.w.cache - {s.w.sessions[i].access}
  {
    ReplayedWorld(s, i, g, now);
    ReplayEffect(s.w, i, g, now);
    RefreshAdvances(s.w, s.w.sessions[i].refresh, g, now);
    assert Get(AfterReplay(s, i, g, now).w.sessions[j], ByAccess) == Get(s.w.sessions[j], ByAccess);
  }

  lemma VisibleAfterForgetting(w: World, u: World, forgotten: string, token: string, now: int)
    requires u.cache == w.cache - {forgotten}
    ensures CachedVerdict(u, token, now).None? <==> token == forgotten || CachedVerdict(w, token, now).None?
  {
  }

  lemma GoneAfterForgetting(s: State, u: State, j: nat, forgotten: string, token: string, now: int)
    requires RevokedToken(u.w, j, token) && u.w.cache == s.w.cache - {forgotten}
    requires |u.ops| == |s.ops| + 1 && u.ops[..|s.ops|] == s.ops && u.ops[|s.ops|].Forgetting?
    ensures GoneForever(u, token, now) <==>
              (token == forgotten || CachedVerdict(s.w, token, now).None?) && !HeldByLook(s.ops, token, now)
  {
    RevokedIsGoneIff(u, j, token, now);
    VisibleAfterForgetting(s.w, u.w, forgotten, token, now);
    assert u.ops == s.ops + [u.ops[|s.ops|]];
    AppendedHolds(s.ops, u.ops[|s.ops|], token, now);
  }

  /** A replay, exactly: a token of the family is gone for good unless it is another session's and a cache entry still
      shows it, or a half-done verification holds it. */
  lemma ReplayLeavesCachedTokens(s: State, i: nat, j: nat, g: Grant, now: int)
    requires Coherent(s.w) && i < |s.w.sessions| && s.w.sessions[i].rotatedTo.Some?
    requires j in Chain(s.w.sessions, RootOf(s.w.sessions, i)) && j < |s.w.sessions|
    ensures var token := s.w.sessions[j].access;
            GoneForever(AfterReplay(s, i, g, now), token, now) <==>
              (j == i || CachedVerdict(s.w, token, now).None?) && !HeldByLook(s.ops, token, now)
  {
    ReplayedWorld(s, i, g, now);
    ReplayRevokesFamily(s, i, j, g, now);
    TokensDiffer(s.w, i, j);
    GoneAfterForgetting(s, AfterReplay(s, i, g, now), j, s.w.sessions[i].access, s.w.sessions[j].access, now);
  }

  lemma TokensDiffer(w: World, i: nat, j: nat)
    requires Coherent(w) && i < |w.sessions| && j < |w.sessions|
    ensures w.sessions[i].access == w.sessions[j].access <==> i == j
  {
    if i != j {
      assert Get(w.sessions[i], ByAccess) != Get(w.sessions[j], ByAccess);
    }
  }

  lemma RotationIssues(s: State, i: nat, g: Grant, now: int)
    requires Coherent(s.w) && i < |s.w.sessions| && Live(s.w.sessions[i]) && now <= s.w.sessions[i].refreshExpires
    requires s.w.sessions[i].user in s.w.users && s.w.users[s.w.sessions[i].user].active
    requires FreshGrant(s.w.sessions, g)
    ensures var s1, n := Act(s, Timed(CommitRefresh(s.w.sessions[i].refresh, g), now)), |s.w.sessions|;
            && Coherent(s1.w) && |s1.w.sessions| == n + 1 && s1.w.sessions[i].rotatedTo == Some(n)
            && s1.w.sessions[n] == Issued(s.w.sessions[i].user, s.w.sessions[i].device, g, now)
            && s1.w.users == s.w.users && s1.w.cache == s.w.cache && DatabaseVerdict(s1.w, g.access, now) == Ok(n)
  {
    var s1 := Act(s, Timed(CommitRefresh(s.w.sessions[i].refresh, g), now));
    FindIsThatRow(s.w, i, ByRefresh);
    RefreshAdvances(s.w, s.w.sessions[i].refresh, g, now);
    assert s1.w.sessions[|s.w.sessions|] == Issued(s.w.sessions[i].user, s.w.sessions[i].device, g, now);
    FindIsThatRow(s1.w, |s.w.sessions|, ByAccess);
  }

  /** The newest session of a family outlives a replay of its predecessor while its entry is cached: rotate any live
      session, let a verification of the new token read the database and store its verdict, replay the old token, and
      the new one is still accepted. */
  lemma NewestTokenSurvivesReplay(s: State, i: nat, g: Grant, h: Grant, now: int, t: int)
    requires Coherent(s.w) && i < |s.w.sessions| && Live(s.w.sessions[i]) && now <= s.w.sessions[i].refreshExpires
    requires s.w.sessions[i].user in s.w.users && s.w.users[s.w.sessions[i].user].active
    requires FreshGrant(s.w.sessions, g) && g.access !in s.w.cache && now <= t <= now + SESSION_CACHE_TTL
    requires Clean(Principal(s.w.sessions[i].user, s.w.sessions[i].device, g.id, s.w.users[s.w.sessions[i].user].role))
    ensures var s1, n := Act(s, Timed(CommitRefresh(s.w.sessions[i].refresh, g), now)), |s.w.sessions|;
            && |s1.w.sessions| == n + 1
            && var s4 := Act(HalfVerified(s1, n, now), Timed(Store(|s1.ops|), now));
               && |s4.w.sessions| == n + 1 && RevokedToken(AfterReplay(s4, i, h, now).w, n, g.access)
               && Accepts(AfterReplay(s4, i, h, now).w, g.access, t)
  {
    var s1, n := Act(s, Timed(CommitRefresh(s.w.sessions[i].refresh, g), now)), |s.w.sessions|;
    RotationIssues(s, i, g, now);
    LookFinds(s1, n, now);
    StoredThenReplayed(HalfVerified(s1, n, now), i, n, |s1.ops|, h, now, t);
  }

  lemma StoredThenReplayed(s: State, i: nat, n: nat, c: nat, h: Grant, now: int, t: int)
    requires Coherent(s.w) && i < n < |s.w.sessions| && s.w.sessions[i].rotatedTo == Some(n) && c < |s.ops|
    requires Carries(s.ops[c], s.w.sessions[n].access, now) && now <= t <= now + SESSION_CACHE_TTL
    requires t <= s.ops[c].accessExpires
    ensures var u := Act(s, Timed(Store(c), now));
            && u.w.sessions == s.w.sessions
            && RevokedToken(AfterReplay(u, i, h, now).w, n, s.w.sessions[n].access)
            && Accepts(AfterReplay(u, i, h, now).w, s.w.sessions[n].access, t)
  {
    LateStore(s, c, s.w.sessions[n].access, now, t);
    SurvivesReplay(Act(s, Timed(Store(c), now)), i, n, h, now, t);
  }

  lemma SurvivesReplay(s: State, i: nat, n: nat, h: Grant, now: int, t: int)
    requires Coherent(s.w) && i < n < |s.w.sessions| && s.w.sessions[i].rotatedTo == Some(n)
    requires CachedVerdict(s.w, s.w.sessions[n].access, t).Some?
    ensures var u := AfterReplay(s, i, h, now);
            RevokedToken(u.w, n, s.w.sessions[n].access) && Accepts(u.w, s.w.sessions[n].access, t)
  {
    RootReaches(s.w.sessions, i);
    SameEnd(s.w.sessions, RootOf(s.w.sessions, i), i);
    assert n in Chain(s.w.sessions, i);
    ReplayRevokesFamily(s, i, n, h, now);
    TokensDiffer(s.w, i, n);
    VisibleAfterForgetting(s.w, AfterReplay(s, i, h, now).w, s.w.sessions[i].access, s.w.sessions[n].access, t);
  }
}
