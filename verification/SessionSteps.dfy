/** The auth store as its concurrent callers see it.

    A verification asks the cache, then the database, then writes its verdict to the cache; a refresh, a logout and a
    device revocation commit first and forget cached tokens afterwards. Each of these is a step of its own here, so any
    number of other steps may come in between, and an operation may stop for good after any of them. */
module SessionSteps {
  import opened Wrappers
  import opened Sessions
  import opened Principals
  import opened AuthStore
  import PinLock

  /** An operation under way. `Found` carries a verdict that has not been written to the cache yet. */
  datatype Op =
    | Missed(token: string)
    | Found(token: string, principal: Principal, accessExpires: int)
    | Forgetting(tokens: set<string>)
    | Ended

  datatype State = State(w: World, ops: seq<Op>)

  datatype Action =
    | Ask(token: string)
    | Look(c: nat)
    | Store(c: nat)
    | CommitRefresh(token: string, grant: Grant)
    | CommitLogout(id: string)
    | CommitRevokeDevice(user: string, device: string)
    | Forget(c: nat, token: string)
    | Abandon(c: nat)
    | DoLogin(request: LoginRequest, newDevice: string, grant: Grant)
    | StartCode(id: string, phone: string, code: string)
    | TryCode(id: string, code: string)
    | SetActive(user: string, active: bool)
    | Evict(token: string)

  datatype Timed = Timed(action: Action, now: int)

  /** What an action does to the database, or, for an eviction, to the cache alone. */
  function WorldAct(w: World, a: Action, now: int): World {
    match a
    case CommitRefresh(token, g) => RefreshStep(w, token, g, now).0.(cache := w.cache)
    case CommitLogout(id) => LogoutStep(w, id, now).0.(cache := w.cache)
    case CommitRevokeDevice(user, device) => RevokeDeviceStep(w, user, device, now).0.(cache := w.cache)
    case DoLogin(request, newDevice, g) => LoginStep(w, request, newDevice, g, now).0
    case StartCode(id, phone, code) => StartCodeStep(w, id, phone, code, now)
    case TryCode(id, code) => TryCodeStep(w, id, code, now).0
    case SetActive(user, active) =>
      if user in w.users then w.(users := w.users[user := w.users[user].(active := active)]) else w
    case Evict(token) => w.(cache := w.cache - {token})
    case _ => w
  }

  /** The cached tokens an action still has to forget once it has committed. */
  function Forgets(w: World, a: Action, now: int): set<string> {
    match a
    case CommitRefresh(token, g) =>
      (match Find(w.sessions, ByRefresh, token)
       case None => {}
       case Some(i) =>
         var r := Refreshed(w.sessions, i, g, now).1;
         if r.Ok? && !FreshGrant(w.sessions, g) then {} else RefreshForgets(w, token, r))
    case CommitLogout(id) =>
      (match Find(w.sessions, ById, id)
       case None => {}
       case Some(i) => if Live(w.sessions[i]) then {w.sessions[i].access} else {})
    case CommitRevokeDevice(user, device) =>
      if OwnsDevice(w, user, device) then DeviceTokens(w.sessions, device) else {}
    case _ => {}
  }

  function Verdict(w: World, token: string, now: int): Op {
    match DatabaseVerdict(w, token, now)
    case Err(_) => Ended
    case Ok(i) => Found(token, PrincipalOf(w, i), w.sessions[i].accessExpires)
  }

  /** The next step of operation `c`. */
  function Continue(s: State, a: Action, now: int): State
    requires (a.Look? || a.Store? || a.Forget? || a.Abandon?) && a.c < |s.ops|
  {
    var op := s.ops[a.c];
    match a
    case Look(c) => if op.Missed? then s.(ops := s.ops[c := Verdict(s.w, op.token, now)]) else s
    case Store(c) =>
      if op.Found?
      then State(s.w.(cache := Remember(s.w.cache, op.token, op.principal, op.accessExpires, now)), s.ops[c := Ended])
      else s
    case Forget(c, token) =>
      if op.Forgetting? && token in op.tokens
      then State(s.w.(cache := s.w.cache - {token}), s.ops[c := Forgetting(op.tokens - {token})])
      else s
    case Abandon(c) => s.(ops := s.ops[c := Ended])
  }

  function Act(s: State, step: Timed): State {
    match step.action
    case Look(c) => if c < |s.ops| then Continue(s, step.action, step.now) else s
    case Store(c) => if c < |s.ops| then Continue(s, step.action, step.now) else s
    case Forget(c, _) => if c < |s.ops| then Continue(s, step.action, step.now) else s
    case Abandon(c) => if c < |s.ops| then Continue(s, step.action, step.now) else s
    case Ask(token) => if CachedVerdict(s.w, token, step.now).Some? then s else s.(ops := s.ops + [Missed(token)])
    case _ => State(WorldAct(s.w, step.action, step.now), s.ops + [Forgetting(Forgets(s.w, step.action, step.now))])
  }

  function Run(s: State, steps: seq<Timed>): State
    decreases |steps|
  {
    if steps == [] then s else Act(Run(s, steps[..|steps| - 1]), steps[|steps| - 1])
  }

  /** Whether a verification that starts now is accepted, by the cache or else by the database. */
  predicate Accepts(w: World, token: string, now: int) {
    CachedVerdict(w, token, now).Some? || DatabaseVerdict(w, token, now).Ok?
  }

  // What nothing interrupts is what the methods of the store do.

  lemma UninterruptedVerify(s: State, token: string, now: int, later: int)
    requires CachedVerdict(s.w, token, now).None?
    ensures var c := |s.ops|;
            var s2 := Act(Act(s, Timed(Ask(token), now)), Timed(Look(c), now));
            && Act(s2, Timed(Store(c), later)).w == VerifyStep(s.w, token, now, later).0
            && |s2.ops| == c + 1 && (s2.ops[c].Found? <==> VerifyStep(s.w, token, now, later).1.Ok?)
  {
  }

  lemma UninterruptedLogout(s: State, i: nat, now: int)
    requires i < |s.w.sessions| && Find(s.w.sessions, ById, s.w.sessions[i].id) == Some(i)
    ensures var s1 := Act(s, Timed(CommitLogout(s.w.sessions[i].id), now));
            Act(s1, Timed(Forget(|s.ops|, s.w.sessions[i].access), now)).w == LogoutStep(s.w, s.w.sessions[i].id, now).0
  {
  }

  lemma UninterruptedRefresh(s: State, i: nat, g: Grant, now: int)
    requires i < |s.w.sessions| && Find(s.w.sessions, ByRefresh, s.w.sessions[i].refresh) == Some(i)
    ensures var token := s.w.sessions[i].refresh;
            var s1 := Act(s, Timed(CommitRefresh(token, g), now));
            Act(s1, Timed(Forget(|s.ops|, s.w.sessions[i].access), now)).w == RefreshStep(s.w, token, g, now).0
  {
    assert s.w.cache - {} == s.w.cache;
  }

  /** Forgetting the tokens one by one, as the loop over a device's tokens does. */
  function ForgetEach(c: nat, tokens: seq<string>, now: int): seq<Timed> {
    if tokens == [] then []
    else ForgetEach(c, tokens[..|tokens| - 1], now) + [Timed(Forget(c, tokens[|tokens| - 1]), now)]
  }

  /** The tokens are gone from the cache and no longer wait in operation `c`. */
  function Forgot(s: State, c: nat, gone: set<string>): State
    requires c < |s.ops| && s.ops[c].Forgetting?
  {
    State(s.w.(cache := s.w.cache - gone), s.ops[c := Forgetting(s.ops[c].tokens - gone)])
  }

  lemma ForgotNothing(s: State, c: nat, gone: set<string>)
    requires c < |s.ops| && s.ops[c].Forgetting? && gone !! s.ops[c].tokens && gone !! s.w.cache.Keys
    ensures Forgot(s, c, gone) == s
  {
    assert s.w.cache - gone == s.w.cache && s.ops[c].tokens - gone == s.ops[c].tokens;
    assert s.ops[c := s.ops[c]] == s.ops;
  }

  lemma ForgotAgain(s: State, c: nat, gone: set<string>, token: string)
    requires c < |s.ops| && s.ops[c].Forgetting?
    ensures Forgot(Forgot(s, c, gone), c, {token}) == Forgot(s, c, gone + {token})
  {
    assert s.w.cache - gone - {token} == s.w.cache - (gone + {token});
    assert s.ops[c].tokens - gone - {token} == s.ops[c].tokens - (gone + {token});
  }

  lemma ForgetOne(s: State, c: nat, token: string, now: int)
    requires c < |s.ops| && s.ops[c].Forgetting? && (token !in s.ops[c].tokens ==> token !in s.w.cache)
    ensures Act(s, Timed(Forget(c, token), now)) == Forgot(s, c, {token})
  {
    if token !in s.ops[c].tokens {
      ForgotNothing(s, c, {token});
    }
  }

  lemma {:induction false} ForgetEachForgets(s: State, c: nat, tokens: seq<string>, now: int)
    requires c < |s.ops| && s.ops[c].Forgetting? && forall t <- tokens :: t in s.ops[c].tokens
    ensures Run(s, ForgetEach(c, tokens, now)) == Forgot(s, c, set t <- tokens)
    decreases |tokens|
  {
    if tokens == [] {
      ForgotNothing(s, c, {});
      assert (set t <- tokens) == {};
    } else {
      var rest, last := tokens[..|tokens| - 1], tokens[|tokens| - 1];
      var steps, before := ForgetEach(c, tokens, now), set t <- rest;
      ForgetEachForgets(s, c, rest, now);
      assert steps[..|steps| - 1] == ForgetEach(c, rest, now);
      assert tokens == rest + [last] && (set t <- tokens) == before + {last};
      ForgetOne(Forgot(s, c, before), c, last, now);
      ForgotAgain(s, c, before, last);
    }
  }

  /** The tokens come in the order of the rows, each once or more. */
  lemma UninterruptedRevokeDevice(s: State, user: string, device: string, tokens: seq<string>, now: int)
    requires OwnsDevice(s.w, user, device) && (set t <- tokens) == DeviceTokens(s.w.sessions, device)
    ensures var s1 := Act(s, Timed(CommitRevokeDevice(user, device), now));
            Run(s1, ForgetEach(|s.ops|, tokens, now)).w == RevokeDeviceStep(s.w, user, device, now).0
  {
    var s1 := Act(s, Timed(CommitRevokeDevice(user, device), now));
    forall t <- tokens ensures t in s1.ops[|s.ops|].tokens {
      assert t in (set x <- tokens);
    }
    ForgetEachForgets(s1, |s.ops|, tokens, now);
  }

  // What every step keeps.

  /** Tokens and ids are unique, as the table's constraints demand, and the rows are linked. */
  ghost predicate Coherent(w: World) {
    && Linked(w.sessions)
    && forall i, j, c :: 0 <= i < j < |w.sessions| ==> Get(w.sessions[i], c) != Get(w.sessions[j], c)
  }

  /** Same rows, except that some were revoked or rotated, plus rows with tokens never seen before. */
  ghost predicate Advances(w: World, u: World) {
    && Grows(w.sessions, u.sessions)
    && forall i, c :: 0 <= i < |w.sessions| ==> Get(u.sessions[i], c) == Get(w.sessions[i], c)
  }

  lemma FindIsThatRow(w: World, i: nat, c: Column)
    requires Coherent(w) && i < |w.sessions|
    ensures Find(w.sessions, c, Get(w.sessions[i], c)) == Some(i)
  {
    var f := Find(w.sessions, c, Get(w.sessions[i], c));
    assert f.Some?;
  }

  /** Replacing rows without touching their names, and perhaps adding one with fresh names. */
  lemma NamesStayUnique(w: World, t: Table, g: Grant)
    requires Coherent(w) && |w.sessions| <= |t| <= |w.sessions| + 1
    requires forall i, c :: 0 <= i < |w.sessions| ==> Get(t[i], c) == Get(w.sessions[i], c)
    requires |t| > |w.sessions| ==>
               FreshGrant(w.sessions, g) && t[|w.sessions|].id == g.id &&
               t[|w.sessions|].access == g.access && t[|w.sessions|].refresh == g.refresh
    ensures forall i, j, c :: 0 <= i < j < |t| ==> Get(t[i], c) != Get(t[j], c)
  {
  }

  lemma RefreshedNames(t: Table, i: nat, g: Grant, now: int)
    requires i < |t|
    ensures var u := Refreshed(t, i, g, now).0;
            && |t| <= |u| <= |t| + 1
            && (forall k, c :: 0 <= k < |t| ==> Get(u[k], c) == Get(t[k], c))
            && (|u| > |t| ==> Refreshed(t, i, g, now).1.Ok? &&
                              u[|t|].id == g.id && u[|t|].access == g.access && u[|t|].refresh == g.refresh)
  {
    if t[i].rotatedTo.Some? {
      ChainRevokedEffect(t, i, now);
    }
  }

  lemma RefreshAdvances(w: World, token: string, g: Grant, now: int)
    requires Coherent(w)
    ensures Coherent(RefreshStep(w, token, g, now).0) && Advances(w, RefreshStep(w, token, g, now).0)
  {
    var f := Find(w.sessions, ByRefresh, token);
    if f.Some? && !(Refreshed(w.sessions, f.value, g, now).1.Ok? && !FreshGrant(w.sessions, g)) {
      RefreshGrows(w.sessions, f.value, g, now);
      RefreshedNames(w.sessions, f.value, g, now);
      NamesStayUnique(w, Refreshed(w.sessions, f.value, g, now).0, g);
    }
  }

  lemma LogoutAdvances(w: World, id: string, now: int)
    requires Coherent(w)
    ensures Coherent(LogoutStep(w, id, now).0) && Advances(w, LogoutStep(w, id, now).0)
  {
    var u := LogoutStep(w, id, now).0;
    RevokingGrows(w.sessions, u.sessions);
    NamesStayUnique(w, u.sessions, Grant("", "", ""));
  }

  lemma RevokeDeviceAdvances(w: World, user: string, device: string, now: int)
    requires Coherent(w)
    ensures Coherent(RevokeDeviceStep(w, user, device, now).0) && Advances(w, RevokeDeviceStep(w, user, device, now).0)
  {
    var u := RevokeDeviceStep(w, user, device, now).0;
    RevokingGrows(w.sessions, u.sessions);
    NamesStayUnique(w, u.sessions, Grant("", "", ""));
  }

  lemma LoginAppends(w: World, req: LoginRequest, newDevice: string, g: Grant, now: int)
    ensures var u := LoginStep(w, req, newDevice, g, now).0;
            u.sessions == w.sessions ||
            (FreshGrant(w.sessions, g) &&
             exists user, device :: u.sessions == w.sessions + [Issued(user, device, g, now)])
  {
    if req.phone in w.phones && w.phones[req.phone] in w.users {
      var user := w.phones[req.phone];
      var v := WithLock(w, user, PinLock.TryPin(w.users[user].lock, now, req.pin == w.users[user].pin).0);
      AdmitAppends(v, user, req, newDevice, g, now);
    }
  }

  lemma AdmitAppends(w: World, user: string, req: LoginRequest, newDevice: string, g: Grant, now: int)
    ensures var r := Admit(w, user, req, newDevice, g, now);
            r.Ok? ==> FreshGrant(w.sessions, g) &&
                      exists device :: r.value.sessions == w.sessions + [Issued(user, device, g, now)]
  {
  }

  lemma LoginAdvances(w: World, req: LoginRequest, newDevice: string, g: Grant, now: int)
    requires Coherent(w)
    ensures Coherent(LoginStep(w, req, newDevice, g, now).0) && Advances(w, LoginStep(w, req, newDevice, g, now).0)
  {
    var u := LoginStep(w, req, newDevice, g, now).0;
    LoginAppends(w, req, newDevice, g, now);
    if u.sessions != w.sessions {
      var user, device :| u.sessions == w.sessions + [Issued(user, device, g, now)];
      AppendGrows(w.sessions, Issued(user, device, g, now));
      NamesStayUnique(w, u.sessions, g);
    }
  }

  lemma SameRowsAdvance(w: World, u: World)
    requires Coherent(w) && u.sessions == w.sessions
    ensures Coherent(u) && Advances(w, u)
  {
  }

  lemma WorldAdvances(w: World, a: Action, now: int)
    requires Coherent(w)
    ensures Coherent(WorldAct(w, a, now)) && Advances(w, WorldAct(w, a, now))
  {
    match a
    case CommitRefresh(token, g) => RefreshAdvances(w, token, g, now);
    case CommitLogout(id) => LogoutAdvances(w, id, now);
    case CommitRevokeDevice(user, device) => RevokeDeviceAdvances(w, user, device, now);
    case DoLogin(request, newDevice, g) => LoginAdvances(w, request, newDevice, g, now);
    case _ => SameRowsAdvance(w, WorldAct(w, a, now));
  }

  lemma ActAdvances(s: State, step: Timed)
    requires Coherent(s.w)
    ensures Coherent(Act(s, step).w) && Advances(s.w, Act(s, step).w)
  {
    WorldAdvances(s.w, step.action, step.now);
    if Act(s, step).w.sessions == s.w.sessions {
      SameRowsAdvance(s.w, Act(s, step).w);
    }
  }
}
