/** The auth store: users, devices, one-time codes and sessions in the database, and a cache of verified
    sessions in front of it. Each database transaction is one atomic step; times are in seconds. */
module AuthStore {
  import opened Wrappers
  import opened Sessions
  import opened Principals
  import PinLock

  datatype User = User(pin: string, active: bool, role: string, lock: PinLock.Lock)

  datatype Device = Device(user: string, revoked: bool)

  datatype Cached = Cached(text: string, expires: int)

  datatype World = World(
    sessions: Table,
    users: map<string, User>,
    phones: map<string, string>,
    devices: map<string, Device>,
    challenges: map<string, PinLock.Challenge>,
    cache: map<string, Cached>)

  datatype AuthError =
    | NoUser | NotActive | PinLocked | WrongPin
    | Code(error: PinLock.CodeError)
    | Denied(cause: Error)
    | Collision   // a UNIQUE constraint refused a random value

  const SESSION_CACHE_TTL := 60

  // Looking rows up.

  datatype Column = ById | ByAccess | ByRefresh

  function Get(s: Session, c: Column): string {
    match c
    case ById => s.id
    case ByAccess => s.access
    case ByRefresh => s.refresh
  }

  function Find(t: Table, c: Column, key: string, from: nat := 0): (r: Option<nat>)
    requires from <= |t|
    ensures r.Some? ==> from <= r.value < |t| && Get(t[r.value], c) == key
    ensures r.None? ==> forall i :: from <= i < |t| ==> Get(t[i], c) != key
    decreases |t| - from
  {
    if from == |t| then None
    else if Get(t[from], c) == key then Some(from)
    else Find(t, c, key, from + 1)
  }

  predicate FreshGrant(t: Table, g: Grant) {
    Find(t, ById, g.id).None? && Find(t, ByAccess, g.access).None? && Find(t, ByRefresh, g.refresh).None?
  }

  // Transitions.

  /** The access tokens a refresh forgets once its transaction has committed. */
  function RefreshForgets(w: World, token: string, r: Result<nat, Error>): set<string> {
    match Find(w.sessions, ByRefresh, token)
    case None => {}
    case Some(i) => if r.Ok? || r.error.Replayed? then {w.sessions[i].access} else {}
  }

  function RefreshStep(w: World, token: string, g: Grant, now: int): (World, Result<nat, AuthError>) {
    match Find(w.sessions, ByRefresh, token)
    case None => (w, Err(Denied(NoSession)))
    case Some(i) =>
      var (t, r) := Refreshed(w.sessions, i, g, now);
      if r.Ok? && !FreshGrant(w.sessions, g) then (w, Err(Collision))
      else
        (w.(sessions := t, cache := w.cache - RefreshForgets(w, token, r)),
         if r.Ok? then Ok(r.value) else Err(Denied(r.error)))
  }

  function LogoutStep(w: World, id: string, now: int): (World, Option<AuthError>) {
    match Find(w.sessions, ById, id)
    case None => (w, Some(Denied(NoSession)))
    case Some(i) =>
      if !Live(w.sessions[i]) then (w, Some(Denied(NoSession)))
      else (w.(sessions := LoggedOutRow(w.sessions, i, now), cache := w.cache - {w.sessions[i].access}), None)
  }

  predicate OwnsDevice(w: World, user: string, device: string) {
    device in w.devices && w.devices[device] == Device(user, false)
  }

  /** The access tokens of the live sessions of a device. */
  function DeviceTokens(t: Table, device: string): set<string> {
    set s <- t | s.device == device && Live(s) :: s.access
  }

  function RevokeDeviceStep(w: World, user: string, device: string, now: int): (World, Option<AuthError>) {
    if !OwnsDevice(w, user, device) then (w, Some(Denied(NoSession)))
    else
      (w.(devices := w.devices[device := Device(user, true)],
          sessions := DeviceRevokedRows(w.sessions, device, now),
          cache := w.cache - DeviceTokens(w.sessions, device)), None)
  }

  function PrincipalOf(w: World, i: nat): Principal
    requires i < |w.sessions| && w.sessions[i].user in w.users
  {
    var s := w.sessions[i];
    Principal(s.user, s.device, s.id, w.users[s.user].role)
  }

  /** What the database alone says about an access token. */
  function DatabaseVerdict(w: World, token: string, now: int): Result<nat, AuthError> {
    match Find(w.sessions, ByAccess, token)
    case None => Err(Denied(NoSession))
    case Some(i) =>
      var s := w.sessions[i];
      if s.user !in w.users || !Live(s) then Err(Denied(NoSession))
      else if now > s.accessExpires then Err(Denied(SessionExpired))
      else if !w.users[s.user].active then Err(NotActive)
      else Ok(i)
  }

  /** The cached principal, if an entry is visible and readable. */
  function CachedVerdict(w: World, token: string, now: int): Option<Principal> {
    if token in w.cache && now <= w.cache[token].expires then Decoded(w.cache[token].text) else None
  }

  /** Writing a verdict to the cache: the entry's life is measured from the write, and ends with the access token. */
  function Remember(cache: map<string, Cached>, token: string, p: Principal, accessExpires: int,
                    now: int): map<string, Cached> {
    var ttl := if accessExpires - now > SESSION_CACHE_TTL then SESSION_CACHE_TTL else accessExpires - now;
    if ttl > 0 then cache[token := Cached(Encode(p), now + ttl)] else cache
  }

  /** One verification that nothing interrupts: cache and database are read at `now`, the cache is written at
      `later`. */
  function VerifyStep(w: World, token: string, now: int, later: int): (World, Result<Principal, AuthError>) {
    if CachedVerdict(w, token, now).Some? then (w, Ok(CachedVerdict(w, token, now).value))
    else
      var v := DatabaseVerdict(w, token, now);
      if v.Err? then (w, Err(v.error))
      else
        var p := PrincipalOf(w, v.value);
        (w.(cache := Remember(w.cache, token, p, w.sessions[v.value].accessExpires, later)), Ok(p))
  }

  datatype LoginRequest = LoginRequest(challengeId: string, phone: string, pin: string, deviceId: string)

  /** What follows a correct PIN: spend the code, settle the device, issue the session. Any failure here
      rolls the whole transaction back. */
  function Admit(w: World, user: string, req: LoginRequest, newDevice: string, g: Grant,
                 now: int): Result<World, AuthError> {
    var challenge := if req.challengeId in w.challenges then Some(w.challenges[req.challengeId]) else None;
    if req.challengeId != "" && challenge.None? then Err(Code(PinLock.NoChallenge))
    else if req.challengeId != "" && PinLock.Consume(challenge.value, now).Err? then
      Err(Code(PinLock.Consume(challenge.value, now).error))
    else
      var known := req.deviceId != "" && OwnsDevice(w, user, req.deviceId);
      if (!known && newDevice in w.devices) || !FreshGrant(w.sessions, g) then Err(Collision)
      else
        var device := if known then req.deviceId else newDevice;
        Ok(w.(challenges := if req.challengeId == "" then w.challenges
                            else w.challenges[req.challengeId := PinLock.Consume(challenge.value, now).value],
              devices := w.devices[device := Device(user, false)],
              sessions := w.sessions + [Issued(user, device, g, now)]))
  }

  function WithLock(w: World, user: string, lock: PinLock.Lock): World
    requires user in w.users
  {
    w.(users := w.users[user := w.users[user].(lock := lock)])
  }

  function LoginStep(w: World, req: LoginRequest, newDevice: string, g: Grant,
                     now: int): (World, Result<nat, AuthError>) {
    if req.phone !in w.phones || w.phones[req.phone] !in w.users then (w, Err(NoUser))
    else
      var user := w.phones[req.phone];
      var u := w.users[user];
      var (lock, outcome) := PinLock.TryPin(u.lock, now, req.pin == u.pin);
      if !u.active then (w, Err(NotActive))
      else
        match outcome
        case Refused => (w, Err(PinLocked))
        case Wrong => (WithLock(w, user, lock), Err(WrongPin))
        case WrongAndLocked => (WithLock(w, user, lock), Err(PinLocked))
        case Right =>
          var admitted := Admit(WithLock(w, user, lock), user, req, newDevice, g, now);
          if admitted.Err? then (w, Err(admitted.error)) else (admitted.value, Ok(|w.sessions|))
  }

  const OTP_WINDOW := 5 * 60
  const OTP_MAX_ATTEMPTS := 3

  /** A new one-time code; its id is random, so fresh. */
  function StartCodeStep(w: World, id: string, phone: string, code: string, now: int): World {
    if id in w.challenges then w
    else
      var c := PinLock.Challenge(phone, code, 0, OTP_MAX_ATTEMPTS, now + OTP_WINDOW, None);
      w.(challenges := w.challenges[id := c])
  }

  function TryCodeStep(w: World, id: string, code: string, now: int): (World, Result<string, PinLock.CodeError>) {
    if id !in w.challenges then (w, Err(PinLock.NoChallenge))
    else
      var (c, r) := PinLock.TryCode(w.challenges[id], now, code);
      (w.(challenges := w.challenges[id := c]), r)
  }

  // What each operation answers, said of the rows themselves.

  /** Row `i` is the one with this value in a UNIQUE column. */
  ghost predicate TheRow(t: Table, i: nat, c: Column, key: string) {
    && i < |t|
    && match c
       case ById => t[i].id == key && forall j :: 0 <= j < |t| && j != i ==> t[j].id != key
       case ByAccess => t[i].access == key && forall j :: 0 <= j < |t| && j != i ==> t[j].access != key
       case ByRefresh => t[i].refresh == key && forall j :: 0 <= j < |t| && j != i ==> t[j].refresh != key
  }

  ghost predicate NoRow(t: Table, c: Column, key: string) {
    match c
    case ById => forall j :: 0 <= j < |t| ==> t[j].id != key
    case ByAccess => forall j :: 0 <= j < |t| ==> t[j].access != key
    case ByRefresh => forall j :: 0 <= j < |t| ==> t[j].refresh != key
  }

  lemma FindsTheRow(t: Table, c: Column, key: string)
    ensures forall i: nat :: TheRow(t, i, c, key) ==> Find(t, c, key) == Some(i)
    ensures NoRow(t, c, key) <==> Find(t, c, key).None?
  {
    var f := Find(t, c, key);
    forall i: nat | TheRow(t, i, c, key) ensures f == Some(i) {
      assert Get(t[i], c) == key;
    }
    if f.Some? {
      assert Get(t[f.value], c) == key;
    } else {
      assert forall j :: 0 <= j < |t| ==> Get(t[j], c) != key;
    }
  }

  /** None of the random values is in the table. */
  ghost predicate Unused(t: Table, g: Grant) {
    NoRow(t, ById, g.id) && NoRow(t, ByAccess, g.access) && NoRow(t, ByRefresh, g.refresh)
  }

  lemma FreshIsUnused(t: Table, g: Grant)
    ensures FreshGrant(t, g) <==> Unused(t, g)
  {
    FindsTheRow(t, ById, g.id);
    FindsTheRow(t, ByAccess, g.access);
    FindsTheRow(t, ByRefresh, g.refresh);
  }

  /** Why a refresh is refused: used before, revoked, past its time, or a random value that is taken. */
  predicate RefreshRefused(s: Session, unused: bool, now: int, why: AuthError) {
    match why
    case Denied(Replayed) => s.rotatedTo.Some?
    case Denied(NoSession) => s.rotatedTo.None? && s.revokedAt.Some?
    case Denied(SessionExpired) => s.rotatedTo.None? && s.revokedAt.None? && s.refreshExpires < now
    case Collision => Rotatable(s, now) && !unused
    case _ => false
  }

  /** A refresh of row `i` is right: it succeeds exactly for a session that can be rotated, with unused values; then the
      row is retired in favour of a new one of the same user and device, and no other row changes. */
  ghost predicate RefreshRight(w: World, u: World, r: Result<nat, AuthError>, i: nat, g: Grant, now: int)
    requires i < |w.sessions|
  {
    var s, n := w.sessions[i], |w.sessions|;
    && (r.Ok? <==> Rotatable(s, now) && Unused(w.sessions, g))
    && (r.Ok? ==>
          && r.value == n && |u.sessions| == n + 1 && IssuedFor(u.sessions[n], s.user, s.device, g, now)
          && u.sessions[i] == s.(rotatedTo := Some(n), revokedAt := Some(now), reason := Some(Rotated))
          && (forall j :: 0 <= j < n && j != i ==> u.sessions[j] == w.sessions[j]))
    && (r.Err? ==> RefreshRefused(s, Unused(w.sessions, g), now, r.error) && |u.sessions| == n)
    && (r.Err? && r.error != Denied(Replayed) ==> u == w)
    && (r.Ok? || r.error == Denied(Replayed) ==> u.cache == w.cache - {s.access})
  }

  /** A refresh with this token is right for the row that has it, and refused when there is none. */
  ghost predicate RefreshAnswers(w: World, u: World, r: Result<nat, AuthError>, token: string, g: Grant, now: int) {
    && (NoRow(w.sessions, ByRefresh, token) ==> r == Err(Denied(NoSession)) && u == w)
    && forall i: nat :: TheRow(w.sessions, i, ByRefresh, token) ==> RefreshRight(w, u, r, i, g, now)
  }

  /** When a refresh succeeds, and each way in which it does not. */
  lemma RefreshIff(w: World, token: string, g: Grant, now: int)
    ensures RefreshAnswers(w, RefreshStep(w, token, g, now).0, RefreshStep(w, token, g, now).1, token, g, now)
  {
    FindsTheRow(w.sessions, ByRefresh, token);
    FreshIsUnused(w.sessions, g);
    forall i: nat | TheRow(w.sessions, i, ByRefresh, token)
      ensures RefreshRight(w, RefreshStep(w, token, g, now).0, RefreshStep(w, token, g, now).1, i, g, now)
    {
      RefreshOfRow(w, token, i, g, now);
    }
  }

  lemma RefreshOfRow(w: World, token: string, i: nat, g: Grant, now: int)
    requires Find(w.sessions, ByRefresh, token) == Some(i) && (FreshGrant(w.sessions, g) <==> Unused(w.sessions, g))
    ensures RefreshRight(w, RefreshStep(w, token, g, now).0, RefreshStep(w, token, g, now).1, i, g, now)
  {
    if w.sessions[i].rotatedTo.Some? {
      ChainRevokedEffect(w.sessions, i, now);
    } else {
      assert w.cache - {} == w.cache;
    }
  }

  /** The session and its user exist, it is not revoked and its access token not past its time, and the user is
      active. */
  predicate Admissible(w: World, i: nat, token: string, now: int) {
    && i < |w.sessions| && w.sessions[i].access == token && w.sessions[i].revokedAt.None?
    && now <= w.sessions[i].accessExpires
    && w.sessions[i].user in w.users && w.users[w.sessions[i].user].active
  }

  /** `p` names the user, device and id of row `i`, and the user's role. */
  predicate Names(w: World, i: nat, p: Principal) {
    && i < |w.sessions| && w.sessions[i].user in w.users
    && p.userId == w.sessions[i].user && p.deviceId == w.sessions[i].device && p.sessionId == w.sessions[i].id
    && p.role == w.users[w.sessions[i].user].role
  }

  /** Why the database does not vouch for row `i`, in this order: revoked or without a user, past its time, not
      active. */
  predicate VerifyRefused(w: World, i: nat, now: int, why: AuthError)
    requires i < |w.sessions|
  {
    var s := w.sessions[i];
    var known := s.user in w.users && s.revokedAt.None?;
    match why
    case Denied(NoSession) => !known
    case Denied(SessionExpired) => known && s.accessExpires < now
    case NotActive => known && now <= s.accessExpires && !w.users[s.user].active
    case _ => false
  }

  /** The database vouches for a token exactly when there is an admissible row with it. */
  lemma VerdictIff(w: World, token: string, now: int)
    ensures var r := DatabaseVerdict(w, token, now);
            && (r.Ok? ==> Admissible(w, r.value, token, now))
            && (NoRow(w.sessions, ByAccess, token) ==> r == Err(Denied(NoSession)))
            && forall i: nat :: TheRow(w.sessions, i, ByAccess, token) ==>
                 && (r.Ok? <==> Admissible(w, i, token, now)) && (r.Ok? ==> r.value == i)
                 && (r.Err? ==> VerifyRefused(w, i, now, r.error))
  {
    FindsTheRow(w.sessions, ByAccess, token);
  }

  /** The entry written for a principal at `later`: a minute, or less when the access token ends before; none when it
      has ended. */
  predicate Caches(before: map<string, Cached>, after: map<string, Cached>, token: string, p: Principal, ends: int,
                   later: int) {
    if later >= ends then after == before
    else
      && token in after && after[token].text == Encode(p) && after - {token} == before - {token}
      && after[token].expires <= ends && after[token].expires <= later + SESSION_CACHE_TTL
      && (after[token].expires == ends || after[token].expires == later + SESSION_CACHE_TTL)
  }

  /** A verification of row `i` that the cache does not answer is right: it succeeds exactly for an admissible row, with
      the principal of that row, which it caches. */
  ghost predicate VerifyRight(w: World, u: World, r: Result<Principal, AuthError>, i: nat, token: string, now: int,
                              later: int)
    requires i < |w.sessions|
  {
    && (r.Ok? <==> Admissible(w, i, token, now))
    && (r.Ok? ==> Names(w, i, r.value) && u == w.(cache := u.cache)
                  && Caches(w.cache, u.cache, token, r.value, w.sessions[i].accessExpires, later))
    && (r.Err? ==> VerifyRefused(w, i, now, r.error) && u == w)
  }

  lemma VerifyIff(w: World, token: string, now: int, later: int)
    ensures var (u, r) := VerifyStep(w, token, now, later);
            && (CachedVerdict(w, token, now).Some? ==> u == w && r == Ok(CachedVerdict(w, token, now).value))
            && (CachedVerdict(w, token, now).None? ==>
                  && (NoRow(w.sessions, ByAccess, token) ==> r == Err(Denied(NoSession)) && u == w)
                  && forall i: nat :: TheRow(w.sessions, i, ByAccess, token) ==>
                       VerifyRight(w, u, r, i, token, now, later))
  {
    VerdictIff(w, token, now);
  }

  /** With unique tokens, as the table demands: a verification the cache does not answer succeeds if and only if there
      is an admissible row with the token. */
  lemma AcceptedIffAdmissible(w: World, token: string, now: int, later: int)
    requires forall i, j :: 0 <= i < j < |w.sessions| ==> w.sessions[i].access != w.sessions[j].access
    requires CachedVerdict(w, token, now).None?
    ensures VerifyStep(w, token, now, later).1.Ok? <==> exists i: nat :: Admissible(w, i, token, now)
  {
    VerdictIff(w, token, now);
    if i: nat :| Admissible(w, i, token, now) {
      assert TheRow(w.sessions, i, ByAccess, token);
    }
  }

  /** An entry answers exactly while its time has not passed and its text can be read. */
  lemma CachedIff(w: World, token: string, now: int)
    ensures CachedVerdict(w, token, now).Some? <==>
              token in w.cache && now <= w.cache[token].expires && Decoded(w.cache[token].text).Some?
    ensures CachedVerdict(w, token, now).Some? ==>
              CachedVerdict(w, token, now) == Decoded(w.cache[token].text)
  {
  }

  /** A logout succeeds exactly for a session that is not revoked, and revokes that one alone. */
  lemma LogoutIff(w: World, i: nat, id: string, now: int)
    requires TheRow(w.sessions, i, ById, id)
    ensures var (u, r) := LogoutStep(w, id, now);
            && (r.None? <==> w.sessions[i].revokedAt.None?) && (r.Some? ==> r == Some(Denied(NoSession)) && u == w)
            && (r.None? ==>
                  && u.sessions == w.sessions[i := w.sessions[i].(revokedAt := Some(now), reason := Some(LoggedOut))]
                  && u == w.(sessions := u.sessions, cache := w.cache - {w.sessions[i].access}))
  {
    FindsTheRow(w.sessions, ById, id);
  }

  /** A device is revoked exactly by its own user and once; then exactly its sessions that are not revoked are. */
  lemma RevokeDeviceIff(w: World, user: string, device: string, now: int)
    ensures var (u, r) := RevokeDeviceStep(w, user, device, now);
            && (r.None? <==> device in w.devices && w.devices[device].user == user && !w.devices[device].revoked)
            && (r.Some? ==> r == Some(Denied(NoSession)) && u == w)
            && (r.None? ==>
                  && u.devices == w.devices[device := Device(user, true)] && |u.sessions| == |w.sessions|
                  && (forall i :: 0 <= i < |w.sessions| ==>
                        u.sessions[i] ==
                          if w.sessions[i].device == device && w.sessions[i].revokedAt.None?
                          then w.sessions[i].(revokedAt := Some(now), reason := Some(DeviceRevoked))
                          else w.sessions[i])
                  && (forall token :: token in u.cache <==>
                        token in w.cache && !exists i :: 0 <= i < |w.sessions| && w.sessions[i].access == token &&
                                                         w.sessions[i].device == device &&
                                                         w.sessions[i].revokedAt.None?))
  {
    if OwnsDevice(w, user, device) {
      forall token | token in DeviceTokens(w.sessions, device)
        ensures exists i :: 0 <= i < |w.sessions| && w.sessions[i].access == token &&
                            w.sessions[i].device == device && w.sessions[i].revokedAt.None?
      {
        var s :| s in w.sessions && s.device == device && Live(s) && s.access == token;
        var i :| 0 <= i < |w.sessions| && w.sessions[i] == s;
      }
    }
  }

  // Logging in.

  /** The user of the phone is there, active and not locked out, the PIN is theirs, and the code, if one is given, is
      unspent and not past its time. */
  predicate MayLogIn(w: World, req: LoginRequest, now: int) {
    && req.phone in w.phones && w.phones[req.phone] in w.users
    && var u := w.users[w.phones[req.phone]];
       && u.active && u.pin == req.pin && (u.lock.until.None? || u.lock.until.value <= now)
       && (req.challengeId == "" ||
           (req.challengeId in w.challenges && w.challenges[req.challengeId].consumedAt.None? &&
            now <= w.challenges[req.challengeId].expiresAt))
  }

  /** The device the request names, when it is the user's and not revoked. */
  predicate Recognised(w: World, req: LoginRequest) {
    && req.deviceId != "" && req.deviceId in w.devices && req.phone in w.phones
    && w.devices[req.deviceId] == Device(w.phones[req.phone], false)
  }

  /** A login that succeeded is right: one session more, of the user of the phone, on the recognised device or on a new
      one of that user; the code is spent and the PIN counter cleared. */
  ghost predicate LoginRight(w: World, u: World, req: LoginRequest, newDevice: string, g: Grant, now: int)
    requires req.phone in w.phones && w.phones[req.phone] in w.users
  {
    var user, n := w.phones[req.phone], |w.sessions|;
    var device := if Recognised(w, req) then req.deviceId else newDevice;
    && |u.sessions| == n + 1 && u.sessions[..n] == w.sessions && IssuedFor(u.sessions[n], user, device, g, now)
    && u.devices == w.devices[device := Device(user, false)] && u.phones == w.phones && u.cache == w.cache
    && u.users == w.users[user := w.users[user].(lock := PinLock.Lock(0, None))]
    && u.challenges == if req.challengeId == "" || req.challengeId !in w.challenges then w.challenges
                       else w.challenges[req.challengeId := w.challenges[req.challengeId].(consumedAt := Some(now))]
  }

  /** A login succeeds exactly for who may log in, with random values that are not taken. One that fails changes at most
      the counter of the user whose PIN was wrong. */
  lemma LoginIff(w: World, req: LoginRequest, newDevice: string, g: Grant, now: int)
    ensures var (u, r) := LoginStep(w, req, newDevice, g, now);
            && (r.Ok? <==> MayLogIn(w, req, now) && Unused(w.sessions, g) &&
                           (Recognised(w, req) || newDevice !in w.devices))
            && (r.Ok? ==> r.value == |w.sessions| && LoginRight(w, u, req, newDevice, g, now))
            && (r.Err? ==> u == w.(users := u.users))
            && (r.Err? && u.users != w.users ==>
                  && req.phone in w.phones && w.phones[req.phone] in w.users
                  && var user := w.phones[req.phone];
                     && w.users[user].active && w.users[user].pin != req.pin
                     && user in u.users && u.users == w.users[user := w.users[user].(lock := u.users[user].lock)])
  {
    FreshIsUnused(w.sessions, g);
  }

  /** `auth.Store`. */
  class Store {
    var sessions: Table
    var users: map<string, User>
    var phones: map<string, string>
    var devices: map<string, Device>
    var challenges: map<string, PinLock.Challenge>
    var cache: map<string, Cached>

    ghost function W(): World
      reads this
    {
      World(sessions, users, phones, devices, challenges, cache)
    }

    /** What every run of the store keeps, by `Sessions.RunsStayLinked`. */
    ghost predicate Valid()
      reads this
    {
      Linked(sessions)
    }

    method FindRow(c: Column, key: string) returns (r: Option<nat>)
      ensures r == Find(sessions, c, key)
    {
      for i := 0 to |sessions|
        invariant Find(sessions, c, key) == Find(sessions, c, key, i)
      {
        if Get(sessions[i], c) == key {
          return Some(i);
        }
      }
      return None;
    }

    /** The recursive update, one row after the other: it follows `rotatedTo` itself, and ends because rotation
        only points forward. */
    method RevokeChain(row: nat, now: int)
      requires Valid() && row < |sessions|
      modifies this`sessions
      ensures Valid() && sessions == ChainRevoked(old(sessions), row, now)
    {
      var i, done := row, false;
      while !done
        invariant Valid() && i < |sessions| == |old(sessions)|
        invariant !done ==> ChainRevoked(sessions, i, now) == ChainRevoked(old(sessions), row, now)
        invariant done ==> sessions == ChainRevoked(old(sessions), row, now)
        decreases !done, |sessions| - i
      {
        NextIsRotation(sessions, i);
        MarkKeepsLinked(sessions, i, now);
        sessions := sessions[i := ReplayMark(sessions[i], now)];
        if sessions[i].rotatedTo.Some? {
          i := sessions[i].rotatedTo.value;
        } else {
          done := true;
        }
      }
    }

    method Refresh(token: string, g: Grant, now: int) returns (r: Result<nat, AuthError>)
      requires Valid()
      modifies this
      ensures Valid() && (W(), r) == RefreshStep(old(W()), token, g, now)
      ensures RefreshAnswers(old(W()), W(), r, token, g, now)
    {
      RefreshIff(W(), token, g, now);
      var found := FindRow(ByRefresh, token);
      if found.None? {
        return Err(Denied(NoSession));
      }
      r := RefreshRow(token, found.value, g, now);
    }

    /** The part of the refresh after the row was found. */
    method RefreshRow(token: string, i: nat, g: Grant, now: int) returns (r: Result<nat, AuthError>)
      requires Valid() && Find(sessions, ByRefresh, token) == Some(i)
      modifies this
      ensures Valid() && (W(), r) == RefreshStep(old(W()), token, g, now)
    {
      var s := sessions[i];
      assert cache - {} == cache;
      if s.rotatedTo.Some? {
        RevokeChain(i, now);
        cache := cache - {s.access};
        return Err(Denied(Replayed));
      }
      if s.revokedAt.Some? {
        return Err(Denied(NoSession));
      }
      if now > s.refreshExpires {
        return Err(Denied(SessionExpired));
      }
      if !FreshGrant(sessions, g) {
        return Err(Collision);
      }
      var next := Rotate(i, g, now);
      cache := cache - {s.access};
      return Ok(next);
    }

    /** Retire a row in favour of a new one. */
    method Rotate(i: nat, g: Grant, now: int) returns (next: nat)
      requires Valid() && i < |sessions| && Rotatable(sessions[i], now)
      modifies this`sessions
      ensures Valid() && (sessions, Ok(next)) == Refreshed(old(sessions), i, g, now)
    {
      RefreshGrows(sessions, i, g, now);
      var s := sessions[i];
      next := |sessions|;
      sessions := sessions[i := Revoke(s.(rotatedTo := Some(next)), now, Rotated)];
      sessions := sessions + [Issued(s.user, s.device, g, now)];
    }

    method Logout(id: string, now: int) returns (r: Option<AuthError>)
      requires Valid()
      modifies this
      ensures Valid() && (W(), r) == LogoutStep(old(W()), id, now)
    {
      var found := FindRow(ById, id);
      if found.None? || sessions[found.value].revokedAt.Some? {
        return Some(Denied(NoSession));
      }
      var s := sessions[found.value];
      RevokingGrows(sessions, LoggedOutRow(sessions, found.value, now));
      sessions := sessions[found.value := Revoke(s, now, LoggedOut)];
      cache := cache - {s.access};
      return None;
    }

    /** Revoke the device's live sessions, collecting their tokens. */
    method RevokeDeviceSessions(device: string, now: int) returns (tokens: seq<string>)
      modifies this`sessions
      ensures sessions == DeviceRevokedRows(old(sessions), device, now)
      ensures (set k <- tokens) == DeviceTokens(old(sessions), device)
    {
      tokens := [];
      ghost var before := sessions;
      for i := 0 to |sessions|
        invariant |sessions| == |before|
        invariant forall k :: 0 <= k < i ==> sessions[k] == DeviceRow(before[k], device, now)
        invariant forall k :: i <= k < |before| ==> sessions[k] == before[k]
        invariant forall x :: x in tokens <==>
                  exists k :: 0 <= k < i && before[k].device == device && Live(before[k]) && before[k].access == x
      {
        var s := sessions[i];
        if s.device == device && s.revokedAt.None? {
          sessions := sessions[i := Revoke(s, now, DeviceRevoked)];
          tokens := tokens + [s.access];
        }
      }
    }

    method RevokeDevice(user: string, device: string, now: int) returns (r: Option<AuthError>)
      requires Valid()
      modifies this
      ensures Valid() && (W(), r) == RevokeDeviceStep(old(W()), user, device, now)
    {
      if device !in devices || devices[device] != Device(user, false) {
        return Some(Denied(NoSession));
      }
      devices := devices[device := Device(user, true)];
      RevokingGrows(sessions, DeviceRevokedRows(sessions, device, now));
      var tokens := RevokeDeviceSessions(device, now);
      ForgetAll(tokens);
      return None;
    }

    method ForgetAll(tokens: seq<string>)
      modifies this`cache
      ensures cache == old(cache) - (set k <- tokens)
    {
      for i := 0 to |tokens|
        invariant cache == old(cache) - (set k <- tokens[..i])
      {
        assert tokens[..i + 1] == tokens[..i] + [tokens[i]];
        cache := cache - {tokens[i]};
      }
      assert tokens[..|tokens|] == tokens;
    }

    /** The database is asked at `now`; by the time the verdict is written to the cache it is `later`. */
    method Verify(token: string, now: int, later: int) returns (r: Result<Principal, AuthError>)
      modifies this`cache
      ensures (W(), r) == VerifyStep(old(W()), token, now, later)
      ensures CachedVerdict(old(W()), token, now).None? ==>
                forall i: nat :: TheRow(sessions, i, ByAccess, token) ==>
                  VerifyRight(old(W()), W(), r, i, token, now, later)
    {
      VerifyIff(W(), token, now, later);
      if token in cache && now <= cache[token].expires {
        var p := DecodePrincipal(cache[token].text);
        if p.Some? {
          return Ok(p.value);
        }
      }
      var found := FindRow(ByAccess, token);
      if found.None? || sessions[found.value].user !in users {
        return Err(Denied(NoSession));
      }
      var s := sessions[found.value];
      var u := users[s.user];
      if s.revokedAt.Some? {
        return Err(Denied(NoSession));
      }
      if now > s.accessExpires {
        return Err(Denied(SessionExpired));
      }
      if !u.active {
        return Err(NotActive);
      }
      var principal := Principal(s.user, s.device, s.id, u.role);
      var ttl := s.accessExpires - later;
      if ttl > SESSION_CACHE_TTL {
        ttl := SESSION_CACHE_TTL;
      }
      if ttl > 0 {
        cache := cache[token := Cached(Encode(principal), later + ttl)];
      }
      return Ok(principal);
    }

    method Login(req: LoginRequest, newDevice: string, g: Grant, now: int) returns (r: Result<nat, AuthError>)
      requires Valid()
      modifies this
      ensures Valid() && (W(), r) == LoginStep(old(W()), req, newDevice, g, now)
      ensures r.Ok? <==> old(MayLogIn(W(), req, now) && Unused(sessions, g) &&
                             (Recognised(W(), req) || newDevice !in devices))
      ensures r.Ok? ==> LoginRight(old(W()), W(), req, newDevice, g, now)
    {
      LoginIff(W(), req, newDevice, g, now);
      if req.phone !in phones || phones[req.phone] !in users {
        return Err(NoUser);
      }
      var user := phones[req.phone];
      var u := users[user];
      if !u.active {
        return Err(NotActive);
      }
      if u.lock.until.Some? && now < u.lock.until.value {
        return Err(PinLocked);
      }
      if req.pin != u.pin {
        var attempts, until := u.lock.attempts + 1, None;
        if attempts >= PinLock.MAX_PIN_ATTEMPTS {
          until := Some(now + PinLock.PIN_LOCKOUT);
          attempts := 0;
        }
        users := users[user := u.(lock := PinLock.Lock(attempts, until))];
        return Err(if until.Some? then PinLocked else WrongPin);
      }
      r := FinishLogin(user, req, newDevice, g, now);
    }

    /** The part of the login transaction after the PIN check. */
    method FinishLogin(user: string, req: LoginRequest, newDevice: string, g: Grant, now: int)
      returns (r: Result<nat, AuthError>)
      requires Valid() && user in users
      modifies this
      ensures Valid()
      ensures var admitted := Admit(WithLock(old(W()), user, PinLock.Lock(0, None)), user, req, newDevice, g, now);
              if admitted.Err? then W() == old(W()) && r == Err(admitted.error)
              else W() == admitted.value && r == Ok(|old(sessions)|)
    {
      if req.challengeId != "" {
        if req.challengeId !in challenges {
          return Err(Code(PinLock.NoChallenge));
        }
        var spent := PinLock.Consume(challenges[req.challengeId], now);
        if spent.Err? {
          return Err(Code(spent.error));
        }
      }
      var known := req.deviceId != "" && req.deviceId in devices && devices[req.deviceId] == Device(user, false);
      if (!known && newDevice in devices) || !FreshGrant(sessions, g) {
        return Err(Collision);
      }
      users := users[user := users[user].(lock := PinLock.Lock(0, None))];
      if req.challengeId != "" {
        challenges := challenges[req.challengeId := challenges[req.challengeId].(consumedAt := Some(now))];
      }
      var device := if known then req.deviceId else newDevice;
      devices := devices[device := Device(user, false)];
      AppendGrows(sessions, Issued(user, device, g, now));
      sessions := sessions + [Issued(user, device, g, now)];
      return Ok(|sessions| - 1);
    }

    method StartOTP(id: string, phone: string, code: string, now: int)
      requires id !in challenges
      modifies this`challenges
      ensures W() == StartCodeStep(old(W()), id, phone, code, now)
      ensures challenges == old(challenges)[id := PinLock.Challenge(phone, code, 0, 3, now + 5 * 60, None)]
    {
      challenges := challenges[id := PinLock.Challenge(phone, code, 0, OTP_MAX_ATTEMPTS, now + OTP_WINDOW, None)];
    }

    method VerifyOTP(challengeId: string, code: string, now: int) returns (r: Result<string, PinLock.CodeError>)
      modifies this`challenges
      ensures (W(), r) == TryCodeStep(old(W()), challengeId, code, now)
    {
      if challengeId !in challenges {
        return Err(PinLock.NoChallenge);
      }
      var c := challenges[challengeId];
      assert challenges == challenges[challengeId := c];
      if c.consumedAt.Some? {
        return Err(PinLock.Spent);
      }
      if now > c.expiresAt {
        return Err(PinLock.Stale);
      }
      if c.attempts >= c.maxAttempts {
        return Err(PinLock.TooManyAttempts);
      }
      if code != c.code {
        challenges := challenges[challengeId := c.(attempts := c.attempts + 1)];
        return Err(if c.attempts + 1 >= c.maxAttempts then PinLock.TooManyAttempts else PinLock.WrongCode);
      }
      return Ok(c.phone);
    }
  }
}
