/** Session rows and the families that token rotation builds.
    A row's number stands for its random id: rows are only appended, so a new row is always a fresh one. */
module Sessions {
  import opened Wrappers

  datatype Reason = Rotated | TokenReplayed | LoggedOut | DeviceRevoked

  datatype Session = Session(
    id: string, user: string, device: string, access: string, refresh: string,
    accessExpires: int, refreshExpires: int,
    rotatedTo: Option<nat>, revokedAt: Option<int>, reason: Option<Reason>)

  type Table = seq<Session>

  datatype Error = NoSession | SessionExpired | Replayed

  const ACCESS_TTL := 15 * 60
  const REFRESH_TTL := 30 * 24 * 3600

  /** The random parts of a new session. */
  datatype Grant = Grant(id: string, access: string, refresh: string)

  predicate Live(s: Session) { s.revokedAt.None? }

  function Issued(user: string, device: string, g: Grant, now: int): Session {
    Session(g.id, user, device, g.access, g.refresh, now + ACCESS_TTL, now + REFRESH_TTL, None, None, None)
  }

  function Revoke(s: Session, now: int, reason: Reason): Session {
    s.(revokedAt := Some(now), reason := Some(reason))
  }

  // Transitions.

  function ReplayMark(s: Session, now: int): Session {
    if s.reason == Some(TokenReplayed) then s else Revoke(s, now, TokenReplayed)
  }

  /** Where a row's chain continues. */
  function NextRow(t: Table, i: nat): Option<nat>
    requires i < |t|
  {
    if t[i].rotatedTo.Some? && i < t[i].rotatedTo.value < |t| then t[i].rotatedTo else None
  }

  /** Revoke a row and everything it was rotated into. */
  function ChainRevoked(t: Table, i: nat, now: int): (r: Table)
    requires i < |t|
    decreases |t| - i
  {
    var u := t[i := ReplayMark(t[i], now)];
    if NextRow(t, i).Some? then ChainRevoked(u, NextRow(t, i).value, now) else u
  }

  function Refreshed(t: Table, i: nat, g: Grant, now: int): (Table, Result<nat, Error>)
    requires i < |t|
  {
    if t[i].rotatedTo.Some? then (ChainRevoked(t, i, now), Err(Replayed))
    else if t[i].revokedAt.Some? then (t, Err(NoSession))
    else if now > t[i].refreshExpires then (t, Err(SessionExpired))
    else
      var retired := Revoke(t[i].(rotatedTo := Some(|t|)), now, Rotated);
      (t[i := retired] + [Issued(t[i].user, t[i].device, g, now)], Ok(|t|))
  }

  function LoggedOutRow(t: Table, i: nat, now: int): Table
    requires i < |t|
  {
    if Live(t[i]) then t[i := Revoke(t[i], now, LoggedOut)] else t
  }

  function DeviceRow(s: Session, device: string, now: int): Session {
    if s.device == device && Live(s) then Revoke(s, now, DeviceRevoked) else s
  }

  function DeviceRevokedRows(t: Table, device: string, now: int): (r: Table)
    ensures |r| == |t|
    ensures forall i :: 0 <= i < |t| ==> r[i] == DeviceRow(t[i], device, now)
  {
    if t == [] then [] else [DeviceRow(t[0], device, now)] + DeviceRevokedRows(t[1..], device, now)
  }

  /** Everything that writes session rows. */
  datatype Event =
    | Login(user: string, device: string, grant: Grant, now: int)
    | Refresh(row: nat, grant: Grant, now: int)
    | Logout(row: nat, now: int)
    | RevokeDevice(device: string, now: int)

  function After(t: Table, e: Event): Table {
    match e
    case Login(user, device, g, now) => t + [Issued(user, device, g, now)]
    case Refresh(i, g, now) => if i < |t| then Refreshed(t, i, g, now).0 else t
    case Logout(i, now) => if i < |t| then LoggedOutRow(t, i, now) else t
    case RevokeDevice(device, now) => DeviceRevokedRows(t, device, now)
  }

  function AfterAll(t: Table, events: seq<Event>): Table
    decreases |events|
  {
    if events == [] then t else AfterAll(After(t, events[0]), events[1..])
  }

  // Chains.

  /** Rotation only points forward, only retired rows are rotated, no row is the successor of two, and a
      reason is only given for a row that is revoked. */
  ghost predicate Linked(t: Table) {
    && (forall i :: 0 <= i < |t| && t[i].rotatedTo.Some? ==> i < t[i].rotatedTo.value < |t| && !Live(t[i]))
    && (forall i, j :: 0 <= i < j < |t| && t[i].rotatedTo.Some? ==> t[i].rotatedTo != t[j].rotatedTo)
    && (forall i :: 0 <= i < |t| && t[i].reason.Some? ==> !Live(t[i]))
  }

  function Chain(t: Table, i: nat): seq<nat>
    requires i < |t|
    decreases |t| - i
  {
    [i] + (if NextRow(t, i).Some? then Chain(t, NextRow(t, i).value) else [])
  }

  function Last(t: Table, i: nat): nat
    requires i < |t|
    decreases |t| - i
  {
    if NextRow(t, i).Some? then Last(t, NextRow(t, i).value) else i
  }

  lemma {:induction false} ChainForward(t: Table, i: nat)
    requires i < |t|
    ensures forall k <- Chain(t, i) :: i <= k < |t|
    decreases |t| - i
  {
    if NextRow(t, i).Some? {
      ChainForward(t, NextRow(t, i).value);
    }
  }

  /** In a table of rotations the chain continues exactly where the row was rotated to. */
  lemma NextIsRotation(t: Table, i: nat)
    requires Linked(t) && i < |t|
    ensures NextRow(t, i) == t[i].rotatedTo
  {
  }

  /** From row to row along `rotatedTo`, up to a row that was not rotated. */
  predicate Follows(t: Table, c: seq<nat>) {
    c != [] && c[0] < |t| &&
    if |c| == 1 then t[c[0]].rotatedTo.None? else t[c[0]].rotatedTo == Some(c[1]) && Follows(t, c[1..])
  }

  ghost predicate Ascending(c: seq<nat>) {
    forall a, b :: 0 <= a < b < |c| ==> c[a] < c[b]
  }

  lemma PrependFollows(t: Table, i: nat, rest: seq<nat>)
    requires i < |t| && rest != [] && t[i].rotatedTo == Some(rest[0]) && Follows(t, rest)
    ensures Follows(t, [i] + rest)
  {
    assert ([i] + rest)[1..] == rest;
  }

  lemma PrependAscends(i: nat, rest: seq<nat>)
    requires rest != [] && i < rest[0] && Ascending(rest)
    ensures Ascending([i] + rest)
  {
    var c := [i] + rest;
    forall a, b | 0 <= a < b < |c| ensures c[a] < c[b] {
      assert c[b] == rest[b - 1] >= rest[0];
    }
  }

  /** A chain follows `rotatedTo` from row to row until a row that was not rotated, and never meets itself. */
  lemma {:induction false} ChainIncreases(t: Table, i: nat)
    requires Linked(t) && i < |t|
    ensures Follows(t, Chain(t, i)) && Ascending(Chain(t, i))
    decreases |t| - i
  {
    NextIsRotation(t, i);
    if NextRow(t, i).Some? {
      var n := NextRow(t, i).value;
      ChainIncreases(t, n);
      PrependFollows(t, i, Chain(t, n));
      PrependAscends(i, Chain(t, n));
      assert Chain(t, i) == [i] + Chain(t, n);
    }
  }

  lemma MarkKeepsLinked(t: Table, i: nat, now: int)
    requires Linked(t) && i < |t|
    ensures Linked(t[i := ReplayMark(t[i], now)])
  {
  }

  /** A chain ends in `Last`, the only row without a successor, and only that row can be live. */
  lemma {:induction false} ChainIsPath(t: Table, i: nat)
    requires Linked(t) && i < |t|
    ensures forall k <- Chain(t, i) :: i <= k < |t|
    ensures Last(t, i) in Chain(t, i) && t[Last(t, i)].rotatedTo.None?
    ensures forall k <- Chain(t, i) :: k != Last(t, i) ==> t[k].rotatedTo.Some? && !Live(t[k])
    decreases |t| - i
  {
    if NextRow(t, i).Some? {
      ChainIsPath(t, NextRow(t, i).value);
    }
  }

  /** Chains through a common row end in the same row. */
  lemma {:induction false} SameEnd(t: Table, i: nat, k: nat)
    requires Linked(t) && i < |t| && k in Chain(t, i)
    ensures k < |t| && Last(t, k) == Last(t, i)
    ensures forall m <- Chain(t, k) :: m in Chain(t, i)
    decreases |t| - i
  {
    ChainIsPath(t, i);
    if k != i {
      SameEnd(t, NextRow(t, i).value, k);
    }
  }

  // Families.

  /** No row was rotated into this one: it came from a login. */
  ghost predicate IsRoot(t: Table, r: nat) {
    r < |t| && forall k :: 0 <= k < |t| ==> t[k].rotatedTo != Some(r)
  }

  ghost function RootOf(t: Table, x: nat): (r: nat)
    requires Linked(t) && x < |t|
    ensures r <= x
    decreases x
  {
    if y :| 0 <= y < |t| && t[y].rotatedTo == Some(x) then RootOf(t, y) else x
  }

  /** Every session belongs to the chain of its root. */
  lemma {:induction false} RootReaches(t: Table, x: nat)
    requires Linked(t) && x < |t|
    ensures IsRoot(t, RootOf(t, x)) && x in Chain(t, RootOf(t, x))
    decreases x
  {
    if y :| 0 <= y < |t| && t[y].rotatedTo == Some(x) {
      assert forall z :: 0 <= z < |t| && t[z].rotatedTo == Some(x) ==> z == y;
      RootReaches(t, y);
      SameEnd(t, RootOf(t, y), y);
      assert x in Chain(t, y);
    }
  }

  /** ... and to no other: families are disjoint. */
  lemma {:induction false} RootIsUnique(t: Table, r: nat, x: nat)
    requires Linked(t) && IsRoot(t, r) && x in Chain(t, r)
    ensures x < |t| && RootOf(t, x) == r
    decreases x
  {
    ChainIsPath(t, r);
    if x != r {
      var y := Predecessor(t, r, x);
      assert forall z :: 0 <= z < |t| && t[z].rotatedTo == Some(x) ==> z == y;
      RootIsUnique(t, r, y);
    }
  }

  lemma {:induction false} Predecessor(t: Table, i: nat, x: nat) returns (y: nat)
    requires Linked(t) && i < |t| && x in Chain(t, i) && x != i
    ensures y in Chain(t, i) && y < x && y < |t| && t[y].rotatedTo == Some(x)
    decreases |t| - i
  {
    var n := NextRow(t, i).value;
    if n == x {
      y := i;
    } else {
      y := Predecessor(t, n, x);
    }
  }

  /** At most one session of a family is live. */
  lemma AtMostOneLive(t: Table, x: nat, y: nat)
    requires Linked(t) && x < |t| && y < |t| && RootOf(t, x) == RootOf(t, y)
    requires Live(t[x]) && Live(t[y])
    ensures x == y
  {
    RootReaches(t, x);
    RootReaches(t, y);
    ChainIsPath(t, RootOf(t, x));
  }

  // Runs.

  /** What no event ever does: revive a revoked row, redirect one, or rotate anything into an old row. */
  ghost predicate Grows(t: Table, u: Table) {
    && |t| <= |u|
    && (forall i :: 0 <= i < |t| && !Live(t[i]) ==> !Live(u[i]) && u[i].rotatedTo == t[i].rotatedTo)
    && (forall i :: 0 <= i < |u| && u[i].rotatedTo.Some? ==>
                      (i < |t| && u[i].rotatedTo == t[i].rotatedTo) || u[i].rotatedTo.value >= |t|)
  }

  /** Revoking a chain marks exactly its rows and changes nothing else. */
  lemma {:induction false} ChainRevokedEffect(t: Table, i: nat, now: int)
    requires i < |t|
    ensures |ChainRevoked(t, i, now)| == |t|
    ensures forall k :: 0 <= k < |t| ==>
              ChainRevoked(t, i, now)[k] ==
                if k !in Chain(t, i) || t[k].reason == Some(TokenReplayed) then t[k]
                else t[k].(revokedAt := Some(now), reason := Some(TokenReplayed))
    decreases |t| - i
  {
    if NextRow(t, i).Some? {
      var u, n := t[i := ReplayMark(t[i], now)], NextRow(t, i).value;
      SameChain(t, u, n);
      ChainForward(t, n);
      ChainRevokedEffect(u, n, now);
    }
  }

  /** A chain depends only on where its own rows point. */
  lemma {:induction false} SameChain(t: Table, u: Table, i: nat)
    requires i < |t| <= |u|
    requires forall k :: i <= k < |t| ==> NextRow(u, k) == NextRow(t, k)
    ensures Chain(u, i) == Chain(t, i)
    decreases |t| - i
  {
    if NextRow(t, i).Some? {
      SameChain(t, u, NextRow(t, i).value);
    }
  }

  lemma AppendGrows(t: Table, s: Session)
    requires Linked(t) && Live(s) && s.rotatedTo.None? && s.reason.None?
    ensures Linked(t + [s]) && Grows(t, t + [s])
  {
  }

  lemma RotateGrows(t: Table, i: nat, s: Session, now: int)
    requires Linked(t) && i < |t| && t[i].rotatedTo.None? && Live(s) && s.rotatedTo.None? && s.reason.None?
    ensures var u := t[i := Revoke(t[i].(rotatedTo := Some(|t|)), now, Rotated)] + [s];
            Linked(u) && (Live(t[i]) ==> Grows(t, u))
  {
  }

  /** Changes that only revoke. */
  lemma RevokingGrows(t: Table, u: Table)
    requires Linked(t) && |u| == |t|
    requires forall i :: 0 <= i < |t| ==> u[i].rotatedTo == t[i].rotatedTo && (Live(u[i]) ==> u[i] == t[i])
    ensures Linked(u) && Grows(t, u)
  {
  }

  lemma RefreshGrows(t: Table, i: nat, g: Grant, now: int)
    requires Linked(t) && i < |t|
    ensures Linked(Refreshed(t, i, g, now).0) && Grows(t, Refreshed(t, i, g, now).0)
  {
    if t[i].rotatedTo.Some? {
      ChainRevokedEffect(t, i, now);
      RevokingGrows(t, ChainRevoked(t, i, now));
    } else {
      RotateGrows(t, i, Issued(t[i].user, t[i].device, g, now), now);
    }
  }

  lemma EventGrows(t: Table, e: Event)
    requires Linked(t)
    ensures Linked(After(t, e)) && Grows(t, After(t, e))
  {
    match e
    case Login(user, device, g, now) => AppendGrows(t, Issued(user, device, g, now));
    case Refresh(i, g, now) => if i < |t| { RefreshGrows(t, i, g, now); }
    case Logout(_, _) => RevokingGrows(t, After(t, e));
    case RevokeDevice(_, _) => RevokingGrows(t, After(t, e));
  }

  /** A family in which every session is revoked. */
  ghost predicate Dead(t: Table, r: nat) {
    IsRoot(t, r) && forall k <- Chain(t, r) :: k < |t| && !Live(t[k])
  }

  /** In a dead family nothing changes again: no session revives and none joins. */
  lemma DeadStaysDead(t: Table, u: Table, r: nat)
    requires Linked(t) && Linked(u) && Grows(t, u) && Dead(t, r)
    ensures Dead(u, r) && Chain(u, r) == Chain(t, r)
  {
    SameChainOf(t, u, r);
  }

  lemma {:induction false} SameChainOf(t: Table, u: Table, i: nat)
    requires Linked(t) && Linked(u) && i < |t| <= |u|
    requires forall k <- Chain(t, i) :: k < |t| && u[k].rotatedTo == t[k].rotatedTo
    ensures Chain(u, i) == Chain(t, i)
    decreases |t| - i
  {
    assert i in Chain(t, i);
    NextIsRotation(t, i);
    NextIsRotation(u, i);
    if NextRow(t, i).Some? {
      var n := NextRow(t, i).value;
      assert Chain(t, i) == [i] + Chain(t, n);
      forall k | k in Chain(t, n) ensures k < |t| && u[k].rotatedTo == t[k].rotatedTo {
        assert k in Chain(t, i);
      }
      SameChainOf(t, u, n);
    }
  }

  lemma {:induction false} DeadForever(t: Table, r: nat, events: seq<Event>)
    requires Linked(t) && Dead(t, r)
    ensures Linked(AfterAll(t, events)) && Dead(AfterAll(t, events), r)
    ensures Chain(AfterAll(t, events), r) == Chain(t, r)
    decreases |events|
  {
    if events != [] {
      EventGrows(t, events[0]);
      DeadStaysDead(t, After(t, events[0]), r);
      DeadForever(After(t, events[0]), r, events[1..]);
    }
  }

  /** Revoking from the middle of a chain reaches its only possibly live row. */
  lemma ReplayReachesAll(t: Table, r: nat, i: nat, now: int, k: nat)
    requires Linked(t) && r < |t| && i in Chain(t, r) && i < |t| && k in Chain(t, r)
    ensures k < |t| && |ChainRevoked(t, i, now)| == |t| && !Live(ChainRevoked(t, i, now)[k])
  {
    ChainIsPath(t, r);
    SameEnd(t, r, i);
    ChainIsPath(t, i);
    ChainRevokedEffect(t, i, now);
  }

  /** Revoking a chain redirects nothing, so every chain and every root is as it was. */
  lemma RevokingKeepsChains(t: Table, i: nat, now: int, r: nat)
    requires i < |t| && r < |t|
    ensures |ChainRevoked(t, i, now)| == |t|
    ensures Chain(ChainRevoked(t, i, now), r) == Chain(t, r)
    ensures IsRoot(t, r) ==> IsRoot(ChainRevoked(t, i, now), r)
  {
    ChainRevokedEffect(t, i, now);
    SameChain(t, ChainRevoked(t, i, now), r);
  }

  /** A rotated token presented again revokes the whole family, before and after the row it belongs to. */
  lemma ReplayKillsFamily(t: Table, i: nat, g: Grant, now: int)
    requires Linked(t) && i < |t| && t[i].rotatedTo.Some?
    ensures Refreshed(t, i, g, now).1 == Err(Replayed)
    ensures var u := Refreshed(t, i, g, now).0;
            Dead(u, RootOf(t, i)) && Chain(u, RootOf(t, i)) == Chain(t, RootOf(t, i))
  {
    var r, u := RootOf(t, i), ChainRevoked(t, i, now);
    RootReaches(t, i);
    RevokingKeepsChains(t, i, now, r);
    forall k | k in Chain(t, r) ensures k < |u| && !Live(u[k]) {
      ReplayReachesAll(t, r, i, now, k);
    }
  }

  /** ... and for good: in every continuation the family is the same chain of revoked sessions. */
  lemma ReplayIsFinal(t: Table, i: nat, g: Grant, now: int, events: seq<Event>)
    requires Linked(t) && i < |t| && t[i].rotatedTo.Some?
    ensures var u := AfterAll(Refreshed(t, i, g, now).0, events);
            var r := RootOf(t, i);
            && Linked(u) && Dead(u, r) && Chain(u, r) == Chain(t, r)
            && (forall x :: 0 <= x < |u| && RootOf(u, x) == r ==> x in Chain(t, r) && !Live(u[x]))
  {
    var r := RootOf(t, i);
    RefreshGrows(t, i, g, now);
    ReplayKillsFamily(t, i, g, now);
    DeadForever(Refreshed(t, i, g, now).0, r, events);
    var u := AfterAll(Refreshed(t, i, g, now).0, events);
    forall x | 0 <= x < |u| && RootOf(u, x) == r ensures x in Chain(t, r) && !Live(u[x]) {
      RootReaches(u, x);
    }
  }

  // Who may rotate, and into what.

  /** A session can be rotated: it was not rotated before, is not revoked, and its refresh token is not past its
      time. */
  predicate Rotatable(s: Session, now: int) {
    s.rotatedTo.None? && s.revokedAt.None? && now <= s.refreshExpires
  }

  /** The successor is the same user's on the same device, with new names and times of its own. */
  predicate IssuedFor(n: Session, user: string, device: string, g: Grant, now: int) {
    && n.user == user && n.device == device && n.id == g.id && n.access == g.access && n.refresh == g.refresh
    && n.accessExpires == now + ACCESS_TTL && n.refreshExpires == now + REFRESH_TTL
    && n.rotatedTo.None? && n.revokedAt.None? && n.reason.None?
  }

  function IssuedAt(s: Session): int { s.refreshExpires - REFRESH_TTL }

  /** Row `n` continues session `s`: the same user on the same device, issued before the refresh token ran out. */
  predicate Continues(s: Session, n: Session) {
    n.user == s.user && n.device == s.device && IssuedAt(n) <= s.refreshExpires
  }

  ghost predicate Descends(t: Table) {
    forall i :: 0 <= i < |t| && t[i].rotatedTo.Some? ==>
      t[i].rotatedTo.value < |t| && Continues(t[i], t[t[i].rotatedTo.value])
  }

  /** Rows may be revoked, no more. */
  ghost predicate OnlyRevokes(t: Table, u: Table) {
    |u| == |t| && forall i :: 0 <= i < |t| ==> u[i] == t[i].(revokedAt := u[i].revokedAt, reason := u[i].reason)
  }

  lemma RevokingKeepsDescent(t: Table, u: Table)
    requires Descends(t) && OnlyRevokes(t, u)
    ensures Descends(u)
  {
  }

  lemma RotationKeepsDescent(t: Table, i: nat, g: Grant, now: int)
    requires Linked(t) && Descends(t) && i < |t| && t[i].rotatedTo.None?
    ensures Descends(Refreshed(t, i, g, now).0)
  {
  }

  lemma EventKeepsDescent(t: Table, e: Event)
    requires Linked(t) && Descends(t)
    ensures Descends(After(t, e))
  {
    match e
    case Refresh(i, g, now) =>
      if i < |t| {
        if t[i].rotatedTo.Some? {
          ChainRevokedEffect(t, i, now);
          RevokingKeepsDescent(t, ChainRevoked(t, i, now));
        } else {
          RotationKeepsDescent(t, i, g, now);
        }
      }
    case Login(_, _, _, _) =>
    case Logout(_, _) => RevokingKeepsDescent(t, After(t, e));
    case RevokeDevice(_, _) => RevokingKeepsDescent(t, After(t, e));
  }

  /** In every run a rotation leads to a session of the same user on the same device, issued no later than the refresh
      token that was presented for it was valid. */
  lemma {:induction false} RunsDescend(t: Table, events: seq<Event>)
    requires Linked(t) && Descends(t)
    ensures Linked(AfterAll(t, events)) && Descends(AfterAll(t, events))
    decreases |events|
  {
    if events != [] {
      EventGrows(t, events[0]);
      EventKeepsDescent(t, events[0]);
      RunsDescend(After(t, events[0]), events[1..]);
    }
  }

  /** From an empty table every run keeps the rows linked. */
  lemma {:induction false} RunsStayLinked(t: Table, events: seq<Event>)
    requires Linked(t)
    ensures Linked(AfterAll(t, events))
    decreases |events|
  {
    if events != [] {
      EventGrows(t, events[0]);
      RunsStayLinked(After(t, events[0]), events[1..]);
    }
  }
}
