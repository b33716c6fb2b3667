/** The transactional outbox: several relays publish its rows to a broker, any of them may crash at any point, and a
    publish may fail after part of the batch has arrived.

    A row's id is its index. Rows of one key are assumed to become visible in id order, and the claim to be atomic. */
module Outbox {
  import opened Wrappers

  datatype Message = Message(topic: string, key: string, eventType: string, payload: string)

  /** `Pruned` rows are gone from the table; the model keeps them to say what happened to them. */
  datatype Status = Pending | Published(at: int) | Pruned(at: int)

  datatype Row = Row(message: Message, status: Status, attempts: nat, lastError: Option<string>)

  /** The claim transaction of one relay. `locks` are advisory lock numbers, `sent` what the broker has of the batch. */
  datatype Phase =
    | Idle
    | Sending(locks: set<int>, batch: seq<nat>, sent: set<nat>)
    | Acked(locks: set<int>, batch: seq<nat>)
    | Refused(locks: set<int>, batch: seq<nat>)

  /** `hash` is the database's text hash, `log` the broker's records by row id. */
  datatype State = State(hash: string -> int, rows: seq<Row>, log: seq<nat>, relays: seq<Phase>, now: int)

  predicate Marked(row: Row) { !row.status.Pending? }

  predicate SameKey(rows: seq<Row>, i: nat, j: nat)
    requires i < |rows| && j < |rows|
  {
    rows[i].message.key == rows[j].message.key
  }

  // Writing.

  predicate Accepts(m: Message) { m.key != "" && m.topic != "" && m.eventType != "" }

  function NewRow(m: Message): Row { Row(m, Pending, 0, None) }

  function NewRows(msgs: seq<Message>): seq<Row> {
    seq(|msgs|, i requires 0 <= i < |msgs| => NewRow(msgs[i]))
  }

  ghost predicate AllAccepted(msgs: seq<Message>) {
    forall i :: 0 <= i < |msgs| ==> Accepts(msgs[i])
  }

  // Claiming.

  predicate Claimable(hash: string -> int, rows: seq<Row>, locks: set<int>, j: nat)
    requires j < |rows|
  {
    rows[j].status.Pending? && hash(rows[j].message.key) in locks
  }

  /** The first `n` rows from `from` on that are unpublished and whose lock the relay obtained. */
  function Claimed(hash: string -> int, rows: seq<Row>, locks: set<int>, n: nat, from: nat): seq<nat>
    decreases |rows| - from
  {
    if n == 0 || from >= |rows| then []
    else if Claimable(hash, rows, locks, from) then [from] + Claimed(hash, rows, locks, n - 1, from + 1)
    else Claimed(hash, rows, locks, n, from + 1)
  }

  ghost predicate Increasing(ids: seq<nat>) {
    forall a, b :: 0 <= a < b < |ids| ==> ids[a] < ids[b]
  }

  lemma {:induction false} ClaimedAreClaimable(hash: string -> int, rows: seq<Row>, locks: set<int>, n: nat, from: nat)
    ensures var c := Claimed(hash, rows, locks, n, from);
            |c| <= n && forall j :: j in c ==> from <= j < |rows| && Claimable(hash, rows, locks, j)
    decreases |rows| - from
  {
    if n > 0 && from < |rows| {
      if Claimable(hash, rows, locks, from) {
        ClaimedAreClaimable(hash, rows, locks, n - 1, from + 1);
      } else {
        ClaimedAreClaimable(hash, rows, locks, n, from + 1);
      }
    }
  }

  lemma PrependKeepsIncreasing(id: nat, ids: seq<nat>)
    requires Increasing(ids) && forall j :: j in ids ==> id < j
    ensures Increasing([id] + ids)
  {
    var all := [id] + ids;
    forall a, b | 0 <= a < b < |all| ensures all[a] < all[b] {
      assert all[b] == ids[b - 1] && ids[b - 1] in ids;
    }
  }

  lemma {:induction false} ClaimedInIdOrder(hash: string -> int, rows: seq<Row>, locks: set<int>, n: nat, from: nat)
    ensures Increasing(Claimed(hash, rows, locks, n, from))
    decreases |rows| - from
  {
    if n > 0 && from < |rows| {
      if Claimable(hash, rows, locks, from) {
        ClaimedInIdOrder(hash, rows, locks, n - 1, from + 1);
        ClaimedAreClaimable(hash, rows, locks, n - 1, from + 1);
        PrependKeepsIncreasing(from, Claimed(hash, rows, locks, n - 1, from + 1));
      } else {
        ClaimedInIdOrder(hash, rows, locks, n, from + 1);
      }
    }
  }

  /** Nothing claimable is skipped: whatever is left out comes after everything taken, and the batch is then full. */
  lemma {:induction false} ClaimSkipsNothing(hash: string -> int, rows: seq<Row>, locks: set<int>, n: nat, from: nat,
                                             i: nat)
    requires from <= i < |rows| && Claimable(hash, rows, locks, i)
    ensures var c := Claimed(hash, rows, locks, n, from);
            i in c || (|c| == n && forall j :: j in c ==> j < i)
    decreases |rows| - from
  {
    if n > 0 {
      var m := if Claimable(hash, rows, locks, from) then n - 1 else n;
      if from < i {
        ClaimSkipsNothing(hash, rows, locks, m, from + 1, i);
      }
    }
  }

  // The steps.

  datatype Step =
    | Write(msgs: seq<Message>)
    | Claim(r: nat, locks: set<int>, n: nat)
    | Send(r: nat, j: nat)
    | Acknowledge(r: nat)
    | Refuse(r: nat)
    | MarkPublished(r: nat)
    | MarkFailed(r: nat, cause: string)
    | Crash(r: nat)
    | Prune(olderThan: int)
    | Tick(d: nat)

  function Locks(p: Phase): set<int> { if p.Idle? then {} else p.locks }

  /** An advisory lock is held by at most one transaction. */
  predicate Free(relays: seq<Phase>, locks: set<int>) {
    forall o :: 0 <= o < |relays| ==> Locks(relays[o]) !! locks
  }

  /** The broker keeps the order in which records of one key were handed to it, and one publish hands each over once. */
  predicate MaySend(rows: seq<Row>, p: Phase, j: nat) {
    && p.Sending? && j in p.batch && j !in p.sent && j < |rows|
    && forall i :: i in p.batch && i < j && SameKey(rows, i, j) ==> i in p.sent
  }

  function MarkedPublished(rows: seq<Row>, ids: seq<nat>, now: int): seq<Row> {
    seq(|rows|, i requires 0 <= i < |rows| =>
      if i in ids
      then rows[i].(status := Published(now), attempts := rows[i].attempts + 1, lastError := None)
      else rows[i])
  }

  function MarkedFailed(rows: seq<Row>, ids: seq<nat>, cause: string): seq<Row> {
    seq(|rows|, i requires 0 <= i < |rows| =>
      if i in ids then rows[i].(attempts := rows[i].attempts + 1, lastError := Some(cause)) else rows[i])
  }

  function AfterPrune(rows: seq<Row>, before: int): seq<Row> {
    seq(|rows|, i requires 0 <= i < |rows| =>
      match rows[i].status
      case Published(at) => if at < before then rows[i].(status := Pruned(at)) else rows[i]
      case _ => rows[i])
  }

  function With(s: State, r: nat, p: Phase): State
    requires r < |s.relays|
  {
    s.(relays := s.relays[r := p])
  }

  function NextClaim(s: State, r: nat, locks: set<int>, n: nat): State
    requires r < |s.relays|
  {
    if !s.relays[r].Idle? || !Free(s.relays, locks) then s
    else
      var batch := Claimed(s.hash, s.rows, locks, n, 0);
      if batch == [] then s else With(s, r, Sending(locks, batch, {}))
  }

  function NextSend(s: State, r: nat, j: nat): State
    requires r < |s.relays|
  {
    var p := s.relays[r];
    if MaySend(s.rows, p, j) then With(s, r, p.(sent := p.sent + {j})).(log := s.log + [j]) else s
  }

  function NextAcknowledge(s: State, r: nat): State
    requires r < |s.relays|
  {
    var p := s.relays[r];
    if p.Sending? && (forall j :: j in p.batch ==> j in p.sent) then With(s, r, Acked(p.locks, p.batch)) else s
  }

  function NextRefuse(s: State, r: nat): State
    requires r < |s.relays|
  {
    var p := s.relays[r];
    if p.Sending? then With(s, r, Refused(p.locks, p.batch)) else s
  }

  function NextMarkPublished(s: State, r: nat): State
    requires r < |s.relays|
  {
    var p := s.relays[r];
    if p.Acked? then With(s, r, Idle).(rows := MarkedPublished(s.rows, p.batch, s.now)) else s
  }

  function NextMarkFailed(s: State, r: nat, cause: string): State
    requires r < |s.relays|
  {
    var p := s.relays[r];
    if p.Refused? then With(s, r, Idle).(rows := MarkedFailed(s.rows, p.batch, cause)) else s
  }

  /** A crash rolls the claim transaction back and frees its locks; what the broker already has stays there. */
  ghost function Next(s: State, step: Step): State {
    match step
    case Write(msgs) => if AllAccepted(msgs) then s.(rows := s.rows + NewRows(msgs)) else s
    case Claim(r, locks, n) => if r < |s.relays| then NextClaim(s, r, locks, n) else s
    case Send(r, j) => if r < |s.relays| then NextSend(s, r, j) else s
    case Acknowledge(r) => if r < |s.relays| then NextAcknowledge(s, r) else s
    case Refuse(r) => if r < |s.relays| then NextRefuse(s, r) else s
    case MarkPublished(r) => if r < |s.relays| then NextMarkPublished(s, r) else s
    case MarkFailed(r, cause) => if r < |s.relays| then NextMarkFailed(s, r, cause) else s
    case Crash(r) => if r < |s.relays| then With(s, r, Idle) else s
    case Prune(olderThan) => s.(rows := AfterPrune(s.rows, s.now - olderThan))
    case Tick(d) => s.(now := s.now + d)
  }

  ghost function Run(s: State, steps: seq<Step>): State
    decreases |steps|
  {
    if steps == [] then s else Run(Next(s, steps[0]), steps[1..])
  }

  function Start(hash: string -> int, relays: nat, now: int): State {
    State(hash, [], [], seq(relays, _ => Idle), now)
  }

  // Invariants.

  /** The marked rows of every key form a prefix of that key's rows. */
  ghost predicate MarkedArePrefix(rows: seq<Row>) {
    forall i, j :: 0 <= i < j < |rows| && SameKey(rows, i, j) && Marked(rows[j]) ==> Marked(rows[i])
  }

  /** Every marked row is in the broker's log. */
  ghost predicate MarkedAreSent(rows: seq<Row>, log: seq<nat>) {
    forall j :: 0 <= j < |rows| && Marked(rows[j]) ==> j in log
  }

  /** Whenever a row appears in the log, every earlier row of its key has appeared before. */
  ghost predicate InOrder(rows: seq<Row>, log: seq<nat>) {
    && (forall p :: 0 <= p < |log| ==> log[p] < |rows|)
    && (forall p, i :: 0 <= p < |log| && 0 <= i < log[p] && SameKey(rows, i, log[p]) ==> i in log[..p])
  }

  ghost predicate HoldsOnly(hash: string -> int, rows: seq<Row>, locks: set<int>, batch: seq<nat>) {
    forall j :: j in batch ==> j < |rows| && Claimable(hash, rows, locks, j)
  }

  ghost predicate LeavesNoGap(rows: seq<Row>, batch: seq<nat>) {
    forall i, j :: j in batch && 0 <= i < j < |rows| && SameKey(rows, i, j) && rows[i].status.Pending? ==> i in batch
  }

  ghost predicate Broker(p: Phase, log: seq<nat>) {
    && (p.Sending? ==> forall j :: j in p.sent ==> j in log)
    && (p.Acked? ==> forall j :: j in p.batch ==> j in log)
  }

  ghost predicate Claims(hash: string -> int, rows: seq<Row>, p: Phase) {
    !p.Idle? ==> HoldsOnly(hash, rows, p.locks, p.batch) && LeavesNoGap(rows, p.batch)
  }

  ghost predicate Exclusive(relays: seq<Phase>) {
    forall a, b :: 0 <= a < b < |relays| ==> Locks(relays[a]) !! Locks(relays[b])
  }

  ghost predicate Relays(s: State) {
    forall r :: 0 <= r < |s.relays| ==> Claims(s.hash, s.rows, s.relays[r]) && Broker(s.relays[r], s.log)
  }

  ghost predicate Safe(s: State) {
    MarkedArePrefix(s.rows) && MarkedAreSent(s.rows, s.log) && InOrder(s.rows, s.log) &&
    Exclusive(s.relays) && Relays(s)
  }

  // Each step keeps them.

  lemma ClaimIsClean(hash: string -> int, rows: seq<Row>, locks: set<int>, n: nat)
    ensures var batch := Claimed(hash, rows, locks, n, 0);
            HoldsOnly(hash, rows, locks, batch) && LeavesNoGap(rows, batch)
  {
    var batch := Claimed(hash, rows, locks, n, 0);
    ClaimedAreClaimable(hash, rows, locks, n, 0);
    forall i, j | j in batch && 0 <= i < j < |rows| && SameKey(rows, i, j) && rows[i].status.Pending?
      ensures i in batch
    {
      assert Claimable(hash, rows, locks, j);
      ClaimSkipsNothing(hash, rows, locks, n, 0, i);
    }
  }

  lemma ExclusiveAfter(relays: seq<Phase>, r: nat, p: Phase)
    requires Exclusive(relays) && r < |relays|
    requires Locks(p) == {} || Locks(p) == Locks(relays[r]) || (Locks(relays[r]) == {} && Free(relays, Locks(p)))
    ensures Exclusive(relays[r := p])
  {
  }

  lemma ClaimKeepsSafe(s: State, r: nat, locks: set<int>, n: nat)
    requires Safe(s) && r < |s.relays|
    ensures Safe(NextClaim(s, r, locks, n))
  {
    var batch := Claimed(s.hash, s.rows, locks, n, 0);
    if s.relays[r].Idle? && Free(s.relays, locks) && batch != [] {
      ClaimIsClean(s.hash, s.rows, locks, n);
      ExclusiveAfter(s.relays, r, Sending(locks, batch, {}));
    }
  }

  lemma LogGrowsInOrder(rows: seq<Row>, log: seq<nat>, j: nat)
    requires InOrder(rows, log) && j < |rows|
    requires forall i :: 0 <= i < j && SameKey(rows, i, j) ==> i in log
    ensures InOrder(rows, log + [j])
  {
    var longer := log + [j];
    forall p, i | 0 <= p < |longer| && 0 <= i < longer[p] && SameKey(rows, i, longer[p]) ensures i in longer[..p] {
      if p < |log| {
        assert longer[..p] == log[..p];
      } else {
        assert longer[..p] == log;
      }
    }
  }

  lemma SendIsInOrder(s: State, r: nat, j: nat)
    requires MarkedAreSent(s.rows, s.log) && r < |s.relays| && MaySend(s.rows, s.relays[r], j)
    requires Claims(s.hash, s.rows, s.relays[r]) && Broker(s.relays[r], s.log)
    ensures forall i :: 0 <= i < j && SameKey(s.rows, i, j) ==> i in s.log
  {
    var p := s.relays[r];
    forall i | 0 <= i < j && SameKey(s.rows, i, j) ensures i in s.log {
      if s.rows[i].status.Pending? {
        assert i in p.batch;
        assert i in p.sent;
      }
    }
  }

  lemma SendKeepsSafe(s: State, r: nat, j: nat)
    requires Safe(s) && r < |s.relays|
    ensures Safe(NextSend(s, r, j))
  {
    var p := s.relays[r];
    if MaySend(s.rows, p, j) {
      SendIsInOrder(s, r, j);
      LogGrowsInOrder(s.rows, s.log, j);
      ExclusiveAfter(s.relays, r, p.(sent := p.sent + {j}));
      assert j in s.log + [j];
    }
  }

  lemma PhaseKeepsSafe(s: State, r: nat, p: Phase)
    requires Safe(s) && r < |s.relays| && (p.Idle? || Locks(p) == Locks(s.relays[r]))
    requires Claims(s.hash, s.rows, p) && Broker(p, s.log)
    ensures Safe(With(s, r, p))
  {
    ExclusiveAfter(s.relays, r, p);
  }

  lemma PublishedStayPrefix(rows: seq<Row>, ids: seq<nat>, now: int)
    requires MarkedArePrefix(rows) && LeavesNoGap(rows, ids)
    ensures MarkedArePrefix(MarkedPublished(rows, ids, now))
  {
    var t := MarkedPublished(rows, ids, now);
    forall i, j | 0 <= i < j < |t| && SameKey(t, i, j) && Marked(t[j]) ensures Marked(t[i]) {
      assert SameKey(rows, i, j);
      if !Marked(rows[i]) {
        assert j in ids;
      }
    }
  }

  /** Another relay's batch is disjoint from the marked one, because it hangs on other locks. */
  lemma OthersKeepTheirClaims(hash: string -> int, rows: seq<Row>, mine: Phase, other: Phase, now: int)
    requires !mine.Idle? && Claims(hash, rows, mine) && Claims(hash, rows, other) && Locks(mine) !! Locks(other)
    ensures Claims(hash, MarkedPublished(rows, mine.batch, now), other)
  {
    var t := MarkedPublished(rows, mine.batch, now);
    if !other.Idle? {
      forall j | j in mine.batch ensures j < |rows| && hash(rows[j].message.key) in Locks(mine) {
        assert Claimable(hash, rows, mine.locks, j);
      }
      forall j | j in other.batch ensures j < |t| && Claimable(hash, t, other.locks, j) {
        assert Claimable(hash, rows, other.locks, j);
        assert hash(rows[j].message.key) in Locks(other);
      }
      forall i, j | j in other.batch && 0 <= i < j < |t| && SameKey(t, i, j) && t[i].status.Pending?
        ensures i in other.batch
      {
        assert SameKey(rows, i, j) && rows[i].status.Pending?;
      }
    }
  }

  lemma MarkPublishedKeepsRelays(s: State, r: nat)
    requires Exclusive(s.relays) && Relays(s) && r < |s.relays| && s.relays[r].Acked?
    ensures Relays(NextMarkPublished(s, r))
  {
    var p := s.relays[r];
    var t := NextMarkPublished(s, r);
    forall o | 0 <= o < |t.relays| ensures Claims(t.hash, t.rows, t.relays[o]) && Broker(t.relays[o], t.log) {
      if o != r {
        assert Locks(s.relays[r]) !! Locks(s.relays[o]);
        OthersKeepTheirClaims(s.hash, s.rows, p, s.relays[o], s.now);
      }
    }
  }

  lemma MarkPublishedKeepsSafe(s: State, r: nat)
    requires Safe(s) && r < |s.relays|
    ensures Safe(NextMarkPublished(s, r))
  {
    var p := s.relays[r];
    if p.Acked? {
      MarkPublishedKeepsRelays(s, r);
      PublishedStayPrefix(s.rows, p.batch, s.now);
      ExclusiveAfter(s.relays, r, Idle);
      SameKeysSameOrder(s.rows, MarkedPublished(s.rows, p.batch, s.now), s.log);
    }
  }

  lemma SameKeysSameOrder(rows: seq<Row>, t: seq<Row>, log: seq<nat>)
    requires InOrder(rows, log) && |rows| <= |t| && forall i :: 0 <= i < |rows| ==> t[i].message == rows[i].message
    ensures InOrder(t, log)
  {
    forall p, i | 0 <= p < |log| && 0 <= i < log[p] && SameKey(t, i, log[p]) ensures i in log[..p] {
      assert SameKey(rows, i, log[p]);
    }
  }

  /** An update that marks nothing new and unmarks nothing: a failed sweep, a prune. */
  ghost predicate SameMarks(rows: seq<Row>, t: seq<Row>) {
    |t| == |rows| && forall i :: 0 <= i < |rows| ==> t[i].message == rows[i].message && Marked(t[i]) == Marked(rows[i])
  }

  lemma SameMarksKeepClaims(hash: string -> int, rows: seq<Row>, t: seq<Row>, p: Phase)
    requires SameMarks(rows, t) && Claims(hash, rows, p)
    ensures Claims(hash, t, p)
  {
    if !p.Idle? {
      forall j | j in p.batch ensures j < |t| && Claimable(hash, t, p.locks, j) {
        assert Claimable(hash, rows, p.locks, j);
      }
      forall i, j | j in p.batch && 0 <= i < j < |t| && SameKey(t, i, j) && t[i].status.Pending? ensures i in p.batch {
        assert SameKey(rows, i, j) && rows[i].status.Pending?;
      }
    }
  }

  lemma SameMarksKeepSafe(s: State, t: seq<Row>)
    requires Safe(s) && SameMarks(s.rows, t)
    ensures Safe(s.(rows := t))
  {
    SameKeysSameOrder(s.rows, t, s.log);
    forall r | 0 <= r < |s.relays| ensures Claims(s.hash, t, s.relays[r]) && Broker(s.relays[r], s.log) {
      SameMarksKeepClaims(s.hash, s.rows, t, s.relays[r]);
    }
    forall i, j | 0 <= i < j < |t| && SameKey(t, i, j) && Marked(t[j]) ensures Marked(t[i]) {
      assert SameKey(s.rows, i, j);
    }
  }

  lemma NewRowsKeepClaims(hash: string -> int, rows: seq<Row>, msgs: seq<Message>, p: Phase)
    requires Claims(hash, rows, p)
    ensures Claims(hash, rows + NewRows(msgs), p)
  {
    var t := rows + NewRows(msgs);
    if !p.Idle? {
      forall j | j in p.batch ensures j < |t| && Claimable(hash, t, p.locks, j) {
        assert Claimable(hash, rows, p.locks, j);
      }
      forall i, j | j in p.batch && 0 <= i < j < |t| && SameKey(t, i, j) && t[i].status.Pending? ensures i in p.batch {
        assert SameKey(rows, i, j) && rows[i].status.Pending?;
      }
    }
  }

  lemma WriteKeepsSafe(s: State, msgs: seq<Message>)
    requires Safe(s)
    ensures Safe(s.(rows := s.rows + NewRows(msgs)))
  {
    var t := s.rows + NewRows(msgs);
    SameKeysSameOrder(s.rows, t, s.log);
    forall r | 0 <= r < |s.relays| ensures Claims(s.hash, t, s.relays[r]) && Broker(s.relays[r], s.log) {
      NewRowsKeepClaims(s.hash, s.rows, msgs, s.relays[r]);
    }
    forall i, j | 0 <= i < j < |t| && SameKey(t, i, j) && Marked(t[j]) ensures Marked(t[i]) {
      assert SameKey(s.rows, i, j);
    }
  }

  lemma MarkFailedKeepsSafe(s: State, r: nat, cause: string)
    requires Safe(s) && r < |s.relays|
    ensures Safe(NextMarkFailed(s, r, cause))
  {
    var p := s.relays[r];
    if p.Refused? {
      PhaseKeepsSafe(s, r, Idle);
      SameMarksKeepSafe(With(s, r, Idle), MarkedFailed(s.rows, p.batch, cause));
    }
  }

  lemma AnswerKeepsSafe(s: State, r: nat)
    requires Safe(s) && r < |s.relays|
    ensures Safe(NextAcknowledge(s, r)) && Safe(NextRefuse(s, r))
  {
    var p := s.relays[r];
    if p.Sending? {
      PhaseKeepsSafe(s, r, Refused(p.locks, p.batch));
      if forall j :: j in p.batch ==> j in p.sent {
        PhaseKeepsSafe(s, r, Acked(p.locks, p.batch));
      }
    }
  }

  lemma RelayKeepsSafe(s: State, r: nat, step: Step)
    requires Safe(s) && r < |s.relays|
    requires !step.Write? && !step.Prune? && !step.Tick? && step.r == r
    ensures Safe(Next(s, step))
  {
    match step {
      case Claim(_, locks, n) => ClaimKeepsSafe(s, r, locks, n);
      case Send(_, j) => SendKeepsSafe(s, r, j);
      case MarkPublished(_) => MarkPublishedKeepsSafe(s, r);
      case MarkFailed(_, cause) => MarkFailedKeepsSafe(s, r, cause);
      case Crash(_) => PhaseKeepsSafe(s, r, Idle);
      case _ => AnswerKeepsSafe(s, r);
    }
  }

  lemma NextKeepsSafe(s: State, step: Step)
    requires Safe(s)
    ensures Safe(Next(s, step))
  {
    match step {
      case Write(msgs) => WriteKeepsSafe(s, msgs);
      case Prune(olderThan) => SameMarksKeepSafe(s, AfterPrune(s.rows, s.now - olderThan));
      case Tick(_) =>
      case _ =>
        if step.r < |s.relays| {
          RelayKeepsSafe(s, step.r, step);
        }
    }
  }

  lemma {:induction false} RunKeepsSafe(s: State, steps: seq<Step>)
    requires Safe(s)
    ensures Safe(Run(s, steps))
    decreases |steps|
  {
    if steps != [] {
      NextKeepsSafe(s, steps[0]);
      RunKeepsSafe(Next(s, steps[0]), steps[1..]);
    }
  }

  lemma StartIsSafe(hash: string -> int, relays: nat, now: int)
    ensures Safe(Start(hash, relays, now))
  {
  }

  // What the outbox promises.

  /** Where the row first shows up in the log. */
  function First(log: seq<nat>, j: nat): (p: nat)
    requires j in log
    ensures p < |log| && log[p] == j && j !in log[..p]
  {
    if log[0] == j then 0
    else
      var q := First(log[1..], j);
      assert log[..q + 1] == [log[0]] + log[1..][..q];
      q + 1
  }

  lemma {:induction false} FirstIsEarliest(log: seq<nat>, q: nat)
    requires q < |log|
    ensures First(log, log[q]) <= q
  {
    if log[0] != log[q] {
      FirstIsEarliest(log[1..], q - 1);
    }
  }

  /** After any number of relays, failed publishes and crashes: the rows marked published for a key are a prefix of
      that key's rows, each of them is in the broker's log, and a consumer sees a key's rows first in id order. */
  lemma EveryRunPublishesInOrder(hash: string -> int, relays: nat, now: int, steps: seq<Step>, i: nat, j: nat)
    requires i < j < |Run(Start(hash, relays, now), steps).rows|
    requires SameKey(Run(Start(hash, relays, now), steps).rows, i, j)
    ensures var s := Run(Start(hash, relays, now), steps);
            && (Marked(s.rows[j]) ==> Marked(s.rows[i]) && j in s.log)
            && (j in s.log ==> i in s.log && First(s.log, i) < First(s.log, j))
  {
    StartIsSafe(hash, relays, now);
    RunKeepsSafe(Start(hash, relays, now), steps);
    var s := Run(Start(hash, relays, now), steps);
    if j in s.log {
      var p := First(s.log, j);
      assert i in s.log[..p];
      var q :| 0 <= q < p && s.log[..p][q] == i;
      FirstIsEarliest(s.log, q);
    }
  }

  /** A row leaves the table only after the broker has it. */
  lemma NothingIsLost(hash: string -> int, relays: nat, now: int, steps: seq<Step>, j: nat)
    requires j < |Run(Start(hash, relays, now), steps).rows|
    ensures var s := Run(Start(hash, relays, now), steps); s.rows[j].status.Pending? || j in s.log
  {
    StartIsSafe(hash, relays, now);
    RunKeepsSafe(Start(hash, relays, now), steps);
    var s := Run(Start(hash, relays, now), steps);
    assert Marked(s.rows[j]) ==> j in s.log;
  }

  /** Only a crash or a refused publish can make the relays send a row again. */
  ghost predicate Undisturbed(steps: seq<Step>) {
    forall k :: 0 <= k < |steps| ==> !steps[k].Crash? && !steps[k].Refuse?
  }

  ghost predicate NoRepetition(log: seq<nat>) {
    forall p, q :: 0 <= p < q < |log| ==> log[p] != log[q]
  }

  /** The row was handed to the broker by this relay, whose transaction is still open. */
  predicate HandedOver(p: Phase, j: nat) {
    (p.Sending? && j in p.sent && j in p.batch) || (p.Acked? && j in p.batch)
  }

  /** What the broker has of a row is accounted for: the row is marked, or a relay is about to mark it. */
  ghost predicate Accounted(rows: seq<Row>, relays: seq<Phase>, j: nat) {
    j < |rows| && (Marked(rows[j]) || exists r :: 0 <= r < |relays| && HandedOver(relays[r], j))
  }

  ghost predicate Once(s: State) {
    && NoRepetition(s.log) && (forall r :: 0 <= r < |s.relays| ==> !s.relays[r].Refused?)
    && forall j :: j in s.log ==> Accounted(s.rows, s.relays, j)
  }

  lemma HandedOverIsLocked(s: State, o: nat, j: nat)
    requires Relays(s) && o < |s.relays| && j < |s.rows|
    ensures !s.relays[o].Idle? && j in s.relays[o].batch ==> s.hash(s.rows[j].message.key) in Locks(s.relays[o])
  {
    assert Claims(s.hash, s.rows, s.relays[o]);
    if !s.relays[o].Idle? && j in s.relays[o].batch {
      assert Claimable(s.hash, s.rows, s.relays[o].locks, j);
    }
  }

  /** A row a relay may send is not in the log: it is pending, no other relay holds its lock, and this one has not. */
  lemma SentRowIsNew(s: State, r: nat, j: nat)
    requires Once(s) && Exclusive(s.relays) && Relays(s) && r < |s.relays| && MaySend(s.rows, s.relays[r], j)
    ensures j !in s.log
  {
    assert Claims(s.hash, s.rows, s.relays[r]);
    assert Claimable(s.hash, s.rows, s.relays[r].locks, j);
    HandedOverIsLocked(s, r, j);
    forall o | 0 <= o < |s.relays| ensures !HandedOver(s.relays[o], j) {
      HandedOverIsLocked(s, o, j);
      assert o < r ==> Locks(s.relays[o]) !! Locks(s.relays[r]);
      assert r < o ==> Locks(s.relays[r]) !! Locks(s.relays[o]);
    }
    assert !Accounted(s.rows, s.relays, j);
  }

  lemma StillAccounted(rows: seq<Row>, relays: seq<Phase>, t: seq<Row>, r: nat, p: Phase, j: nat)
    requires Accounted(rows, relays, j) && r < |relays| && |rows| <= |t| && (Marked(rows[j]) ==> Marked(t[j]))
    requires HandedOver(relays[r], j) ==> HandedOver(p, j) || Marked(t[j])
    ensures Accounted(t, relays[r := p], j)
  {
    if !Marked(t[j]) {
      var o :| 0 <= o < |relays| && HandedOver(relays[o], j);
      assert HandedOver(relays[r := p][o], j);
    }
  }

  lemma SendKeepsOnce(s: State, r: nat, j: nat)
    requires Once(s) && Exclusive(s.relays) && Relays(s) && r < |s.relays|
    ensures Once(NextSend(s, r, j))
  {
    var p := s.relays[r];
    if MaySend(s.rows, p, j) {
      var t := NextSend(s, r, j);
      SentRowIsNew(s, r, j);
      forall k | k in t.log ensures Accounted(t.rows, t.relays, k) {
        if k in s.log {
          StillAccounted(s.rows, s.relays, s.rows, r, t.relays[r], k);
        } else {
          assert HandedOver(t.relays[r], k);
        }
      }
    }
  }

  lemma PhaseKeepsOnce(s: State, r: nat, p: Phase, rows: seq<Row>)
    requires Once(s) && r < |s.relays| && !p.Refused? && |rows| == |s.rows|
    requires forall j :: 0 <= j < |rows| && Marked(s.rows[j]) ==> Marked(rows[j])
    requires forall j :: 0 <= j < |rows| && HandedOver(s.relays[r], j) ==> HandedOver(p, j) || Marked(rows[j])
    ensures Once(With(s, r, p).(rows := rows))
  {
    forall j | j in s.log ensures Accounted(rows, s.relays[r := p], j) {
      StillAccounted(s.rows, s.relays, rows, r, p, j);
    }
  }

  lemma RowsKeepOnce(s: State, rows: seq<Row>)
    requires Once(s) && |s.rows| <= |rows| && forall j :: 0 <= j < |s.rows| && Marked(s.rows[j]) ==> Marked(rows[j])
    ensures Once(s.(rows := rows))
  {
    forall j | j in s.log ensures Accounted(rows, s.relays, j) {
      assert Accounted(s.rows, s.relays, j);
    }
  }

  lemma RelayKeepsOnce(s: State, r: nat, step: Step)
    requires Safe(s) && Once(s) && r < |s.relays|
    requires !step.Write? && !step.Prune? && !step.Tick? && step.r == r && !step.Crash? && !step.Refuse?
    ensures Once(Next(s, step))
  {
    var p := s.relays[r];
    match step {
      case Claim(_, locks, n) =>
        if NextClaim(s, r, locks, n) != s {
          PhaseKeepsOnce(s, r, NextClaim(s, r, locks, n).relays[r], s.rows);
        }
      case Send(_, j) => SendKeepsOnce(s, r, j);
      case Acknowledge(_) =>
        if NextAcknowledge(s, r) != s {
          PhaseKeepsOnce(s, r, Acked(p.locks, p.batch), s.rows);
        }
      case MarkPublished(_) =>
        if p.Acked? {
          PhaseKeepsOnce(s, r, Idle, MarkedPublished(s.rows, p.batch, s.now));
        }
      case MarkFailed(_, _) =>
    }
  }

  lemma NextKeepsOnce(s: State, step: Step)
    requires Safe(s) && Once(s) && !step.Crash? && !step.Refuse?
    ensures Once(Next(s, step))
  {
    if step.Write? {
      RowsKeepOnce(s, s.rows + NewRows(step.msgs));
    } else if step.Prune? {
      RowsKeepOnce(s, AfterPrune(s.rows, s.now - step.olderThan));
    } else if !step.Tick? && step.r < |s.relays| {
      RelayKeepsOnce(s, step.r, step);
    }
  }

  lemma {:induction false} UndisturbedRunKeepsOnce(s: State, steps: seq<Step>)
    requires Safe(s) && Once(s) && Undisturbed(steps)
    ensures Once(Run(s, steps))
    decreases |steps|
  {
    if steps != [] {
      NextKeepsSafe(s, steps[0]);
      NextKeepsOnce(s, steps[0]);
      UndisturbedRunKeepsOnce(Next(s, steps[0]), steps[1..]);
    }
  }

  /** With any number of relays, and as long as nothing crashes and nothing is refused, no row is sent twice. */
  lemma UndisturbedRunsNeverRepeat(hash: string -> int, relays: nat, now: int, steps: seq<Step>)
    requires Undisturbed(steps)
    ensures NoRepetition(Run(Start(hash, relays, now), steps).log)
  {
    StartIsSafe(hash, relays, now);
    UndisturbedRunKeepsOnce(Start(hash, relays, now), steps);
  }

  /** A crash between publish and mark sends the row again: delivery is at least once, not exactly once. */
  lemma CrashDuplicates(hash: string -> int, m: Message)
    requires Accepts(m)
    ensures var lock := {hash(m.key)};
            var s := Run(Start(hash, 1, 0),
                         [Write([m]), Claim(0, lock, 1), Send(0, 0), Crash(0), Claim(0, lock, 1), Send(0, 0)]);
            s.log == [0, 0] && |s.rows| == 1 && s.rows[0].status.Pending?
  {
    var lock := {hash(m.key)};
    var s0 := Start(hash, 1, 0);
    var s1 := Next(s0, Write([m]));
    assert s1.rows == [NewRow(m)];
    assert Claimed(hash, s1.rows, lock, 1, 0) == [0];
    var s2 := Next(s1, Claim(0, lock, 1));
    var s3 := Next(s2, Send(0, 0));
    assert s3.log == [0];
    var s4 := Next(s3, Crash(0));
    var s5 := Next(s4, Claim(0, lock, 1));
    var s6 := Next(s5, Send(0, 0));
    assert s6.log == [0, 0];
    assert Run(s5, [Send(0, 0)]) == Run(s6, []);
    assert Run(s4, [Claim(0, lock, 1), Send(0, 0)]) == Run(s5, [Send(0, 0)]);
    assert Run(s3, [Crash(0), Claim(0, lock, 1), Send(0, 0)]) == Run(s4, [Claim(0, lock, 1), Send(0, 0)]);
    assert Run(s2, [Send(0, 0), Crash(0), Claim(0, lock, 1), Send(0, 0)]) ==
           Run(s3, [Crash(0), Claim(0, lock, 1), Send(0, 0)]);
    assert Run(s1, [Claim(0, lock, 1), Send(0, 0), Crash(0), Claim(0, lock, 1), Send(0, 0)])
        == Run(s2, [Send(0, 0), Crash(0), Claim(0, lock, 1), Send(0, 0)]);
  }

  // One relay at work, and the in-memory publisher.

  function Messages(rows: seq<Row>, ids: seq<nat>): seq<Message>
    requires forall j :: j in ids ==> j < |rows|
  {
    seq(|ids|, k requires 0 <= k < |ids| => assert ids[k] in ids; rows[ids[k]].message)
  }

  function Having(msgs: seq<Message>, key: string): seq<Message> {
    if msgs == [] then []
    else
      var before := Having(msgs[..|msgs| - 1], key);
      if msgs[|msgs| - 1].key == key then before + [msgs[|msgs| - 1]] else before
  }

  /** Each claimed row was handed over once, in the order of the claim. */
  ghost predicate HandsOver(rows: seq<Row>, batch: seq<nat>, msgs: seq<Message>) {
    |msgs| == |batch| && forall k :: 0 <= k < |batch| ==> batch[k] < |rows| && msgs[k] == rows[batch[k]].message
  }

  lemma MessagesHandOver(rows: seq<Row>, batch: seq<nat>)
    requires forall j :: j in batch ==> j < |rows|
    ensures HandsOver(rows, batch, Messages(rows, batch))
  {
    forall k | 0 <= k < |batch| ensures batch[k] < |rows| {
      assert batch[k] in batch;
    }
  }

  /** The claimed rows of one key, in the order of the claim. */
  function OfKey(rows: seq<Row>, ids: seq<nat>, key: string): seq<nat> {
    if ids == [] then []
    else
      var before, last := OfKey(rows, ids[..|ids| - 1], key), ids[|ids| - 1];
      if last < |rows| && rows[last].message.key == key then before + [last] else before
  }

  lemma {:induction false} OfKeyExactly(rows: seq<Row>, ids: seq<nat>, key: string)
    requires Increasing(ids)
    ensures Increasing(OfKey(rows, ids, key))
    ensures forall j :: j in OfKey(rows, ids, key) <==> j in ids && j < |rows| && rows[j].message.key == key
  {
    if ids != [] {
      var before, last := ids[..|ids| - 1], ids[|ids| - 1];
      OfKeyExactly(rows, before, key);
      assert ids == before + [last];
      LastIsGreatest(before, last);
      if last < |rows| && rows[last].message.key == key {
        AppendKeepsIncreasing(OfKey(rows, before, key), last);
      }
    }
  }

  lemma LastIsGreatest(ids: seq<nat>, last: nat)
    requires Increasing(ids + [last])
    ensures forall j <- ids :: j < last
  {
    forall j | j in ids ensures j < last {
      var a :| 0 <= a < |ids| && ids[a] == j;
      assert (ids + [last])[a] < (ids + [last])[|ids|];
    }
  }

  lemma AppendKeepsIncreasing(ids: seq<nat>, id: nat)
    requires Increasing(ids) && forall j <- ids :: j < id
    ensures Increasing(ids + [id])
  {
    var all := ids + [id];
    forall a, b | 0 <= a < b < |all| ensures all[a] < all[b] {
      assert ids[a] in ids;
    }
  }

  /** What a batch brings the broker for one key: the messages of that key's claimed rows, in ascending order of their
      ids. */
  lemma {:induction false} KeyIsInIdOrder(rows: seq<Row>, batch: seq<nat>, msgs: seq<Message>, key: string)
    requires HandsOver(rows, batch, msgs) && Increasing(batch)
    ensures HandsOver(rows, OfKey(rows, batch, key), Having(msgs, key)) && Increasing(OfKey(rows, batch, key))
    ensures forall j :: j in OfKey(rows, batch, key) <==> j in batch && j < |rows| && rows[j].message.key == key
    decreases |batch|
  {
    OfKeyExactly(rows, batch, key);
    if batch != [] {
      KeyIsInIdOrder(rows, batch[..|batch| - 1], msgs[..|msgs| - 1], key);
    }
  }

  // A sweep is a run of the protocol's steps.

  function Sends(r: nat, ids: seq<nat>): seq<Step> {
    if ids == [] then [] else [Send(r, ids[0])] + Sends(r, ids[1..])
  }

  /** Claim, hand over row after row, be acknowledged, mark. */
  function Sweeping(r: nat, locks: set<int>, n: nat, batch: seq<nat>): seq<Step> {
    [Claim(r, locks, n)] + Sends(r, batch) + [Acknowledge(r), MarkPublished(r)]
  }

  lemma {:induction false} RunAppended(s: State, a: seq<Step>, b: seq<Step>)
    ensures Run(s, a + b) == Run(Run(s, a), b)
    decreases |a|
  {
    if a == [] {
      assert a + b == b;
    } else {
      assert (a + b)[1..] == a[1..] + b;
      RunAppended(Next(s, a[0]), a[1..], b);
    }
  }

  function Elements(ids: seq<nat>): set<nat> { set j | j in ids }

  lemma NextOfBatchMaySend(rows: seq<Row>, locks: set<int>, batch: seq<nat>, k: nat)
    requires Increasing(batch) && k < |batch| && forall j :: j in batch ==> j < |rows|
    ensures MaySend(rows, Sending(locks, batch, Elements(batch[..k])), batch[k])
    ensures Elements(batch[..k]) + {batch[k]} == Elements(batch[..k + 1])
  {
    forall i | i in batch && i < batch[k] ensures i in batch[..k] {
      var a :| 0 <= a < |batch| && batch[a] == i;
      assert a < k;
      assert batch[..k][a] == i;
    }
    assert batch[..k + 1] == batch[..k] + [batch[k]];
    LastIsGreatest(batch[..k], batch[k]);
  }

  lemma SendNext(s: State, r: nat, locks: set<int>, batch: seq<nat>, k: nat)
    requires r < |s.relays| && k < |batch| && s.relays[r] == Sending(locks, batch, Elements(batch[..k]))
    requires Increasing(batch) && forall j :: j in batch ==> j < |s.rows|
    ensures NextSend(s, r, batch[k]) ==
            With(s, r, Sending(locks, batch, Elements(batch[..k + 1]))).(log := s.log + [batch[k]])
  {
    NextOfBatchMaySend(s.rows, locks, batch, k);
  }

  /** Handing the batch over in the order of the claim is allowed at every row, and the broker gets it in that order. */
  lemma {:induction false} SendsInOrder(s: State, r: nat, locks: set<int>, batch: seq<nat>, k: nat)
    requires r < |s.relays| && k <= |batch| && s.relays[r] == Sending(locks, batch, Elements(batch[..k]))
    requires Increasing(batch) && forall j :: j in batch ==> j < |s.rows|
    ensures Run(s, Sends(r, batch[k..])) ==
            With(s, r, Sending(locks, batch, Elements(batch))).(log := s.log + batch[k..])
    decreases |batch| - k
  {
    if k == |batch| {
      assert batch[..k] == batch && batch[k..] == [];
      assert s.log + [] == s.log && s.relays[r := s.relays[r]] == s.relays;
    } else {
      SendNext(s, r, locks, batch, k);
      assert batch[k..][1..] == batch[k + 1..];
      SendsInOrder(NextSend(s, r, batch[k]), r, locks, batch, k + 1);
      assert s.log + [batch[k]] + batch[k + 1..] == s.log + batch[k..];
    }
  }

  /** The sweep of an idle relay is such a run, which adds its batch to the broker's log as it was claimed; so what
      holds of every run holds of the order in which sweeps publish. */
  lemma SweepIsARun(s: State, r: nat, locks: set<int>, n: nat)
    requires r < |s.relays| && s.relays[r].Idle? && Free(s.relays, locks)
    ensures var batch := Claimed(s.hash, s.rows, locks, n, 0);
            Run(s, Sweeping(r, locks, n, batch)) ==
              s.(log := s.log + batch, rows := MarkedPublished(s.rows, batch, s.now))
  {
    var batch := Claimed(s.hash, s.rows, locks, n, 0);
    var s1 := NextClaim(s, r, locks, n);
    var done := [Acknowledge(r), MarkPublished(r)];
    assert [Claim(r, locks, n)] + Sends(r, batch) + done == [Claim(r, locks, n)] + (Sends(r, batch) + done);
    RunAppended(s1, Sends(r, batch), done);
    if batch == [] {
      assert MarkedPublished(s.rows, batch, s.now) == s.rows && s.log + batch == s.log;
      Finishes(s1, r);
    } else {
      ClaimedAreClaimable(s.hash, s.rows, locks, n, 0);
      ClaimedInIdOrder(s.hash, s.rows, locks, n, 0);
      assert batch[0..] == batch;
      SendsInOrder(s1, r, locks, batch, 0);
      var s2 := Run(s1, Sends(r, batch));
      Finishes(s2, r);
      assert s.relays[r := s.relays[r]] == s.relays;
    }
  }

  lemma Finishes(s: State, r: nat)
    requires r < |s.relays|
    ensures Run(s, [Acknowledge(r), MarkPublished(r)]) == NextMarkPublished(NextAcknowledge(s, r), r)
  {
    var t := Next(s, Acknowledge(r));
    assert [Acknowledge(r), MarkPublished(r)][1..] == [MarkPublished(r)];
    assert Run(s, [Acknowledge(r), MarkPublished(r)]) == Run(t, [MarkPublished(r)]);
    assert Run(t, [MarkPublished(r)]) == Run(Next(t, MarkPublished(r)), []);
  }

  class MemoryPublisher {
    var messages: seq<Message>
    var failNext: Option<string>

    constructor ()
      ensures messages == [] && failNext == None
    {
      messages := [];
      failNext := None;
    }

    method Publish(msgs: seq<Message>) returns (err: Option<string>)
      modifies this
      ensures err == old(failNext) && failNext == None
      ensures messages == if err.None? then old(messages) + msgs else old(messages)
    {
      err := failNext;
      if err.Some? {
        failNext := None;
        return;
      }
      messages := messages + msgs;
    }

    method FailNext(cause: string)
      modifies this
      ensures failNext == Some(cause) && messages == old(messages)
    {
      failNext := Some(cause);
    }

    method PublishedFor(key: string) returns (out: seq<Message>)
      ensures out == Having(messages, key)
    {
      out := [];
      var i := 0;
      while i < |messages|
        invariant i <= |messages| && out == Having(messages[..i], key)
      {
        assert messages[..i + 1][..i] == messages[..i];
        if messages[i].key == key {
          out := out + [messages[i]];
        }
        i := i + 1;
      }
      assert messages[..i] == messages;
    }
  }

  /** The locks a claim obtains: those of its rows that no other transaction holds. */
  function Obtained(hash: string -> int, rows: seq<Row>, held: set<int>): set<int> {
    set i: nat | i < |rows| && hash(rows[i].message.key) !in held :: hash(rows[i].message.key)
  }

  lemma ObtainedIsUnheld(hash: string -> int, rows: seq<Row>, held: set<int>, j: nat)
    requires j < |rows|
    ensures hash(rows[j].message.key) in Obtained(hash, rows, held) <==> hash(rows[j].message.key) !in held
  {
  }

  /** What a sweep leaves of its rows: the claimed ones published, or charged an attempt with the cause; no other row
      changes. */
  ghost predicate Touched(before: seq<Row>, after: seq<Row>, batch: seq<nat>, now: int, err: Option<string>) {
    && |after| == |before|
    && forall j :: 0 <= j < |before| ==>
         && after[j].message == before[j].message
         && (j !in batch ==> after[j] == before[j])
         && (j in batch ==>
               && after[j].attempts == before[j].attempts + 1 && after[j].lastError == err
               && after[j].status == if err.None? then Published(now) else before[j].status)
  }

  lemma PublishingTouches(rows: seq<Row>, batch: seq<nat>, now: int)
    ensures Touched(rows, MarkedPublished(rows, batch, now), batch, now, None)
  {
  }

  lemma FailingTouches(rows: seq<Row>, batch: seq<nat>, now: int, cause: string)
    ensures Touched(rows, MarkedFailed(rows, batch, cause), batch, now, Some(cause))
  {
  }

  /** What a relay obtains is free for it to claim when `held` is what the others hold. */
  lemma ObtainedIsFree(hash: string -> int, rows: seq<Row>, relays: seq<Phase>, held: set<int>)
    requires forall o :: 0 <= o < |relays| ==> Locks(relays[o]) <= held
    ensures Free(relays, Obtained(hash, rows, held))
  {
  }

  class Relay {
    const hash: string -> int
    const batchSize: nat
    const publisher: MemoryPublisher
    var rows: seq<Row>
    var now: int

    constructor (hash: string -> int, publisher: MemoryPublisher)
      ensures this.hash == hash && this.publisher == publisher && batchSize == 100 && rows == [] && now == 0
    {
      this.hash := hash;
      this.publisher := publisher;
      batchSize := 100;
      rows := [];
      now := 0;
    }

    /** All of the messages or, when one lacks a key, a topic or a type, none. */
    method Write(msgs: seq<Message>) returns (ok: bool)
      modifies this
      ensures ok <==> AllAccepted(msgs)
      ensures ok <==> forall k :: 0 <= k < |msgs| ==>
                        msgs[k].key != "" && msgs[k].topic != "" && msgs[k].eventType != ""
      ensures rows == if ok then old(rows) + NewRows(msgs) else old(rows)
      ensures ok ==> |rows| == |old(rows)| + |msgs| && forall k :: 0 <= k < |msgs| ==>
                       rows[|old(rows)| + k] == Row(msgs[k], Pending, 0, None)
      ensures now == old(now)
    {
      var inserted: seq<Row> := [];
      var i := 0;
      while i < |msgs|
        invariant i <= |msgs| && |inserted| == i && rows == old(rows) && now == old(now)
        invariant forall k :: 0 <= k < i ==> Accepts(msgs[k]) && inserted[k] == NewRow(msgs[k])
      {
        if msgs[i].key == "" || msgs[i].topic == "" || msgs[i].eventType == "" {
          assert !Accepts(msgs[i]);
          return false;
        }
        inserted := inserted + [NewRow(msgs[i])];
        i := i + 1;
      }
      assert inserted == NewRows(msgs);
      rows := rows + inserted;
      return true;
    }

    /** `held` are the locks other transactions hold at the moment of the claim. */
    method Claim(held: set<int>) returns (ids: seq<nat>)
      ensures ids == Claimed(hash, rows, Obtained(hash, rows, held), batchSize, 0)
    {
      ids := [];
      var i := 0;
      ghost var locks := Obtained(hash, rows, held);
      while i < |rows| && |ids| < batchSize
        invariant i <= |rows| && |ids| <= batchSize
        invariant Claimed(hash, rows, locks, batchSize, 0) == ids + Claimed(hash, rows, locks, batchSize - |ids|, i)
      {
        ObtainedIsUnheld(hash, rows, held, i);
        if rows[i].status.Pending? && hash(rows[i].message.key) !in held {
          ids := ids + [i];
        }
        i := i + 1;
      }
    }

    /** One sweep without a crash: the batch is published and marked, or refused and charged an attempt. */
    method Sweep(held: set<int>) returns (published: nat, err: Option<string>)
      modifies this, publisher
      ensures var batch := old(Claimed(hash, rows, Obtained(hash, rows, held), batchSize, 0));
              && Increasing(batch) && (forall j :: j in batch ==> j < |old(rows)|)
              && err == (if batch == [] then None else old(publisher.failNext))
              && published == (if err.None? then |batch| else 0)
              && rows == (if err.None? then MarkedPublished(old(rows), batch, now)
                          else MarkedFailed(old(rows), batch, err.value))
              && Touched(old(rows), rows, batch, now, err)
              && publisher.failNext == (if batch == [] then old(publisher.failNext) else None)
              && old(publisher.messages) <= publisher.messages
              && HandsOver(old(rows), if err.None? then batch else [], publisher.messages[|old(publisher.messages)|..])
      ensures now == old(now)
    {
      var batch := Claim(held);
      ClaimedAreClaimable(hash, rows, Obtained(hash, rows, held), batchSize, 0);
      ClaimedInIdOrder(hash, rows, Obtained(hash, rows, held), batchSize, 0);
      if |batch| == 0 {
        assert MarkedPublished(rows, batch, now) == rows;
        return 0, None;
      }
      var msgs := Messages(rows, batch);
      MessagesHandOver(rows, batch);
      PublishingTouches(rows, batch, now);
      err := publisher.Publish(msgs);
      assert err.None? ==> publisher.messages[|old(publisher.messages)|..] == msgs;
      if err.Some? {
        FailingTouches(rows, batch, now, err.value);
        rows := MarkedFailed(rows, batch, err.value);
        return 0, err;
      }
      rows := MarkedPublished(rows, batch, now);
      return |batch|, None;
    }

    /** A row goes exactly when it was published before the cut-off. */
    method Prune(olderThan: int)
      modifies this
      ensures rows == AfterPrune(old(rows), now - olderThan) && now == old(now)
      ensures |rows| == |old(rows)| && forall j :: 0 <= j < |rows| ==>
                var was := old(rows)[j];
                rows[j] == if was.status.Published? && was.status.at < now - olderThan
                           then was.(status := Pruned(was.status.at)) else was
    {
      rows := AfterPrune(rows, now - olderThan);
    }
  }

  /** A sweep that comes back with less than a full batch has left nothing it could have claimed. */
  lemma ShortSweepDrains(hash: string -> int, rows: seq<Row>, locks: set<int>, n: nat, now: int, i: nat)
    requires i < |rows| && |Claimed(hash, rows, locks, n, 0)| < n
    ensures !Claimable(hash, MarkedPublished(rows, Claimed(hash, rows, locks, n, 0), now), locks, i)
  {
    if Claimable(hash, rows, locks, i) {
      ClaimSkipsNothing(hash, rows, locks, n, 0, i);
    }
  }
}
