/** Webhook deliveries: a fixed retry schedule, dispatchers that lock the rows they claim, and an operator who may
    replay a dead letter. Times are seconds on one clock. */
module Webhook {
  import opened Wrappers

  const BACKOFF: seq<int> := [2, 4, 8, 30, 2 * 60, 10 * 60, 3600, 6 * 3600]

  function MaxAttempts(): int { |BACKOFF| + 1 }

  function NextRetry(attemptsMade: int): Option<int> {
    if attemptsMade < 1 || attemptsMade > |BACKOFF| then None else Some(BACKOFF[attemptsMade - 1])
  }

  /** How long after the first attempt the schedule lets attempt `attempt + 1` happen. */
  function Window(attempt: nat): int
    requires attempt <= |BACKOFF|
  {
    if attempt == 0 then 0 else Window(attempt - 1) + BACKOFF[attempt - 1]
  }

  method TotalWindow() returns (total: int)
    ensures total == Window(|BACKOFF|)
  {
    total := 0;
    var i := 0;
    while i < |BACKOFF|
      invariant i <= |BACKOFF| && total == Window(i)
    {
      total := total + BACKOFF[i];
      i := i + 1;
    }
  }

  lemma WindowInSeconds()
    ensures Window(|BACKOFF|) == 25964
  {
  }

  datatype Status = Pending | Retrying | Delivered | DeadLetter

  /** `firstAt` and `lastAt` are history: when the first and the latest attempt since enqueue or replay were
      recorded. */
  datatype Row = Row(status: Status, attempt: int, nextRetryAt: Option<int>, responseCode: Option<int>,
                     responseBody: Option<string>, deliveredAt: Option<int>, firstAt: int, lastAt: int)

  /** What came of a send: the response code, zero when there was none, and the error text, if any. */
  datatype Answer = Answer(code: int, err: Option<string>)

  predicate Succeeded(a: Answer) { a.err.None? && 200 <= a.code < 300 }

  /** A send reports no error exactly for a 2xx response. */
  predicate FromSend(a: Answer) { a.err.None? <==> 200 <= a.code < 300 }

  function Enqueued(now: int): Row { Row(Pending, 0, Some(now), None, None, None, now, now) }

  predicate Due(row: Row, now: int) {
    (row.status.Pending? || row.status.Retrying?) && (row.nextRetryAt.None? || row.nextRetryAt.value <= now)
  }

  /** The status chosen by `deliver`. */
  function Judge(attemptNo: int, a: Answer): Status {
    if Succeeded(a) then Delivered else if attemptNo >= MaxAttempts() then DeadLetter else Retrying
  }

  /** The row after the attempt is recorded, including the fallback for an attempt the schedule has no delay for. */
  function Recorded(row: Row, a: Answer, now: int): Row {
    var attemptNo := row.attempt + 1;
    var judged := Judge(attemptNo, a);
    var delay := if judged.Retrying? then NextRetry(attemptNo) else None;
    var status := if judged.Retrying? && delay.None? then DeadLetter else judged;
    Row(status, attemptNo,
        if delay.Some? then Some(now + delay.value) else None,
        if a.code != 0 then Some(a.code) else None,
        a.err,
        if status.Delivered? then Some(now) else None,
        if row.attempt == 0 then now else row.firstAt, now)
  }

  function Replayed(row: Row, now: int): Row {
    row.(status := Pending, attempt := 0, nextRetryAt := Some(now), responseBody := None)
  }

  // The protocol. A dispatcher's transaction locks a row, writes it, and either commits or rolls back.

  datatype Lock = Open | Claimed | Written(row: Row)

  datatype Delivery = Delivery(row: Row, lock: Lock)

  datatype State = State(deliveries: seq<Delivery>, now: int)

  datatype Step =
    | Enqueue(endpoints: nat)
    | Claim(j: nat)
    | Record(j: nat, answer: Answer)
    | Commit(j: nat)
    | Rollback(j: nat)
    | Replay(j: nat, actor: string)
    | Tick(d: nat)

  function NextDelivery(d: Delivery, step: Step, now: int): Delivery {
    match step
    case Claim(_) => if d.lock.Open? && Due(d.row, now) then d.(lock := Claimed) else d
    case Record(_, answer) =>
      if d.lock.Claimed? && FromSend(answer) then d.(lock := Written(Recorded(d.row, answer, now))) else d
    case Commit(_) => if d.lock.Written? then Delivery(d.lock.row, Open) else d
    case Rollback(_) => d.(lock := Open)
    case Replay(_, actor) =>
      if actor != "" && d.lock.Open? && d.row.status.DeadLetter? then d.(row := Replayed(d.row, now)) else d
    case _ => d
  }

  function Next(s: State, step: Step): State {
    match step
    case Enqueue(endpoints) =>
      s.(deliveries := s.deliveries + seq(endpoints, _ => Delivery(Enqueued(s.now), Open)))
    case Tick(d) => s.(now := s.now + d)
    case _ =>
      if step.j < |s.deliveries|
      then s.(deliveries := s.deliveries[step.j := NextDelivery(s.deliveries[step.j], step, s.now)])
      else s
  }

  function Run(s: State, steps: seq<Step>): State
    decreases |steps|
  {
    if steps == [] then s else Run(Next(s, steps[0]), steps[1..])
  }

  /** What every row satisfies: a waiting row has been on the schedule from its first attempt on. */
  predicate OnSchedule(row: Row) {
    match row.status
    case Pending => row.attempt == 0
    case Retrying =>
      1 <= row.attempt <= |BACKOFF| && row.nextRetryAt == Some(row.lastAt + BACKOFF[row.attempt - 1]) &&
        row.lastAt >= row.firstAt + Window(row.attempt - 1)
    case Delivered => 1 <= row.attempt <= MaxAttempts() && row.deliveredAt == Some(row.lastAt)
    case DeadLetter => row.attempt == MaxAttempts() && row.lastAt >= row.firstAt + Window(|BACKOFF|)
  }

  predicate Sound(d: Delivery, now: int) {
    && OnSchedule(d.row)
    && (!d.lock.Open? ==> Due(d.row, now))
    && (d.lock.Written? ==>
          OnSchedule(d.lock.row) && d.lock.row.attempt == d.row.attempt + 1 && !d.lock.row.status.Pending?)
  }

  ghost predicate Inv(s: State) {
    forall j :: 0 <= j < |s.deliveries| ==> Sound(s.deliveries[j], s.now)
  }

  /** The attempt that follows a claim has a delay in the schedule or is the last one, so the fallback never runs. */
  lemma RecordStaysOnSchedule(row: Row, a: Answer, now: int)
    requires OnSchedule(row) && Due(row, now) && FromSend(a)
    ensures OnSchedule(Recorded(row, a, now)) && Recorded(row, a, now).status == Judge(row.attempt + 1, a)
    ensures Judge(row.attempt + 1, a).Retrying? ==> NextRetry(row.attempt + 1).Some?
  {
    if row.status.Pending? {
      assert Window(1) == BACKOFF[0];
    }
  }

  /** A row is due exactly while attempts on it remain open and its time, if it has one, has come. */
  lemma DueIff(row: Row, now: int)
    requires OnSchedule(row)
    ensures Due(row, now) <==>
              && !row.status.Delivered? && !row.status.DeadLetter?
              && (row.nextRetryAt.Some? ==> row.nextRetryAt.value <= now)
    ensures row.status.Retrying? ==> (Due(row, now) <==> row.lastAt + BACKOFF[row.attempt - 1] <= now)
  {
  }

  /** What an answer makes of the row: delivered exactly by a 2xx response without error; otherwise dead exactly at the
      ninth attempt, and until then due again after the delay of the schedule. */
  lemma RecordedIff(row: Row, a: Answer, now: int)
    requires OnSchedule(row) && Due(row, now) && FromSend(a)
    ensures var u, ok := Recorded(row, a, now), a.err.None? && 200 <= a.code <= 299;
            && u.attempt == row.attempt + 1 <= 9 && u.lastAt == now
            && (u.status.Delivered? <==> ok) && u.deliveredAt == (if ok then Some(now) else None)
            && (u.status.DeadLetter? <==> !ok && row.attempt + 1 == 9)
            && (u.status.Retrying? <==> !ok && row.attempt + 1 < 9)
            && u.nextRetryAt == (if !ok && row.attempt + 1 < 9 then Some(now + BACKOFF[row.attempt]) else None)
            && u.responseCode == (if a.code == 0 then None else Some(a.code)) && u.responseBody == a.err
  {
    RecordStaysOnSchedule(row, a, now);
  }

  lemma DeliveryStaysSound(d: Delivery, step: Step, now: int)
    requires Sound(d, now)
    ensures Sound(NextDelivery(d, step, now), now)
  {
    if step.Record? && d.lock.Claimed? && FromSend(step.answer) {
      RecordStaysOnSchedule(d.row, step.answer, now);
    }
  }

  lemma NextKeepsInv(s: State, step: Step)
    requires Inv(s)
    ensures Inv(Next(s, step))
  {
    if !step.Enqueue? && !step.Tick? && step.j < |s.deliveries| {
      DeliveryStaysSound(s.deliveries[step.j], step, s.now);
    }
  }

  lemma {:induction false} RunKeepsInv(s: State, steps: seq<Step>)
    requires Inv(s)
    ensures Inv(Run(s, steps))
    decreases |steps|
  {
    if steps != [] {
      NextKeepsInv(s, steps[0]);
      RunKeepsInv(Next(s, steps[0]), steps[1..]);
    }
  }

  // Termination of a delivery.

  predicate Settled(row: Row) { row.status.Delivered? || row.status.DeadLetter? }

  function Left(row: Row): int { if Settled(row) then 0 else MaxAttempts() - row.attempt }

  /** Attempts on delivery `j` that were committed during the run. */
  function Commits(s: State, steps: seq<Step>, j: nat): nat
    decreases |steps|
  {
    if steps == [] then 0
    else
      (if steps[0] == Commit(j) && j < |s.deliveries| && s.deliveries[j].lock.Written? then 1 else 0)
      + Commits(Next(s, steps[0]), steps[1..], j)
  }

  ghost predicate NoReplay(steps: seq<Step>, j: nat) {
    forall k :: 0 <= k < |steps| ==> !(steps[k].Replay? && steps[k].j == j)
  }

  /** One step spends at most one of the attempts left, and exactly when it commits one. */
  lemma StepSpends(s: State, step: Step, j: nat)
    requires Inv(s) && j < |s.deliveries| && !(step.Replay? && step.j == j)
    ensures var t := Next(s, step);
            j < |t.deliveries|
            && (if step == Commit(j) && s.deliveries[j].lock.Written?
                then Left(t.deliveries[j].row) < Left(s.deliveries[j].row) &&
                  t.deliveries[j].row.attempt == s.deliveries[j].row.attempt + 1
                else t.deliveries[j].row == s.deliveries[j].row)
  {
    assert Sound(s.deliveries[j], s.now);
  }

  /** Between enqueue or replay and the end of the run, a delivery has as many recorded attempts as were committed;
      there are never more than nine, and after the ninth it is delivered or a dead letter. */
  lemma {:induction false} NineAttemptsSettle(s: State, steps: seq<Step>, j: nat)
    requires Inv(s) && j < |s.deliveries| && NoReplay(steps, j)
    ensures j < |Run(s, steps).deliveries|
    ensures var before, after := s.deliveries[j].row, Run(s, steps).deliveries[j].row;
            && after.attempt == before.attempt + Commits(s, steps, j)
            && Left(after) + Commits(s, steps, j) <= Left(before)
            && (before.attempt + Commits(s, steps, j) == 9 ==> Settled(after))
    decreases |steps|
  {
    if steps == [] {
      assert Sound(s.deliveries[j], s.now);
    } else {
      StepSpends(s, steps[0], j);
      NextKeepsInv(s, steps[0]);
      assert NoReplay(steps[1..], j) by {
        forall k | 0 <= k < |steps[1..]| ensures !(steps[1..][k].Replay? && steps[1..][k].j == j) {
          assert steps[1..][k] == steps[k + 1];
        }
      }
      NineAttemptsSettle(Next(s, steps[0]), steps[1..], j);
    }
  }

  /** A delivered row never changes again and is never claimed again; a dead letter changes only by a replay. */
  lemma {:induction false} SettledIsFinal(s: State, steps: seq<Step>, j: nat)
    requires Inv(s) && j < |s.deliveries| && Settled(s.deliveries[j].row)
    requires s.deliveries[j].row.status.Delivered? || NoReplay(steps, j)
    ensures j < |Run(s, steps).deliveries| && Run(s, steps).deliveries[j] == s.deliveries[j]
    decreases |steps|
  {
    assert Sound(s.deliveries[j], s.now);
    if steps != [] {
      var t := Next(s, steps[0]);
      NextKeepsInv(s, steps[0]);
      assert t.deliveries[j] == s.deliveries[j];
      if NoReplay(steps, j) {
        assert NoReplay(steps[1..], j) by {
          forall k | 0 <= k < |steps[1..]| ensures !(steps[1..][k].Replay? && steps[1..][k].j == j) {
            assert steps[1..][k] == steps[k + 1];
          }
        }
      }
      SettledIsFinal(t, steps[1..], j);
    }
  }

  /** In every run a dead letter has failed nine times, over at least the whole schedule. */
  lemma DeadLettersWaitedOut(now: int, steps: seq<Step>, j: nat)
    requires j < |Run(State([], now), steps).deliveries|
    requires Run(State([], now), steps).deliveries[j].row.status.DeadLetter?
    ensures var row := Run(State([], now), steps).deliveries[j].row;
            row.attempt == 9 && row.lastAt - row.firstAt >= 25964
  {
    RunKeepsInv(State([], now), steps);
    var s := Run(State([], now), steps);
    assert Sound(s.deliveries[j], s.now);
    WindowInSeconds();
  }

  predicate Answered(step: Step, j: nat) {
    step.Record? && step.j == j && step.answer.err.None? && 200 <= step.answer.code <= 299
  }

  /** The row is delivered, or a dispatcher has written that it is. */
  predicate Reported(s: State, j: nat) {
    j < |s.deliveries| && (s.deliveries[j].row.status.Delivered? ||
                           (s.deliveries[j].lock.Written? && s.deliveries[j].lock.row.status.Delivered?))
  }

  /** No delivery is called delivered without an endpoint that said so: some attempt on it got a 2xx response. */
  lemma {:induction false} DeliveredWasAnswered(s: State, steps: seq<Step>, j: nat)
    requires Reported(Run(s, steps), j) && !Reported(s, j)
    ensures exists k :: 0 <= k < |steps| && Answered(steps[k], j)
    decreases |steps|
  {
    var t := Next(s, steps[0]);
    if Reported(t, j) {
      assert Answered(steps[0], j);
    } else {
      DeliveredWasAnswered(t, steps[1..], j);
      var k :| 0 <= k < |steps[1..]| && Answered(steps[1..][k], j);
      assert steps[k + 1] == steps[1..][k];
    }
  }

  // One dispatcher at work.

  /** The oldest `limit` due rows from `from` on that no other dispatcher holds. */
  function DueRows(rows: seq<Row>, held: set<nat>, limit: nat, now: int, from: nat): seq<nat>
    decreases |rows| - from
  {
    if limit == 0 || from >= |rows| then []
    else if Due(rows[from], now) && from !in held then [from] + DueRows(rows, held, limit - 1, now, from + 1)
    else DueRows(rows, held, limit, now, from + 1)
  }

  ghost predicate Ascending(ids: seq<nat>, rows: seq<Row>, now: int) {
    && (forall a :: 0 <= a < |ids| ==> ids[a] < |rows| && Due(rows[ids[a]], now))
    && (forall a, b :: 0 <= a < b < |ids| ==> ids[a] < ids[b])
  }

  lemma {:induction false} DueRowsAscend(rows: seq<Row>, held: set<nat>, limit: nat, now: int, from: nat)
    ensures var ids := DueRows(rows, held, limit, now, from);
            Ascending(ids, rows, now) && forall a :: 0 <= a < |ids| ==> from <= ids[a] && ids[a] !in held
    decreases |rows| - from
  {
    if limit > 0 && from < |rows| {
      if Due(rows[from], now) && from !in held {
        DueRowsAscend(rows, held, limit - 1, now, from + 1);
      } else {
        DueRowsAscend(rows, held, limit, now, from + 1);
      }
    }
  }

  /** A due row nobody holds is taken, unless the batch is full of older ones. */
  lemma {:induction false} OldestFirst(rows: seq<Row>, held: set<nat>, limit: nat, now: int, from: nat, j: nat)
    requires from <= j < |rows| && Due(rows[j], now) && j !in held
    ensures var ids := DueRows(rows, held, limit, now, from);
            j in ids || (|ids| == limit && forall a :: 0 <= a < |ids| ==> ids[a] < j)
    decreases |rows| - from
  {
    if limit > 0 && from < j {
      OldestFirst(rows, held, if Due(rows[from], now) && from !in held then limit - 1 else limit, now, from + 1, j);
    }
  }

  /** Where a merchant wants to be told, and about what. */
  datatype Endpoint = Endpoint(merchant: string, disabled: bool, events: set<string>)

  predicate Subscribed(e: Endpoint, merchant: string, kind: string) {
    e.merchant == merchant && !e.disabled && kind in e.events
  }

  /** The positions of the subscribed endpoints, from `from` on. */
  function Subscribers(endpoints: seq<Endpoint>, merchant: string, kind: string, from: nat): seq<nat>
    decreases |endpoints| - from
  {
    if from >= |endpoints| then []
    else if Subscribed(endpoints[from], merchant, kind) then [from] + Subscribers(endpoints, merchant, kind, from + 1)
    else Subscribers(endpoints, merchant, kind, from + 1)
  }

  lemma {:induction false} SubscribersExactly(endpoints: seq<Endpoint>, merchant: string, kind: string, from: nat,
                                              k: nat)
    ensures k in Subscribers(endpoints, merchant, kind, from) <==>
              from <= k < |endpoints| && Subscribed(endpoints[k], merchant, kind)
    decreases |endpoints| - from
  {
    if from < |endpoints| {
      SubscribersExactly(endpoints, merchant, kind, from + 1, k);
    }
  }

  /** Ascending positions, from `from` on. */
  predicate Rising(ids: seq<nat>, from: nat) {
    ids == [] || (from <= ids[0] && Rising(ids[1..], ids[0] + 1))
  }

  lemma {:induction false} RisingFromEarlier(ids: seq<nat>, from: nat, earlier: nat)
    requires Rising(ids, from) && earlier <= from
    ensures Rising(ids, earlier)
  {
  }

  lemma {:induction false} RisingAreDistinct(ids: seq<nat>, from: nat)
    requires Rising(ids, from)
    ensures forall a :: 0 <= a < |ids| ==> from <= ids[a]
    ensures forall a, b :: 0 <= a < b < |ids| ==> ids[a] != ids[b]
  {
    if ids != [] {
      var rest := ids[1..];
      RisingAreDistinct(rest, ids[0] + 1);
      forall a | 0 < a < |ids| ensures ids[a] == rest[a - 1] && ids[a] > ids[0] {
      }
    }
  }

  lemma {:induction false} SubscribersRise(endpoints: seq<Endpoint>, merchant: string, kind: string, from: nat)
    ensures Rising(Subscribers(endpoints, merchant, kind, from), from)
    decreases |endpoints| - from
  {
    if from < |endpoints| {
      var rest := Subscribers(endpoints, merchant, kind, from + 1);
      SubscribersRise(endpoints, merchant, kind, from + 1);
      RisingFromEarlier(rest, from + 1, from);
      assert ([from] + rest)[1..] == rest;
    }
  }

  /** What a row delivers where: an event to an endpoint. */
  datatype Target = Target(event: string, endpoint: nat)

  function Targets(event: string, endpoints: seq<nat>): seq<Target> {
    seq(|endpoints|, k requires 0 <= k < |endpoints| => Target(event, endpoints[k]))
  }

  class Dispatcher {
    var endpoints: seq<Endpoint>
    var events: set<string>
    var rows: seq<Row>
    var targets: seq<Target>

    constructor (endpoints: seq<Endpoint>)
      ensures Valid() && this.endpoints == endpoints && events == {} && rows == [] && targets == []
    {
      this.endpoints := endpoints;
      events, rows, targets := {}, [], [];
    }

    /** Every row has its target, of an event that was recorded. */
    ghost predicate Valid()
      reads this
    {
      |targets| == |rows| && forall j :: 0 <= j < |targets| ==> targets[j].event in events
    }

    method LoadEndpoints(merchant: string, kind: string) returns (ids: seq<nat>)
      ensures ids == Subscribers(endpoints, merchant, kind, 0)
    {
      ids := [];
      var i := 0;
      while i < |endpoints|
        invariant i <= |endpoints|
        invariant ids + Subscribers(endpoints, merchant, kind, i) == Subscribers(endpoints, merchant, kind, 0)
      {
        if endpoints[i].merchant == merchant && !endpoints[i].disabled && kind in endpoints[i].events {
          ids := ids + [i];
        }
        i := i + 1;
      }
    }

    /** One row per endpoint; a row there already would be kept. */
    method QueueDeliveries(event: string, ids: seq<nat>, now: int)
      requires |targets| == |rows| && forall j :: 0 <= j < |targets| ==> targets[j].event != event
      requires forall a, b :: 0 <= a < b < |ids| ==> ids[a] != ids[b]
      modifies this`rows, this`targets
      ensures targets == old(targets) + Targets(event, ids)
      ensures rows == old(rows) + seq(|ids|, _ => Enqueued(now))
      ensures forall j :: |old(rows)| <= j < |rows| ==>
                rows[j].status.Pending? && rows[j].attempt == 0 && rows[j].nextRetryAt == Some(now)
    {
      var k := 0;
      while k < |ids|
        invariant k <= |ids| && targets == old(targets) + Targets(event, ids[..k])
        invariant rows == old(rows) + seq(k, _ => Enqueued(now))
      {
        NotYetTargeted(old(targets), event, ids, k);
        assert Targets(event, ids[..k + 1]) == Targets(event, ids[..k]) + [Target(event, ids[k])];
        if Target(event, ids[k]) !in targets {
          rows := rows + [Enqueued(now)];
          targets := targets + [Target(event, ids[k])];
        }
        k := k + 1;
      }
      assert ids[..k] == ids;
    }

    /** One event, once; one pending delivery, due now, for each endpoint subscribed to it; or, when the transaction
        does not commit, nothing at all. */
    method Enqueue(event: string, merchant: string, kind: string, now: int, commits: bool) returns (ok: bool)
      requires Valid()
      modifies this
      ensures Valid() && endpoints == old(endpoints) && (ok <==> commits && event !in old(events))
      ensures events == old(events) + if ok then {event} else {}
      ensures var ids := if ok then Subscribers(endpoints, merchant, kind, 0) else [];
              targets == old(targets) + Targets(event, ids) && rows == old(rows) + seq(|ids|, _ => Enqueued(now))
    {
      if event in events || !commits {
        return false;
      }
      events := events + {event};
      var ids := LoadEndpoints(merchant, kind);
      SubscribersRise(endpoints, merchant, kind, 0);
      RisingAreDistinct(ids, 0);
      QueueDeliveries(event, ids, now);
      return true;
    }

    method ClaimDue(held: set<nat>, limit: nat, now: int) returns (ids: seq<nat>)
      ensures ids == DueRows(rows, held, limit, now, 0)
    {
      ids := [];
      var i := 0;
      while i < |rows| && |ids| < limit
        invariant i <= |rows| && |ids| <= limit
        invariant DueRows(rows, held, limit, now, 0) == ids + DueRows(rows, held, limit - |ids|, now, i)
      {
        if Due(rows[i], now) && i !in held {
          ids := ids + [i];
        }
        i := i + 1;
      }
    }

    /** `answers` is what each endpoint replies, `clock` when that reply is recorded. Returns the statuses reported. */
    method DispatchBatch(held: set<nat>, limit: nat, now: int, answers: nat -> Answer, clock: nat -> int)
      returns (ids: seq<nat>, attempts: seq<Status>)
      modifies this`rows
      ensures ids == old(DueRows(rows, held, limit, now, 0)) && |attempts| == |ids| && |rows| == |old(rows)|
      ensures forall j :: 0 <= j < |rows| ==>
                rows[j] == if j in ids then Recorded(old(rows[j]), answers(j), clock(j)) else old(rows[j])
      ensures forall k :: 0 <= k < |ids| ==>
                ids[k] < |old(rows)| && attempts[k] == Judge(old(rows[ids[k]]).attempt + 1, answers(ids[k]))
    {
      ids := ClaimDue(held, limit, now);
      DueRowsAscend(rows, held, limit, now, 0);
      ghost var was := rows;
      ghost var target := seq(|was|, j requires 0 <= j < |was| => Recorded(was[j], answers(j), clock(j)));
      attempts := [];
      var k := 0;
      while k < |ids|
        invariant k <= |ids| && |attempts| == k && |rows| == |was|
        invariant forall j :: 0 <= j < |rows| ==> rows[j] == if j in ids[..k] then target[j] else was[j]
        invariant forall a :: 0 <= a < k ==> attempts[a] == Judge(was[ids[a]].attempt + 1, answers(ids[a]))
      {
        var j := ids[k];
        assert j !in ids[..k];
        assert Recorded(rows[j], answers(j), clock(j)) == target[j];
        attempts := attempts + [Judge(rows[j].attempt + 1, answers(j))];
        rows := rows[j := Recorded(rows[j], answers(j), clock(j))];
        assert ids[..k + 1] == ids[..k] + [j];
        k := k + 1;
      }
      assert ids[..k] == ids;
    }

    method Replay(j: nat, actor: string, now: int) returns (ok: bool)
      modifies this`rows
      ensures ok <==> actor != "" && j < |old(rows)| && old(rows)[j].status.DeadLetter?
      ensures rows == if ok then old(rows)[j := Replayed(old(rows)[j], now)] else old(rows)
      ensures ok ==> rows[j].status.Pending? && rows[j].attempt == 0 && rows[j].nextRetryAt == Some(now)
    {
      if actor == "" {
        return false;
      }
      if j >= |rows| || !rows[j].status.DeadLetter? {
        return false;
      }
      rows := rows[j := Replayed(rows[j], now)];
      return true;
    }
  }

  /** The conflict rule never applies: an event is queued once, and each endpoint is listed once. */
  lemma NotYetTargeted(before: seq<Target>, event: string, ids: seq<nat>, k: nat)
    requires (forall j :: 0 <= j < |before| ==> before[j].event != event) && k < |ids|
    requires forall a, b :: 0 <= a < b < |ids| ==> ids[a] != ids[b]
    ensures Target(event, ids[k]) !in before + Targets(event, ids[..k])
  {
  }
}
