/** Idempotency keys: any number of concurrent callers of one (scope, key), each database statement one step. */
module Idempotency {
  import opened Wrappers

  type Bytes = string

  datatype Status = InProgress | Completed(code: int, body: Bytes)

  datatype Record = Record(hash: string, status: Status)

  datatype Reply =
    | KeyReused
    | InFlight
    | Errored
    | Replay(code: int, body: Bytes)
    | Own(code: int, body: Bytes)
    | Died

  /** `Conflicted` callers found the key taken and have yet to read it; `Ran` callers have yet to store the outcome. */
  datatype Phase = Arrived | Conflicted | Executing | Ran(code: int, body: Bytes) | Replied(reply: Reply)

  datatype Caller = Caller(hash: string, phase: Phase)

  /** `completions` is history: who completed the key, and with what. */
  datatype Completion = Completion(owner: nat, code: int, body: Bytes)

  datatype State = State(record: Option<Record>, callers: seq<Caller>, completions: seq<Completion>)

  datatype Step =
    | Arrive(hash: string)
    | Insert(i: nat)
    | FailInsert(i: nat, applied: bool)
    | Get(i: nat)
    | FailGet(i: nat)
    | Finish(i: nat, code: int, body: Bytes)
    | Settle(i: nat, applied: bool)
    | Crash(i: nat)

  function To(s: State, i: nat, p: Phase): State
    requires i < |s.callers|
  {
    s.(callers := s.callers[i := s.callers[i].(phase := p)])
  }

  /** Insert unless the key exists. */
  function NextInsert(s: State, i: nat): State
    requires i < |s.callers|
  {
    if s.record.None? then To(s, i, Executing).(record := Some(Record(s.callers[i].hash, InProgress)))
    else To(s, i, Conflicted)
  }

  /** The caller sees an error; the insert may have taken effect all the same. */
  function NextFailInsert(s: State, i: nat, applied: bool): State
    requires i < |s.callers|
  {
    var t := To(s, i, Replied(Errored));
    if applied && s.record.None? then t.(record := Some(Record(s.callers[i].hash, InProgress))) else t
  }

  function Answer(record: Option<Record>, hash: string): Reply {
    if record.None? then Errored
    else if record.value.hash != hash then KeyReused
    else match record.value.status
      case InProgress => InFlight
      case Completed(code, body) => Replay(code, body)
  }

  /** Release after a server error, which deletes only a record in progress; complete otherwise. The result of either
      is ignored, so a statement that does not take effect changes nothing for the caller. */
  function NextSettle(s: State, i: nat, applied: bool): State
    requires i < |s.callers| && s.callers[i].phase.Ran?
  {
    var Ran(code, body) := s.callers[i].phase;
    var t := To(s, i, Replied(Own(code, body)));
    if !applied || s.record.None? then t
    else if code >= 500 then (if s.record.value.status.InProgress? then t.(record := None) else t)
    else t.(record := Some(s.record.value.(status := Completed(code, body))),
            completions := s.completions + [Completion(i, code, body)])
  }

  function NextCaller(s: State, i: nat, step: Step): State
    requires i < |s.callers|
  {
    var p := s.callers[i].phase;
    match step
    case Insert(_) => if p.Arrived? then NextInsert(s, i) else s
    case FailInsert(_, applied) => if p.Arrived? then NextFailInsert(s, i, applied) else s
    case Get(_) => if p.Conflicted? then To(s, i, Replied(Answer(s.record, s.callers[i].hash))) else s
    case FailGet(_) => if p.Conflicted? then To(s, i, Replied(Errored)) else s
    case Finish(_, code, body) => if p.Executing? then To(s, i, Ran(code, body)) else s
    case Settle(_, applied) => if p.Ran? then NextSettle(s, i, applied) else s
    case Crash(_) => if p.Replied? then s else To(s, i, Replied(Died))
    case Arrive(_) => s
  }

  function Next(s: State, step: Step): State {
    match step
    case Arrive(hash) => s.(callers := s.callers + [Caller(hash, Arrived)])
    case _ => if step.i < |s.callers| then NextCaller(s, step.i, step) else s
  }

  function Run(s: State, steps: seq<Step>): State
    decreases |steps|
  {
    if steps == [] then s else Run(Next(s, steps[0]), steps[1..])
  }

  // Invariant.

  /** Inside the handler, or past it with the outcome still to be stored. */
  predicate Active(p: Phase) { p.Executing? || p.Ran? }

  ghost predicate OneActive(callers: seq<Caller>) {
    forall i, j :: 0 <= i < |callers| && 0 <= j < |callers| && Active(callers[i].phase) && Active(callers[j].phase)
      ==> i == j
  }

  /** The active caller's record is there, in progress, with its hash. */
  ghost predicate Owned(callers: seq<Caller>, record: Option<Record>) {
    forall i :: 0 <= i < |callers| && Active(callers[i].phase) ==> record == Some(Record(callers[i].hash, InProgress))
  }

  /** The record is completed exactly when one completion was recorded, and it holds that outcome. */
  ghost predicate Recorded(s: State) {
    if s.record.Some? && s.record.value.status.Completed? then
      && |s.completions| == 1
      && var c := s.completions[0];
         && s.record.value.status == Completed(c.code, c.body) && c.code < 500
         && c.owner < |s.callers| && s.callers[c.owner] == Caller(s.record.value.hash, Replied(Own(c.code, c.body)))
    else s.completions == []
  }

  ghost predicate Faithful(s: State) {
    forall i :: 0 <= i < |s.callers| && s.callers[i].phase.Replied? && s.callers[i].phase.reply.Replay? ==>
      s.record == Some(Record(s.callers[i].hash,
                              Completed(s.callers[i].phase.reply.code, s.callers[i].phase.reply.body)))
  }

  ghost predicate Inv(s: State) {
    OneActive(s.callers) && Owned(s.callers, s.record) && Recorded(s) && Faithful(s)
  }

  lemma InsertKeepsInv(s: State, i: nat, applied: bool)
    requires Inv(s) && i < |s.callers| && s.callers[i].phase.Arrived?
    ensures Inv(NextInsert(s, i)) && Inv(NextFailInsert(s, i, applied))
  {
  }

  lemma GetKeepsInv(s: State, i: nat)
    requires Inv(s) && i < |s.callers| && s.callers[i].phase.Conflicted?
    ensures Inv(To(s, i, Replied(Answer(s.record, s.callers[i].hash))))
  {
  }

  lemma FinishKeepsInv(s: State, i: nat, code: int, body: Bytes)
    requires Inv(s) && i < |s.callers| && s.callers[i].phase.Executing?
    ensures Inv(To(s, i, Ran(code, body)))
  {
  }

  lemma SettleKeepsInv(s: State, i: nat, applied: bool)
    requires Inv(s) && i < |s.callers| && s.callers[i].phase.Ran?
    ensures Inv(NextSettle(s, i, applied))
  {
    assert s.record == Some(Record(s.callers[i].hash, InProgress));
  }

  lemma StopKeepsInv(s: State, i: nat, reply: Reply)
    requires Inv(s) && i < |s.callers| && !s.callers[i].phase.Replied? && (reply.Died? || reply.Errored?)
    ensures Inv(To(s, i, Replied(reply)))
  {
  }

  lemma NextKeepsInv(s: State, step: Step)
    requires Inv(s)
    ensures Inv(Next(s, step))
  {
    if step.Arrive? {
      ArriveKeepsInv(s, step.hash);
    } else if step.i < |s.callers| {
      var i, p := step.i, s.callers[step.i].phase;
      match step {
        case Insert(_) => if p.Arrived? { InsertKeepsInv(s, i, false); }
        case FailInsert(_, applied) => if p.Arrived? { InsertKeepsInv(s, i, applied); }
        case Get(_) => if p.Conflicted? { GetKeepsInv(s, i); }
        case FailGet(_) => if p.Conflicted? { StopKeepsInv(s, i, Errored); }
        case Finish(_, code, body) => if p.Executing? { FinishKeepsInv(s, i, code, body); }
        case Settle(_, applied) => if p.Ran? { SettleKeepsInv(s, i, applied); }
        case Crash(_) => if !p.Replied? { StopKeepsInv(s, i, Died); }
      }
    }
  }

  lemma ArriveKeepsInv(s: State, hash: string)
    requires Inv(s)
    ensures Inv(Next(s, Arrive(hash)))
  {
  }

  lemma {:induction false} RunKeepsInv(s: State, steps: seq<Step>)
    requires Inv(s)
    ensures Inv(Run(s, steps))
    decreases |steps|
  {
    if steps != [] {
      NextKeepsInv(s, steps[0]);
      RunKeepsInv(Next(s, steps[0]), steps[1..]);
    }
  }

  const FRESH := State(None, [], [])

  // What the key promises.

  /** In every run: one handler at a time, only under a record with its own hash, and at most one completion. */
  lemma ExecutionsNeverOverlap(steps: seq<Step>, i: nat, j: nat)
    requires i < |Run(FRESH, steps).callers| && j < |Run(FRESH, steps).callers|
    requires Active(Run(FRESH, steps).callers[i].phase)
    ensures var s := Run(FRESH, steps);
            && (Active(s.callers[j].phase) ==> i == j)
            && s.record == Some(Record(s.callers[i].hash, InProgress))
            && s.completions == []
  {
    RunKeepsInv(FRESH, steps);
  }

  /** Every replay, to whichever caller and whenever, is the one recorded outcome of an execution with the same hash. */
  lemma ReplaysAreTheCompletion(steps: seq<Step>, i: nat)
    requires i < |Run(FRESH, steps).callers|
    requires var p := Run(FRESH, steps).callers[i].phase; p.Replied? && p.reply.Replay?
    ensures var s := Run(FRESH, steps);
            && |s.completions| == 1
            && var c := s.completions[0];
               && s.callers[i].phase.reply == Replay(c.code, c.body) && c.code < 500
               && c.owner < |s.callers| && s.callers[c.owner] == Caller(s.callers[i].hash, Replied(Own(c.code, c.body)))
  {
    RunKeepsInv(FRESH, steps);
  }

  /** No caller runs the handler any more: the key is completed, or its record is orphaned in progress. */
  ghost predicate Closed(s: State) {
    s.record.Some? && forall i :: 0 <= i < |s.callers| ==> !Active(s.callers[i].phase)
  }

  lemma ClosedStep(s: State, step: Step)
    requires Closed(s)
    ensures Closed(Next(s, step)) && Next(s, step).record == s.record && Next(s, step).completions == s.completions
  {
  }

  /** Once the key is completed no handler ever runs for it again. And when a completion or release is lost, or the
      owner dies, the record stays in progress for good: nobody executes, and nobody gets a replay. */
  lemma {:induction false} ClosedForever(s: State, steps: seq<Step>)
    requires Closed(s)
    ensures Closed(Run(s, steps)) && Run(s, steps).record == s.record && Run(s, steps).completions == s.completions
    decreases |steps|
  {
    if steps != [] {
      ClosedStep(s, steps[0]);
      ClosedForever(Next(s, steps[0]), steps[1..]);
    }
  }

  lemma CompletedIsClosed(s: State)
    requires Inv(s) && s.record.Some? && s.record.value.status.Completed?
    ensures Closed(s)
  {
  }

  /** At most one completion is ever recorded, and with it the record is completed. */
  lemma CompletedAtMostOnce(steps: seq<Step>)
    ensures |Run(FRESH, steps).completions| <= 1
  {
    RunKeepsInv(FRESH, steps);
  }

  /** A caller of a key nobody holds runs its handler and answers with its outcome, which then is the key's, or, after a
      server error, leaves the key free again. */
  lemma FreshKeyRuns(s: State, i: nat, code: int, body: Bytes)
    requires s.record.None? && i < |s.callers| && s.callers[i].phase.Arrived?
    ensures Next(s, Insert(i)).callers[i].phase.Executing?
    ensures var t := Next(Next(Next(s, Insert(i)), Finish(i, code, body)), Settle(i, true));
            && t.callers == s.callers[i := Caller(s.callers[i].hash, Replied(Own(code, body)))]
            && t.record == if code >= 500 then None else Some(Record(s.callers[i].hash, Completed(code, body)))
  {
  }

  /** A caller of a key that is held changes nothing and hears, by its hash and the state of the record: reused, in
      flight, or the outcome. */
  lemma HeldKeyAnswers(s: State, i: nat)
    requires s.record.Some? && i < |s.callers| && s.callers[i].phase.Arrived?
    ensures var t, record, hash := Next(Next(s, Insert(i)), Get(i)), s.record.value, s.callers[i].hash;
            && t.record == s.record && |t.callers| == |s.callers| && t.callers[i].phase.Replied?
            && match t.callers[i].phase.reply
               case KeyReused => record.hash != hash
               case InFlight => record == Record(hash, InProgress)
               case Replay(code, body) => record == Record(hash, Completed(code, body))
               case _ => false
  {
  }

  /** The key is blocked: its record is in progress and stays so whatever happens next. */
  ghost predicate Blocked(s: State) {
    && s.record.Some? && s.record.value.status.InProgress?
    && forall steps :: Run(s, steps).record == s.record
  }

  /** The steps by which an active caller can still finish and store its outcome. */
  function Finishing(p: Phase, i: nat): seq<Step> {
    if p.Executing? then [Finish(i, 200, ""), Settle(i, true)] else [Settle(i, true)]
  }

  lemma ActiveCanFinish(s: State, i: nat)
    requires Inv(s) && i < |s.callers| && Active(s.callers[i].phase)
    ensures Run(s, Finishing(s.callers[i].phase, i)).record != s.record
  {
    assert s.record == Some(Record(s.callers[i].hash, InProgress));
    var p := s.callers[i].phase;
    if p.Executing? {
      var t := Next(s, Finish(i, 200, ""));
      assert t.callers[i].phase == Ran(200, "");
      assert Run(s, Finishing(p, i)) == Run(t, [Settle(i, true)]) by {
        assert Finishing(p, i)[1..] == [Settle(i, true)];
      }
      SettleAlone(t, i);
    } else {
      SettleAlone(s, i);
    }
  }

  lemma SettleAlone(s: State, i: nat)
    requires i < |s.callers| && s.callers[i].phase.Ran? && s.record.Some? && s.record.value.status.InProgress?
    ensures Run(s, [Settle(i, true)]).record != s.record
  {
    assert [Settle(i, true)][1..] == [];
    assert Run(s, [Settle(i, true)]) == Next(s, Settle(i, true));
  }

  /** A key in progress is blocked for good exactly when no caller is left that owns it. */
  lemma BlockedIffOrphaned(s: State)
    requires Inv(s) && s.record.Some? && s.record.value.status.InProgress?
    ensures Blocked(s) <==> Closed(s)
  {
    if Closed(s) {
      forall steps ensures Run(s, steps).record == s.record {
        ClosedForever(s, steps);
      }
    } else {
      var i :| 0 <= i < |s.callers| && Active(s.callers[i].phase);
      ActiveCanFinish(s, i);
    }
  }

  /** Whoever asks for a blocked key is told that it is in flight, or, with another body, that it was used. */
  lemma BlockedAnswers(s: State, steps: seq<Step>, hash: string)
    requires Blocked(s)
    ensures Answer(Run(s, steps).record, hash) == if hash == s.record.value.hash then InFlight else KeyReused
  {
  }

  /** One way in: the statement that should store the outcome, completion or release, is lost. */
  lemma LostOutcomeBlocks(s: State, i: nat)
    requires Inv(s) && i < |s.callers| && s.callers[i].phase.Ran?
    ensures Blocked(Next(s, Settle(i, false)))
  {
    SettleKeepsInv(s, i, false);
    BlockedIffOrphaned(Next(s, Settle(i, false)));
  }

  /** Another: the owner dies, in the handler or before it stores the outcome. */
  lemma DeadOwnerBlocks(s: State, i: nat)
    requires Inv(s) && i < |s.callers| && Active(s.callers[i].phase)
    ensures Blocked(Next(s, Crash(i)))
  {
    assert s.record == Some(Record(s.callers[i].hash, InProgress));
    StopKeepsInv(s, i, Died);
    BlockedIffOrphaned(Next(s, Crash(i)));
  }

  /** The third: the claim takes effect although its caller sees an error. */
  lemma HiddenInsertBlocks(s: State, i: nat)
    requires Inv(s) && s.record.None? && i < |s.callers| && s.callers[i].phase.Arrived?
    ensures Blocked(Next(s, FailInsert(i, true)))
  {
    InsertKeepsInv(s, i, true);
    BlockedIffOrphaned(Next(s, FailInsert(i, true)));
  }

  /** A key nobody holds gets a record only by an insert, whose caller then owns it unless it saw an error. */
  lemma ClaimedByInsert(s: State, step: Step)
    requires s.record.None? && Next(s, step).record.Some?
    ensures !step.Arrive? && step.i < |s.callers| && s.callers[step.i].phase.Arrived?
    ensures (step.FailInsert? && step.applied) || !Closed(Next(s, step))
  {
    var t := Next(s, step);
    assert step.Insert? ==> Active(t.callers[step.i].phase);
  }

  /** There is no other way in: a step that makes a key blocked is one of these three. */
  lemma OnlyThreeWaysIn(s: State, step: Step)
    requires Inv(s) && !Blocked(s) && Blocked(Next(s, step))
    ensures && !step.Arrive? && step.i < |s.callers|
            && ((step.Settle? && !step.applied && s.callers[step.i].phase.Ran?)
                || (step.Crash? && Active(s.callers[step.i].phase))
                || (step.FailInsert? && step.applied && s.record.None? && s.callers[step.i].phase.Arrived?))
  {
    var t := Next(s, step);
    NextKeepsInv(s, step);
    BlockedIffOrphaned(t);
    if s.record.Some? && s.record.value.status.InProgress? {
      BlockedIffOrphaned(s);
      var i :| 0 <= i < |s.callers| && Active(s.callers[i].phase);
      assert !Active(t.callers[i].phase);
    } else if s.record.Some? {
      CompletedIsClosed(s);
      ClosedStep(s, step);
    } else {
      ClaimedByInsert(s, step);
    }
  }
}
