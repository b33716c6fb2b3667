/** The admission limiter as its concurrent requests see it: every operation on the slot channel or on one of
    the atomic counters is one step, and the steps of different requests interleave freely. */
module Admission {

  /** Where one request is in the middleware. `depth` is what its own increment of the queue counter returned. */
  datatype Phase =
    | Arrived
    | FastSlot
    | Busy
    | Counting(depth: int, retries: nat)
    | Loaded(depth: int, seen: int, retries: nat)
    | Peaked(depth: int)
    | OverLimit(depth: int)
    | Shedding(depth: int)
    | Waiting(depth: int)
    | GotSlot(depth: int)
    | Dequeued(depth: int)
    | Hit(depth: int)
    | Admitted(depth: int)
    | Leaving(depth: int)
    | TimedOut(depth: int)
    | Overdue(depth: int)
    | GaveUp(depth: int)
    | Gone(depth: int)
    | Serving(depth: int)
    | Finished(outcome: Outcome, depth: int)

  datatype Outcome = Served | ShedFull | ShedWait | Abandoned | LeftAfterAdmission

  /** What the scheduler, the timer or the client decides where the code leaves it open. */
  datatype Choice = Proceed | Expire | Cancel

  /** `line` and `deepest` are history: who is counted in `queued`, in order, and the largest value it ever had. */
  datatype State = State(
    inFlight: nat, queueLimit: nat,
    slots: int, queued: int, peak: int,
    admitted: int, queueHit: int, shedFull: int, shedWait: int, abandoned: int,
    reqs: seq<Phase>, line: seq<nat>, deepest: int)

  function New(inFlight: int, queue: int): State {
    State(if inFlight < 1 then 1 else inFlight, if queue < 0 then 0 else queue, 0, 0, 0, 0, 0, 0, 0, 0, [], [], 0)
  }

  function To(s: State, i: nat, p: Phase): State
    requires i < |s.reqs|
  {
    s.(reqs := s.reqs[i := p])
  }

  function Without(line: seq<nat>, i: nat): seq<nat> {
    if line == [] then []
    else if line[0] == i then line[1..]
    else [line[0]] + Without(line[1..], i)
  }

  function Enqueue(s: State, i: nat): State
    requires i < |s.reqs|
  {
    var depth := s.queued + 1;
    To(s, i, Counting(depth, 0)).(queued := depth, line := s.line + [i],
                                  deepest := if depth > s.deepest then depth else s.deepest)
  }

  function Dequeue(s: State, i: nat, p: Phase): State
    requires i < |s.reqs|
  {
    To(s, i, p).(queued := s.queued - 1, line := Without(s.line, i))
  }

  /** Compare-and-swap on the peak: done when the peak is high enough or the swap succeeds, again otherwise. */
  function Swap(s: State, i: nat): State
    requires i < |s.reqs| && s.reqs[i].Loaded?
  {
    var Loaded(depth, seen, retries) := s.reqs[i];
    if depth <= seen then To(s, i, Peaked(depth))
    else if s.peak == seen then To(s, i, Peaked(depth)).(peak := depth)
    else To(s, i, Counting(depth, retries + 1))
  }

  function Next(s: State, i: nat, choice: Choice): State
    requires i < |s.reqs|
  {
    match s.reqs[i]
    case Arrived => if s.slots < s.inFlight then To(s, i, FastSlot).(slots := s.slots + 1) else To(s, i, Busy)
    case FastSlot => To(s, i, Serving(0)).(admitted := s.admitted + 1)
    case Busy => Enqueue(s, i)
    case Counting(depth, retries) => To(s, i, Loaded(depth, s.peak, retries))
    case Loaded(_, _, _) => Swap(s, i)
    case Peaked(depth) => To(s, i, if depth > s.queueLimit then OverLimit(depth) else Waiting(depth))
    case OverLimit(depth) => Dequeue(s, i, Shedding(depth))
    case Shedding(depth) => To(s, i, Finished(ShedFull, depth)).(shedFull := s.shedFull + 1)
    case Waiting(depth) =>
      (match choice
       case Proceed => if s.slots < s.inFlight then To(s, i, GotSlot(depth)).(slots := s.slots + 1) else s
       case Expire => To(s, i, TimedOut(depth))
       case Cancel => To(s, i, GaveUp(depth)))
    case GotSlot(depth) => Dequeue(s, i, Dequeued(depth))
    case Dequeued(depth) => To(s, i, Hit(depth)).(queueHit := s.queueHit + 1)
    case Hit(depth) => To(s, i, Admitted(depth)).(admitted := s.admitted + 1)
    case Admitted(depth) =>
      if choice.Cancel? then To(s, i, Leaving(depth)).(abandoned := s.abandoned + 1) else To(s, i, Serving(depth))
    case Leaving(depth) => To(s, i, Finished(LeftAfterAdmission, depth)).(slots := s.slots - 1)
    case TimedOut(depth) => Dequeue(s, i, Overdue(depth))
    case Overdue(depth) => To(s, i, Finished(ShedWait, depth)).(shedWait := s.shedWait + 1)
    case GaveUp(depth) => Dequeue(s, i, Gone(depth))
    case Gone(depth) => To(s, i, Finished(Abandoned, depth)).(abandoned := s.abandoned + 1)
    case Serving(depth) => To(s, i, Finished(Served, depth)).(slots := s.slots - 1)
    case Finished(_, _) => s
  }

  datatype Step = Arrive | Advance(i: nat, choice: Choice)

  function Apply(s: State, step: Step): State {
    match step
    case Arrive => s.(reqs := s.reqs + [Arrived])
    case Advance(i, choice) => if i < |s.reqs| then Next(s, i, choice) else s
  }

  function Run(s: State, steps: seq<Step>): State
    decreases |steps|
  {
    if steps == [] then s else Run(Apply(s, steps[0]), steps[1..])
  }

  // Counters against phases.

  datatype Kind = Slot | InQueue | AdmittedCount | HitCount | FullCount | WaitCount | AbandonCount

  /** What one request contributes to a counter, given where it is. */
  function Share(p: Phase, k: Kind): int {
    match k
    case Slot =>
      if p.FastSlot? || p.GotSlot? || p.Dequeued? || p.Hit? || p.Admitted? || p.Leaving? || p.Serving? then 1 else 0
    case InQueue => if InLine(p) then 1 else 0
    case AdmittedCount =>
      if p.Admitted? || p.Leaving? || p.Serving? ||
         (p.Finished? && (p.outcome.Served? || p.outcome.LeftAfterAdmission?))
      then 1 else 0
    case HitCount =>
      if p.Hit? || p.Admitted? || p.Leaving? || (p.Serving? && p.depth > 0) ||
         (p.Finished? && p.depth > 0 && (p.outcome.Served? || p.outcome.LeftAfterAdmission?)) then 1 else 0
    case FullCount => if p.Finished? && p.outcome.ShedFull? then 1 else 0
    case WaitCount => if p.Finished? && p.outcome.ShedWait? then 1 else 0
    case AbandonCount =>
      if p.Leaving? || (p.Finished? && (p.outcome.Abandoned? || p.outcome.LeftAfterAdmission?)) then 1 else 0
  }

  predicate InLine(p: Phase) {
    p.Counting? || p.Loaded? || p.Peaked? || p.OverLimit? || p.Waiting? || p.GotSlot? || p.TimedOut? || p.GaveUp?
  }

  function Counter(s: State, k: Kind): int {
    match k
    case Slot => s.slots
    case InQueue => s.queued
    case AdmittedCount => s.admitted
    case HitCount => s.queueHit
    case FullCount => s.shedFull
    case WaitCount => s.shedWait
    case AbandonCount => s.abandoned
  }

  function Total(reqs: seq<Phase>, k: Kind): int {
    if reqs == [] then 0 else Share(reqs[0], k) + Total(reqs[1..], k)
  }

  lemma {:induction false} TotalUpdate(reqs: seq<Phase>, i: nat, p: Phase, k: Kind)
    requires i < |reqs|
    ensures Total(reqs[i := p], k) == Total(reqs, k) - Share(reqs[i], k) + Share(p, k)
  {
    if i == 0 {
      assert reqs[i := p][1..] == reqs[1..];
    } else {
      assert reqs[i := p][1..] == reqs[1..][i - 1 := p];
      TotalUpdate(reqs[1..], i - 1, p, k);
    }
  }

  lemma {:induction false} TotalAppend(reqs: seq<Phase>, k: Kind)
    ensures Total(reqs + [Arrived], k) == Total(reqs, k)
  {
    if reqs == [] {
      assert reqs + [Arrived] == [Arrived];
      assert [Arrived][1..] == [];
    } else {
      assert (reqs + [Arrived])[1..] == reqs[1..] + [Arrived];
      TotalAppend(reqs[1..], k);
    }
  }

  /** Whether a phase carries the depth its increment returned. */
  predicate HasDepth(p: Phase) { !p.Arrived? && !p.FastSlot? && !p.Busy? }

  /** In `recordPeak`, its depth not yet reflected in the peak. */
  predicate Climbing(p: Phase) { p.Counting? || p.Loaded? }

  /** Turned away, or about to be, because the queue was full. */
  predicate Refused(p: Phase) { p.OverLimit? || p.Shedding? || (p.Finished? && p.outcome.ShedFull?) }

  /** Past the depth check and still counted in `queued`. */
  predicate Accepted(p: Phase) { p.Waiting? || p.GotSlot? || p.TimedOut? || p.GaveUp? }

  /** After queueing, or on the way to it: the depth is that of an increment, so positive. */
  predicate Queueing(p: Phase) { HasDepth(p) && !p.Serving? && !p.Finished? }

  // Invariants.

  ghost predicate Counted(s: State) {
    forall k :: Counter(s, k) == Total(s.reqs, k)
  }

  /** What each request knows about itself. */
  predicate LocalOk(s: State, p: Phase) {
    && (Queueing(p) ==> p.depth > 0)
    && (HasDepth(p) ==> p.depth <= s.deepest)
    && (HasDepth(p) && !Climbing(p) ==> p.depth <= s.peak)
    && (HasDepth(p) && !Climbing(p) && !p.Peaked? ==> (Refused(p) <==> p.depth > s.queueLimit))
    && (p.Counting? ==> p.retries <= s.peak && p.retries <= p.depth)
    && (p.Loaded? ==> p.retries <= p.seen <= s.peak && p.retries <= p.depth)
  }

  ghost predicate Bounded(s: State) {
    && s.inFlight >= 1 && 0 <= s.slots <= s.inFlight && 0 <= s.peak <= s.deepest
    && forall i :: 0 <= i < |s.reqs| ==> LocalOk(s, s.reqs[i])
  }

  /** The peak is the deepest the queue ever was, or the request that was that deep is still recording it. */
  ghost predicate PeakPending(s: State) {
    s.peak == s.deepest ||
    exists i :: 0 <= i < |s.reqs| && Climbing(s.reqs[i]) && s.reqs[i].depth == s.deepest
  }

  /** The requests counted in `queued`, oldest first: the one at position `k` saw a depth of at least `k + 1`. */
  ghost predicate Lined(s: State) {
    s.queued == |s.line| && Placed(s.reqs, s.line) && Distinct(s.line) && Covers(s.reqs, s.line)
  }

  ghost predicate Inv(s: State) {
    Counted(s) && Bounded(s) && PeakPending(s) && Lined(s)
  }

  // Counters. A step moves every counter by what the acting request's contribution changes.

  ghost predicate CountsMove(s: State, i: nat, choice: Choice)
    requires i < |s.reqs|
  {
    var t := Next(s, i, choice);
    && t.reqs == s.reqs[i := if i < |t.reqs| then t.reqs[i] else Arrived]
    && forall k :: Counter(t, k) - Counter(s, k) == Share(t.reqs[i], k) - Share(s.reqs[i], k)
  }

  lemma EntryCounts(s: State, i: nat, choice: Choice)
    requires i < |s.reqs| && (s.reqs[i].Arrived? || s.reqs[i].FastSlot?)
    ensures CountsMove(s, i, choice)
  {
  }

  lemma BusyCounts(s: State, i: nat, choice: Choice)
    requires i < |s.reqs| && s.queued >= 0 && s.reqs[i].Busy?
    ensures CountsMove(s, i, choice)
  {
  }

  lemma PeakCounts(s: State, i: nat, choice: Choice)
    requires i < |s.reqs| && (s.reqs[i].Counting? || s.reqs[i].Peaked?)
    ensures CountsMove(s, i, choice)
  {
  }

  lemma SwapCounts(s: State, i: nat, choice: Choice)
    requires i < |s.reqs| && s.reqs[i].Loaded?
    ensures CountsMove(s, i, choice)
  {
  }

  lemma QueueCounts(s: State, i: nat, choice: Choice)
    requires i < |s.reqs| && LocalOk(s, s.reqs[i])
    requires s.reqs[i].Waiting? || s.reqs[i].GotSlot? || s.reqs[i].Dequeued? || s.reqs[i].Hit? || s.reqs[i].Admitted?
    ensures CountsMove(s, i, choice)
  {
  }

  lemma ExitCounts(s: State, i: nat, choice: Choice)
    requires i < |s.reqs| && LocalOk(s, s.reqs[i])
    requires s.reqs[i].OverLimit? || s.reqs[i].Shedding? || s.reqs[i].TimedOut? || s.reqs[i].Overdue? ||
             s.reqs[i].GaveUp? || s.reqs[i].Gone?
    ensures CountsMove(s, i, choice)
  {
  }

  lemma LeaveCounts(s: State, i: nat, choice: Choice)
    requires i < |s.reqs| && LocalOk(s, s.reqs[i])
    requires s.reqs[i].Leaving? || s.reqs[i].Serving? || s.reqs[i].Finished?
    ensures CountsMove(s, i, choice)
  {
  }

  lemma NextKeepsCounted(s: State, i: nat, choice: Choice)
    requires Inv(s) && i < |s.reqs|
    ensures Counted(Next(s, i, choice)) && CountsMove(s, i, choice)
  {
    var t := Next(s, i, choice);
    match s.reqs[i] {
      case Arrived | FastSlot => EntryCounts(s, i, choice);
      case Busy => BusyCounts(s, i, choice);
      case Counting(_, _) => PeakCounts(s, i, choice);
      case Loaded(_, _, _) => SwapCounts(s, i, choice);
      case Peaked(_) => PeakCounts(s, i, choice);
      case Waiting(_) => QueueCounts(s, i, choice);
      case GotSlot(_) => QueueCounts(s, i, choice);
      case Dequeued(_) => QueueCounts(s, i, choice);
      case Hit(_) => QueueCounts(s, i, choice);
      case Admitted(_) => QueueCounts(s, i, choice);
      case Leaving(_) => LeaveCounts(s, i, choice);
      case Serving(_) => LeaveCounts(s, i, choice);
      case Finished(_, _) => LeaveCounts(s, i, choice);
      case _ => ExitCounts(s, i, choice);
    }
    forall k ensures Counter(t, k) == Total(t.reqs, k) {
      TotalUpdate(s.reqs, i, t.reqs[i], k);
    }
  }

  lemma {:induction false} TotalNonNegative(reqs: seq<Phase>, i: nat, k: Kind)
    requires i < |reqs|
    ensures Total(reqs, k) >= Share(reqs[i], k)
    decreases |reqs|
  {
    if i > 0 {
      TotalNonNegative(reqs[1..], i - 1, k);
    } else if |reqs| > 1 {
      TotalNonNegative(reqs[1..], 0, k);
    }
  }

  // Bounds and the peak.

  lemma NextKeepsBounds(s: State, i: nat, choice: Choice)
    requires Bounded(s) && s.queued >= 0 && i < |s.reqs| && s.slots >= Share(s.reqs[i], Slot)
    ensures Bounded(Next(s, i, choice))
  {
    var t := Next(s, i, choice);
    assert LocalOk(s, s.reqs[i]);
    NextBoundsNumbers(s, i, choice);
    forall j | 0 <= j < |t.reqs| ensures LocalOk(t, t.reqs[j]) {
      if j != i {
        assert LocalOk(s, s.reqs[j]);
      }
    }
  }

  lemma NextBoundsNumbers(s: State, i: nat, choice: Choice)
    requires i < |s.reqs| && s.queued >= 0 && LocalOk(s, s.reqs[i]) && s.slots >= Share(s.reqs[i], Slot)
    requires s.inFlight >= 1 && 0 <= s.slots <= s.inFlight && 0 <= s.peak <= s.deepest
    ensures var t := Next(s, i, choice);
            && t.inFlight == s.inFlight && t.queueLimit == s.queueLimit
            && 0 <= t.slots <= t.inFlight && s.peak <= t.peak <= t.deepest && s.deepest <= t.deepest
            && |t.reqs| == |s.reqs| && (forall j :: 0 <= j < |s.reqs| && j != i ==> t.reqs[j] == s.reqs[j])
            && LocalOk(t, t.reqs[i])
  {
  }

  lemma NextKeepsPeak(s: State, i: nat, choice: Choice)
    requires Bounded(s) && PeakPending(s) && s.queued >= 0 && i < |s.reqs|
    ensures PeakPending(Next(s, i, choice))
  {
    var t := Next(s, i, choice);
    assert LocalOk(s, s.reqs[i]);
    if s.reqs[i].Busy? {
      assert Climbing(t.reqs[i]);
    }
    if s.peak != s.deepest {
      var w :| 0 <= w < |s.reqs| && Climbing(s.reqs[w]) && s.reqs[w].depth == s.deepest;
      if w != i {
        assert t.reqs[w] == s.reqs[w];
      } else if Climbing(t.reqs[i]) {
        assert t.reqs[i].depth == s.deepest;
      }
    }
  }

  // The line of queued requests.

  lemma {:induction false} WithoutAt(line: seq<nat>, i: nat) returns (p: nat)
    requires i in line
    ensures p < |line| && line[p] == i && Without(line, i) == line[..p] + line[p + 1..]
  {
    if line[0] == i {
      p := 0;
    } else {
      var q := WithoutAt(line[1..], i);
      p := q + 1;
    }
  }

  ghost predicate Placed(reqs: seq<Phase>, line: seq<nat>) {
    forall k :: 0 <= k < |line| ==> line[k] < |reqs| && InLine(reqs[line[k]]) && reqs[line[k]].depth >= k + 1
  }

  ghost predicate Distinct(line: seq<nat>) {
    forall j, k :: 0 <= j < k < |line| ==> line[j] != line[k]
  }

  ghost predicate Covers(reqs: seq<Phase>, line: seq<nat>) {
    forall i :: 0 <= i < |reqs| && InLine(reqs[i]) ==> i in line
  }

  lemma JoinLine(reqs: seq<Phase>, line: seq<nat>, i: nat, p: Phase)
    requires Placed(reqs, line) && Distinct(line) && Covers(reqs, line) && i < |reqs| && !InLine(reqs[i])
    requires InLine(p) && p.depth == |line| + 1
    ensures Placed(reqs[i := p], line + [i]) && Distinct(line + [i]) && Covers(reqs[i := p], line + [i])
  {
    forall j | 0 <= j < |reqs| && InLine(reqs[i := p][j]) ensures j in line + [i] {
      if j != i {
        assert j in line;
      } else {
        assert (line + [i])[|line|] == i;
      }
    }
  }

  lemma StayInLine(reqs: seq<Phase>, line: seq<nat>, i: nat, p: Phase)
    requires Placed(reqs, line) && Covers(reqs, line) && i < |reqs| && InLine(reqs[i])
    requires InLine(p) && p.depth == reqs[i].depth
    ensures Placed(reqs[i := p], line) && Covers(reqs[i := p], line)
  {
  }

  lemma StayOutside(reqs: seq<Phase>, line: seq<nat>, i: nat, p: Phase)
    requires Placed(reqs, line) && Covers(reqs, line) && i < |reqs| && !InLine(reqs[i]) && !InLine(p)
    ensures Placed(reqs[i := p], line) && Covers(reqs[i := p], line)
  {
  }

  /** Each request still in line keeps its place or moves up by one. */
  lemma WithoutShifts(line: seq<nat>, i: nat)
    requires i in line && Distinct(line)
    ensures var rest := Without(line, i);
            && |rest| == |line| - 1 && Distinct(rest) && i !in rest
            && (forall k :: 0 <= k < |rest| ==> rest[k] == line[k] || rest[k] == line[k + 1])
            && (forall j :: j in line && j != i ==> j in rest)
  {
    var at := WithoutAt(line, i);
    var rest := Without(line, i);
    forall k | 0 <= k < |rest| ensures rest[k] == if k < at then line[k] else line[k + 1] {
    }
    forall j | j in line && j != i ensures j in rest {
      var k :| 0 <= k < |line| && line[k] == j;
      assert rest[if k < at then k else k - 1] == j;
    }
  }

  lemma LeaveLine(reqs: seq<Phase>, line: seq<nat>, i: nat, p: Phase)
    requires Placed(reqs, line) && Distinct(line) && Covers(reqs, line) && i < |reqs| && InLine(reqs[i]) && !InLine(p)
    ensures var rest := Without(line, i);
            |rest| == |line| - 1 && Placed(reqs[i := p], rest) && Distinct(rest) && Covers(reqs[i := p], rest)
  {
    assert i in line;
    WithoutShifts(line, i);
    var rest := Without(line, i);
    forall k | 0 <= k < |rest|
      ensures rest[k] < |reqs| && InLine(reqs[i := p][rest[k]]) && reqs[i := p][rest[k]].depth >= k + 1
    {
      assert rest[k] in rest;
      assert rest[k] == line[k] || rest[k] == line[k + 1];
    }
  }

  /** How a step moves the line: a joiner sees the depth behind everyone, a leaver is taken out, nobody else moves. */
  ghost predicate LineMoves(s: State, i: nat, t: State)
    requires i < |s.reqs|
  {
    && |t.reqs| == |s.reqs| && t.reqs == s.reqs[i := t.reqs[i]]
    && var p := t.reqs[i];
       if InLine(s.reqs[i]) then
         if InLine(p) then t.line == s.line && t.queued == s.queued && p.depth == s.reqs[i].depth
         else t.line == Without(s.line, i) && t.queued == s.queued - 1
       else if InLine(p) then t.line == s.line + [i] && t.queued == s.queued + 1 && p.depth == t.queued
       else t.line == s.line && t.queued == s.queued
  }

  predicate ChangesLine(p: Phase) { p.Busy? || p.OverLimit? || p.GotSlot? || p.TimedOut? || p.GaveUp? }

  lemma JoinOrLeave(s: State, i: nat, choice: Choice)
    requires i < |s.reqs| && ChangesLine(s.reqs[i])
    ensures LineMoves(s, i, Next(s, i, choice))
  {
  }

  lemma KeepPlace(s: State, i: nat, choice: Choice)
    requires i < |s.reqs| && !ChangesLine(s.reqs[i])
    ensures LineMoves(s, i, Next(s, i, choice))
  {
  }

  lemma NextKeepsLined(s: State, i: nat, choice: Choice)
    requires Lined(s) && i < |s.reqs|
    ensures Lined(Next(s, i, choice))
  {
    if ChangesLine(s.reqs[i]) {
      JoinOrLeave(s, i, choice);
    } else {
      KeepPlace(s, i, choice);
    }
    MovedLineIsLined(s, i, Next(s, i, choice));
  }

  lemma MovedLineIsLined(s: State, i: nat, t: State)
    requires Lined(s) && i < |s.reqs| && LineMoves(s, i, t)
    ensures Lined(t)
  {
    var p := t.reqs[i];
    if InLine(p) {
      if InLine(s.reqs[i]) {
        StayInLine(s.reqs, s.line, i, p);
      } else {
        JoinLine(s.reqs, s.line, i, p);
      }
    } else if InLine(s.reqs[i]) {
      LeaveLine(s.reqs, s.line, i, p);
    } else {
      StayOutside(s.reqs, s.line, i, p);
    }
  }

  // Every run.

  lemma NextKeepsInv(s: State, i: nat, choice: Choice)
    requires Inv(s) && i < |s.reqs|
    ensures Inv(Next(s, i, choice))
  {
    assert Counter(s, Slot) == Total(s.reqs, Slot);
    TotalNonNegative(s.reqs, i, Slot);
    NextKeepsCounted(s, i, choice);
    NextKeepsBounds(s, i, choice);
    NextKeepsPeak(s, i, choice);
    NextKeepsLined(s, i, choice);
  }

  lemma ArriveKeepsInv(s: State)
    requires Inv(s)
    ensures Inv(Apply(s, Arrive))
  {
    var t := Apply(s, Arrive);
    forall k ensures Counter(t, k) == Total(t.reqs, k) {
      assert Counter(t, k) == Counter(s, k);
      TotalAppend(s.reqs, k);
    }
    if s.peak != s.deepest {
      var w :| 0 <= w < |s.reqs| && Climbing(s.reqs[w]) && s.reqs[w].depth == s.deepest;
      assert t.reqs[w] == s.reqs[w];
    }
  }

  lemma NewKeepsInv(inFlight: int, queue: int)
    ensures Inv(New(inFlight, queue))
  {
  }

  lemma {:induction false} RunKeepsInv(s: State, steps: seq<Step>)
    requires Inv(s)
    ensures Inv(Run(s, steps))
    decreases |steps|
  {
    if steps != [] {
      match steps[0] {
        case Arrive => ArriveKeepsInv(s);
        case Advance(i, choice) =>
          if i < |s.reqs| {
            NextKeepsInv(s, i, choice);
          }
      }
      RunKeepsInv(Apply(s, steps[0]), steps[1..]);
    }
  }

  lemma {:induction false} LimitsAreFixed(s: State, steps: seq<Step>)
    ensures Run(s, steps).inFlight == s.inFlight && Run(s, steps).queueLimit == s.queueLimit
    decreases |steps|
  {
    if steps != [] {
      LimitsAreFixed(Apply(s, steps[0]), steps[1..]);
    }
  }

  // What the limiter promises.

  /** Not yet counted anywhere: still on the way to being admitted, shed or abandoned. */
  predicate Undecided(p: Phase) {
    p.Arrived? || p.FastSlot? || p.Busy? || InLine(p) || p.Shedding? || p.Dequeued? || p.Hit? || p.Overdue? || p.Gone?
  }

  /** Counted both as admitted and as abandoned. */
  predicate CountedTwice(p: Phase) { p.Leaving? || (p.Finished? && p.outcome.LeftAfterAdmission?) }

  function UndecidedIn(reqs: seq<Phase>): nat {
    if reqs == [] then 0 else (if Undecided(reqs[0]) then 1 else 0) + UndecidedIn(reqs[1..])
  }

  function CountedTwiceIn(reqs: seq<Phase>): nat {
    if reqs == [] then 0 else (if CountedTwice(reqs[0]) then 1 else 0) + CountedTwiceIn(reqs[1..])
  }

  lemma {:induction false} EveryArrivalIsCounted(reqs: seq<Phase>)
    ensures |reqs| + CountedTwiceIn(reqs) == UndecidedIn(reqs) + Total(reqs, AdmittedCount) + Total(reqs, FullCount)
                                             + Total(reqs, WaitCount) + Total(reqs, AbandonCount)
  {
    if reqs != [] {
      EveryArrivalIsCounted(reqs[1..]);
    }
  }

  ghost function AcceptedIn(reqs: seq<Phase>): set<nat> {
    set i: nat | i < |reqs| && Accepted(reqs[i])
  }

  ghost function Members(line: seq<nat>): set<nat> {
    set i: nat | i in line
  }

  lemma {:induction false} MembersAtMost(line: seq<nat>)
    ensures |Members(line)| <= |line|
  {
    if line == [] {
      assert Members(line) == {};
    } else {
      MembersAtMost(line[1..]);
      assert Members(line) == {line[0]} + Members(line[1..]);
    }
  }

  lemma SubsetIsSmaller(a: set<nat>, b: set<nat>)
    requires a <= b
    ensures |a| <= |b|
  {
    assert b == a + (b - a);
  }

  /** An accepted request saw a depth within the limit, and its place in line is below that depth. */
  lemma QueueIsBounded(s: State)
    requires Bounded(s) && Lined(s)
    ensures |AcceptedIn(s.reqs)| <= s.queueLimit
  {
    var n := if |s.line| < s.queueLimit then |s.line| else s.queueLimit;
    var front := s.line[..n];
    forall i | i in AcceptedIn(s.reqs) ensures i in Members(front) {
      assert LocalOk(s, s.reqs[i]) && i in s.line;
      var k :| 0 <= k < |s.line| && s.line[k] == i;
      assert k < n;
      assert front[k] == i;
    }
    MembersAtMost(front);
    SubsetIsSmaller(AcceptedIn(s.reqs), Members(front));
  }

  lemma CountersConserve(s: State)
    requires Counted(s)
    ensures |s.reqs| + CountedTwiceIn(s.reqs) ==
            UndecidedIn(s.reqs) + s.admitted + s.shedFull + s.shedWait + s.abandoned
    ensures Total(s.reqs, Slot) == s.slots && Total(s.reqs, InQueue) == s.queued
  {
    EveryArrivalIsCounted(s.reqs);
    assert Counter(s, Slot) == Total(s.reqs, Slot) && Counter(s, InQueue) == Total(s.reqs, InQueue);
    assert Counter(s, AdmittedCount) == Total(s.reqs, AdmittedCount);
    assert Counter(s, FullCount) == Total(s.reqs, FullCount);
    assert Counter(s, WaitCount) == Total(s.reqs, WaitCount);
    assert Counter(s, AbandonCount) == Total(s.reqs, AbandonCount);
  }

  lemma RunIsInv(inFlight: int, queue: int, steps: seq<Step>)
    ensures Inv(Run(New(inFlight, queue), steps))
    ensures Run(New(inFlight, queue), steps).inFlight == New(inFlight, queue).inFlight
    ensures Run(New(inFlight, queue), steps).queueLimit == New(inFlight, queue).queueLimit
  {
    NewKeepsInv(inFlight, queue);
    RunKeepsInv(New(inFlight, queue), steps);
    LimitsAreFixed(New(inFlight, queue), steps);
  }

  /** In every run: slot holders within the limit, accepted requests within the queue, every arrival accounted for. */
  lemma EveryRunIsBounded(inFlight: int, queue: int, steps: seq<Step>)
    ensures var s := Run(New(inFlight, queue), steps);
            && Total(s.reqs, Slot) <= New(inFlight, queue).inFlight
            && |AcceptedIn(s.reqs)| <= New(inFlight, queue).queueLimit
            && |s.reqs| + CountedTwiceIn(s.reqs) ==
               UndecidedIn(s.reqs) + s.admitted + s.shedFull + s.shedWait + s.abandoned
  {
    RunIsInv(inFlight, queue, steps);
    QueueIsBounded(Run(New(inFlight, queue), steps));
    CountersConserve(Run(New(inFlight, queue), steps));
  }

  /** A request is shed for a full queue exactly when its own increment exceeded the limit; one that lost the race
      for a slot to the timer or to its client had been accepted. */
  lemma FullIsOwnDepth(inFlight: int, queue: int, steps: seq<Step>, i: nat)
    requires i < |Run(New(inFlight, queue), steps).reqs|
    requires Run(New(inFlight, queue), steps).reqs[i].Finished?
    ensures var p := Run(New(inFlight, queue), steps).reqs[i];
            p.outcome.ShedFull? <==> p.depth > New(inFlight, queue).queueLimit
  {
    RunIsInv(inFlight, queue, steps);
    var s := Run(New(inFlight, queue), steps);
    assert LocalOk(s, s.reqs[i]);
  }

  /** Request `i` is on its way out because its wait expired. */
  predicate WaitedTooLong(s: State, i: nat) {
    && i < |s.reqs|
    && (s.reqs[i].TimedOut? || s.reqs[i].Overdue? || (s.reqs[i].Finished? && s.reqs[i].outcome.ShedWait?))
  }

  /** Request `i` is on its way out because its client went. */
  predicate WasLeft(s: State, i: nat) {
    && i < |s.reqs|
    && (s.reqs[i].GaveUp? || s.reqs[i].Gone? || s.reqs[i].Leaving? ||
        (s.reqs[i].Finished? && (s.reqs[i].outcome.Abandoned? || s.reqs[i].outcome.LeftAfterAdmission?)))
  }

  /** Nobody is shed for waiting but by the timer, and nobody counted as gone whose client did not go. */
  lemma {:induction false} OnlyTheTimerSheds(s: State, steps: seq<Step>, i: nat)
    ensures WaitedTooLong(Run(s, steps), i) && !WaitedTooLong(s, i) ==>
              exists k :: 0 <= k < |steps| && steps[k] == Advance(i, Expire)
    ensures WasLeft(Run(s, steps), i) && !WasLeft(s, i) ==>
              exists k :: 0 <= k < |steps| && steps[k] == Advance(i, Cancel)
    decreases |steps|
  {
    if steps != [] {
      var t := Apply(s, steps[0]);
      OnlyTheTimerSheds(t, steps[1..], i);
      assert forall k :: 0 <= k < |steps[1..]| ==> steps[1..][k] == steps[k + 1];
      assert WaitedTooLong(t, i) && !WaitedTooLong(s, i) ==> steps[0] == Advance(i, Expire);
      assert WasLeft(t, i) && !WasLeft(s, i) ==> steps[0] == Advance(i, Cancel);
    }
  }

  function Proceeds(i: nat, n: nat): seq<Step> {
    if n == 0 then [] else [Advance(i, Proceed)] + Proceeds(i, n - 1)
  }

  lemma ProceedsOnce(s: State, i: nat, n: nat)
    requires i < |s.reqs| && n > 0
    ensures Run(s, Proceeds(i, n)) == Run(Next(s, i, Proceed), Proceeds(i, n - 1))
  {
    assert Proceeds(i, n)[1..] == Proceeds(i, n - 1);
  }

  /** A newcomer who finds a slot free is served at once and gives the slot back. */
  lemma NewcomerIsServed(s: State, i: nat)
    requires i < |s.reqs| && s.reqs[i].Arrived? && s.slots < s.inFlight
    ensures Run(s, Proceeds(i, 3)) == s.(reqs := s.reqs[i := Finished(Served, 0)], admitted := s.admitted + 1)
  {
    var s1 := Next(s, i, Proceed);
    var s2 := Next(s1, i, Proceed);
    ProceedsOnce(s, i, 3);
    ProceedsOnce(s1, i, 2);
    ProceedsOnce(s2, i, 1);
    assert Next(s2, i, Proceed).reqs == s.reqs[i := Finished(Served, 0)];
  }

  lemma WaiterIsDequeued(s: State, i: nat, depth: int)
    requires i < |s.reqs| && s.reqs[i] == Waiting(depth) && s.slots < s.inFlight
    ensures Next(Next(s, i, Proceed), i, Proceed) ==
              s.(reqs := s.reqs[i := Dequeued(depth)], slots := s.slots + 1, queued := s.queued - 1,
                 line := Without(s.line, i))
  {
    assert s.reqs[i := GotSlot(depth)][i := Dequeued(depth)] == s.reqs[i := Dequeued(depth)];
  }

  lemma DequeuedIsAdmitted(s: State, i: nat, depth: int)
    requires i < |s.reqs| && s.reqs[i] == Dequeued(depth)
    ensures Next(Next(s, i, Proceed), i, Proceed) ==
              s.(reqs := s.reqs[i := Admitted(depth)], queueHit := s.queueHit + 1, admitted := s.admitted + 1)
  {
    assert s.reqs[i := Hit(depth)][i := Admitted(depth)] == s.reqs[i := Admitted(depth)];
  }

  lemma AdmittedIsServed(s: State, i: nat, depth: int)
    requires i < |s.reqs| && s.reqs[i] == Admitted(depth)
    ensures Next(Next(s, i, Proceed), i, Proceed) ==
              s.(reqs := s.reqs[i := Finished(Served, depth)], slots := s.slots - 1)
  {
    assert s.reqs[i := Serving(depth)][i := Finished(Served, depth)] == s.reqs[i := Finished(Served, depth)];
  }

  lemma ProceedsTwice(s: State, i: nat, n: nat, t: State)
    requires i < |s.reqs| && n > 1 && t == Next(Next(s, i, Proceed), i, Proceed)
    ensures Run(s, Proceeds(i, n)) == Run(t, Proceeds(i, n - 2))
  {
    ProceedsOnce(s, i, n);
    ProceedsOnce(Next(s, i, Proceed), i, n - 1);
  }

  /** One who waits is served when a slot is free, leaves the queue and gives the slot back. */
  lemma WaiterIsServed(s: State, i: nat, depth: int)
    requires i < |s.reqs| && s.reqs[i] == Waiting(depth) && s.slots < s.inFlight
    ensures Run(s, Proceeds(i, 6)) ==
              s.(reqs := s.reqs[i := Finished(Served, depth)], queued := s.queued - 1, line := Without(s.line, i),
                 queueHit := s.queueHit + 1, admitted := s.admitted + 1)
  {
    var out := s.(reqs := s.reqs[i := Dequeued(depth)], slots := s.slots + 1, queued := s.queued - 1,
                  line := Without(s.line, i));
    var inside := out.(reqs := out.reqs[i := Admitted(depth)], queueHit := s.queueHit + 1, admitted := s.admitted + 1);
    var done := inside.(reqs := inside.reqs[i := Finished(Served, depth)], slots := s.slots);
    WaiterIsDequeued(s, i, depth);
    DequeuedIsAdmitted(out, i, depth);
    AdmittedIsServed(inside, i, depth);
    ProceedsTwice(s, i, 6, out);
    ProceedsTwice(out, i, 4, inside);
    ProceedsTwice(inside, i, 2, done);
    assert done.reqs == s.reqs[i := Finished(Served, depth)];
  }

  function DeepestQueue(s: State, steps: seq<Step>): int
    decreases |steps|
  {
    if steps == [] then s.queued
    else
      var later := DeepestQueue(Apply(s, steps[0]), steps[1..]);
      if later > s.queued then later else s.queued
  }

  lemma ApplyRecordsDeepest(s: State, step: Step)
    requires s.queued <= s.deepest
    ensures var t := Apply(s, step); t.deepest == if t.queued > s.deepest then t.queued else s.deepest
  {
  }

  lemma {:induction false} DeepestIsReached(s: State, steps: seq<Step>)
    requires s.queued <= s.deepest
    ensures var d := DeepestQueue(s, steps); Run(s, steps).deepest == if d > s.deepest then d else s.deepest
    decreases |steps|
  {
    if steps != [] {
      ApplyRecordsDeepest(s, steps[0]);
      DeepestIsReached(Apply(s, steps[0]), steps[1..]);
    }
  }

  ghost predicate Quiet(s: State) {
    forall i :: 0 <= i < |s.reqs| ==> s.reqs[i].Finished?
  }

  lemma {:induction false} QuietTotals(reqs: seq<Phase>)
    requires forall i :: 0 <= i < |reqs| ==> reqs[i].Finished?
    ensures Total(reqs, Slot) == 0 && Total(reqs, InQueue) == 0 && UndecidedIn(reqs) == 0
  {
    if reqs != [] {
      QuietTotals(reqs[1..]);
    }
  }

  /** Once every request has finished, nothing is held, everything is counted, and the recorded peak is the
      greatest depth the queue counter ever reached. */
  lemma QuietIsClean(inFlight: int, queue: int, steps: seq<Step>)
    requires Quiet(Run(New(inFlight, queue), steps))
    ensures var s := Run(New(inFlight, queue), steps);
            && s.slots == 0 && s.queued == 0
            && s.peak == DeepestQueue(New(inFlight, queue), steps)
            && |s.reqs| + CountedTwiceIn(s.reqs) == s.admitted + s.shedFull + s.shedWait + s.abandoned
  {
    var s := Run(New(inFlight, queue), steps);
    RunIsInv(inFlight, queue, steps);
    CountersConserve(s);
    QuietTotals(s.reqs);
    DeepestIsReached(New(inFlight, queue), steps);
    DeepestIsNatural(New(inFlight, queue), steps);
    assert s.peak == s.deepest;
  }

  lemma DeepestIsNatural(s: State, steps: seq<Step>)
    ensures DeepestQueue(s, steps) >= s.queued
  {
  }

  /** A failed swap means somebody else raised the peak, so the gap this request still has to climb shrank; over its
      whole life a request retries fewer times than its depth. */
  lemma RetriesClimb(inFlight: int, queue: int, steps: seq<Step>, i: nat, choice: Choice)
    requires i < |Run(New(inFlight, queue), steps).reqs|
    requires Run(New(inFlight, queue), steps).reqs[i].Loaded?
    ensures var s := Run(New(inFlight, queue), steps); var p := s.reqs[i]; var t := Next(s, i, choice);
            && p.retries <= p.depth
            && (t.reqs[i].Counting? ==> 0 < p.depth - s.peak < p.depth - p.seen || t.peak >= p.depth)
  {
    RunIsInv(inFlight, queue, steps);
    var s := Run(New(inFlight, queue), steps);
    assert LocalOk(s, s.reqs[i]);
  }

  lemma {:induction false} RunAppended(s: State, a: seq<Step>, b: seq<Step>)
    ensures Run(s, a + b) == Run(Run(s, a), b)
    decreases |a|
  {
    if a == [] {
      assert a + b == b;
    } else {
      assert (a + b)[1..] == a[1..] + b;
      RunAppended(Apply(s, a[0]), a[1..], b);
    }
  }

  lemma RunOne(s: State, step: Step)
    ensures Run(s, [step]) == Apply(s, step)
  {
    assert Run(s, [step]) == Run(Apply(s, step), []);
  }

  /** One more arrival takes a slot while there is one. */
  lemma TakeSlot(s: State, steps: seq<Step>) returns (more: seq<Step>)
    ensures var t := Run(s, steps);
            t.slots < t.inFlight ==>
              Run(s, more) == t.(reqs := t.reqs + [FastSlot], slots := t.slots + 1)
  {
    var t := Run(s, steps);
    var step := Advance(|t.reqs|, Proceed);
    more := steps + [Arrive] + [step];
    RunAppended(s, steps, [Arrive]);
    RunOne(t, Arrive);
    RunAppended(s, steps + [Arrive], [step]);
    RunOne(Apply(t, Arrive), step);
    assert (t.reqs + [Arrived])[|t.reqs| := FastSlot] == t.reqs + [FastSlot];
  }

  /** One more arrival is counted as queued when there is none, before it looks at the limit. */
  lemma CountOne(s: State, steps: seq<Step>) returns (more: seq<Step>)
    ensures var t := Run(s, steps);
            t.slots >= t.inFlight ==>
              var u := Run(s, more); u.queued == t.queued + 1 && u.slots == t.slots && u.inFlight == t.inFlight
  {
    var t := Run(s, steps);
    var step := Advance(|t.reqs|, Proceed);
    more := steps + [Arrive] + [step] + [step];
    RunAppended(s, steps, [Arrive]);
    RunOne(t, Arrive);
    RunAppended(s, steps + [Arrive], [step]);
    RunOne(Apply(t, Arrive), step);
    RunAppended(s, steps + [Arrive] + [step], [step]);
    RunOne(Run(s, steps + [Arrive] + [step]), step);
  }

  /** Whatever the limits, the queue counter itself can reach any value at all: it is raised before the limit is
      looked at. */
  lemma CounterOvershoots(inFlight: int, queue: int, m: nat) returns (steps: seq<Step>)
    ensures Run(New(inFlight, queue), steps).queued == m
  {
    var s := New(inFlight, queue);
    steps := [];
    LimitsAreFixed(s, steps);
    while Run(s, steps).slots < s.inFlight
      invariant Run(s, steps).inFlight == s.inFlight && Run(s, steps).queued == 0
      decreases s.inFlight - Run(s, steps).slots
    {
      steps := TakeSlot(s, steps);
      LimitsAreFixed(s, steps);
    }
    var k := 0;
    while k < m
      invariant k <= m && Run(s, steps).queued == k
      invariant Run(s, steps).slots >= Run(s, steps).inFlight
    {
      steps := CountOne(s, steps);
      k := k + 1;
    }
  }

  /** The limiter's configuration and its peak counter, as one goroutine sees them. */
  class Limiter {
    const inFlight: int
    const queue: int
    const maxWaitMillis: int
    var peakQ: int

    constructor (inFlight: int, queue: int, maxWaitMillis: int)
      ensures this.inFlight == New(inFlight, queue).inFlight && this.queue == New(inFlight, queue).queueLimit
      ensures this.maxWaitMillis == if maxWaitMillis > 0 then maxWaitMillis else 50
      ensures peakQ == 0
    {
      this.inFlight := if inFlight < 1 then 1 else inFlight;
      this.queue := if queue < 0 then 0 else queue;
      this.maxWaitMillis := if maxWaitMillis <= 0 then 50 else maxWaitMillis;
      peakQ := 0;
    }

    /** `others` are depths that concurrent callers swap in, one between each load and the swap that follows. */
    method RecordPeak(depth: int, others: seq<int>) returns (retries: nat)
      modifies this
      ensures peakQ >= depth && peakQ >= old(peakQ)
      ensures peakQ == old(peakQ) || peakQ == depth || peakQ in others
      ensures retries == 0 || retries <= depth - old(peakQ)
    {
      retries := 0;
      while true
        invariant peakQ >= old(peakQ) + retries
        invariant peakQ == old(peakQ) || peakQ in others
        invariant retries == 0 || retries <= depth - old(peakQ)
        decreases depth - peakQ
      {
        var peak := peakQ;
        if depth <= peak {
          return;
        }
        if retries < |others| && others[retries] > peakQ {
          peakQ := others[retries];
        }
        if peakQ == peak {
          peakQ := depth;
          return;
        }
        retries := retries + 1;
      }
    }
  }
}
