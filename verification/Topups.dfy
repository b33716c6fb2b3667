/** Top-ups and the provider callbacks that settle them, one callback at a time.
    Recording a callback and acting on it are two transactions; either may fail. */
module Topups {
  import opened Wrappers
  import opened Ledger
  import Accounts
  import Movements
  import Services
  import Wallet

  const MIN_TOPUP := 1_000_000
  const MAX_TOPUP := 2_000_000_000
  const RETAIL_FEE := 250_000

  datatype Status = Pending | Succeeded | Failed

  /** A top-up's id is its position in the table. */
  datatype Topup = Topup(user: string, provider: string, amount: int, adminFee: int, status: Status,
                         providerRef: Option<string>)

  datatype Callback = Callback(provider: string, ref: string, topup: nat, amount: int, outcome: string)

  /** What the database makes of the two transactions a callback leads to. */
  datatype Verdict = Verdict(records: bool, commits: bool)

  datatype Transition = Transition(topup: nat, to: Status)

  datatype State = State(topups: seq<Topup>, seen: set<(string, string, string)>, log: seq<Entry>,
                         transitions: seq<Transition>)

  function AdminFee(source: string): Option<int> {
    if source == "bank_va" then Some(0) else if source == "retail" then Some(RETAIL_FEE) else None
  }

  function KeyOf(cb: Callback): (string, string, string) { (cb.provider, cb.ref, "topup." + cb.outcome) }

  function PostingFor(t: Topup, txId: string): Result<Posting, Error> {
    Movements.NewTopup(txId, Accounts.ProviderClearing(t.provider), Accounts.UserWallet(t.user),
                       Accounts.PlatformFeeRevenue(), t.amount, t.adminFee)
  }

  /** One provider reference settles one top-up of that provider. */
  predicate RefTaken(topups: seq<Topup>, provider: string, ref: string) {
    exists i :: 0 <= i < |topups| && topups[i].provider == provider && topups[i].providerRef == Some(ref)
  }

  function Finish(s: State, i: nat, status: Status, ref: Option<string>): State
    requires i < |s.topups|
  {
    s.(topups := s.topups[i := s.topups[i].(status := status, providerRef := ref)],
       transitions := s.transitions + [Transition(i, status)])
  }

  /** Acting on a callback that has just been recorded. */
  function Acted(s: State, cb: Callback, commits: bool, txId: string): State {
    if cb.topup >= |s.topups| then s
    else
      var t := s.topups[cb.topup];
      if !t.status.Pending? then s
      else if cb.outcome != "success" then (if commits then Finish(s, cb.topup, Failed, None) else s)
      else if t.amount != cb.amount then s
      else
        match PostingFor(t, txId)
        case Err(_) => s
        case Ok(p) =>
          if commits && !RefTaken(s.topups, t.provider, cb.ref)
          then Finish(s, cb.topup, Succeeded, Some(cb.ref)).(log := s.log + p.entries)
          else s
  }

  function Confirmed(s: State, cb: Callback, v: Verdict, txId: string): State {
    if !v.records || KeyOf(cb) in s.seen then s
    else Acted(s.(seen := s.seen + {KeyOf(cb)}), cb, v.commits, txId)
  }

  /** `admitted` stands for the checks on the user, who exists and so has an id. */
  predicate MayCreate(user: string, source: string, provider: string, amount: int, currency: string, admitted: bool) {
    user != "" && amount > 0 && currency == "IDR" && admitted && AdminFee(source).Some? && provider != "" &&
      MIN_TOPUP <= amount <= MAX_TOPUP
  }

  function Created(s: State, user: string, source: string, provider: string, amount: int, currency: string,
                   admitted: bool): State {
    if MayCreate(user, source, provider, amount, currency, admitted)
    then s.(topups := s.topups + [Topup(user, provider, amount, AdminFee(source).value, Pending, None)])
    else s
  }

  /** A top-up is created exactly for an admitted user, a known source, some provider and an amount in rupiah within the
      limits; it starts pending, with the fee of its source and no reference. */
  lemma CreatedIff(s: State, user: string, source: string, provider: string, amount: int, currency: string,
                   admitted: bool)
    ensures var t := Created(s, user, source, provider, amount, currency, admitted);
            var fits := user != "" && currency == "IDR" && admitted && source in ["bank_va", "retail"] &&
                        provider != "" && MIN_TOPUP <= amount <= MAX_TOPUP;
            t == s.(topups := t.topups) &&
            t.topups == s.topups + if !fits then []
                                   else [Topup(user, provider, amount, if source == "retail" then RETAIL_FEE else 0,
                                               Pending, None)]
  {
    assert s.topups + [] == s.topups;
  }

  /** Transaction ids are never empty. */
  datatype Step =
    | Create(user: string, source: string, provider: string, amount: int, currency: string, admitted: bool)
    | Confirm(cb: Callback, v: Verdict, txId: string)

  function Next(s: State, step: Step): State {
    match step
    case Create(user, source, provider, amount, currency, admitted) =>
      Created(s, user, source, provider, amount, currency, admitted)
    case Confirm(cb, v, txId) => if txId != "" then Confirmed(s, cb, v, txId) else s
  }

  function Run(s: State, steps: seq<Step>): State
    decreases |steps|
  {
    if steps == [] then s else Run(Next(s, steps[0]), steps[1..])
  }

  // What the table says the ledger should hold.

  /** A succeeded top-up moved its amount to the wallet and its fee to the platform; any other moved nothing. */
  function EffectOf(t: Topup, account: string): int {
    if t.status.Succeeded?
    then Movements.Flow(account, Accounts.ProviderClearing(t.provider), t.amount + t.adminFee,
                        Accounts.UserWallet(t.user), t.amount, Accounts.PlatformFeeRevenue(), t.adminFee)
    else 0
  }

  function Effects(topups: seq<Topup>, account: string): int {
    if topups == [] then 0 else EffectOf(topups[0], account) + Effects(topups[1..], account)
  }

  /** The recorded transitions of one top-up, in order. */
  function History(transitions: seq<Transition>, i: nat): seq<Status> {
    if transitions == [] then []
    else
      var before := History(transitions[..|transitions| - 1], i);
      var last := transitions[|transitions| - 1];
      if last.topup == i then before + [last.to] else before
  }

  ghost predicate Booked(topups: seq<Topup>, log: seq<Entry>, opening: seq<Entry>) {
    SumOf(log) == 0 && forall a :: Delta(log, a) == Delta(opening, a) + Effects(topups, a)
  }

  predicate RowOk(t: Topup) {
    && t.user != "" && MIN_TOPUP <= t.amount <= MAX_TOPUP && t.adminFee >= 0
    && (t.providerRef.Some? <==> t.status.Succeeded?)
  }

  ghost predicate RefsUnique(topups: seq<Topup>) {
    forall i, j :: 0 <= i < j < |topups| && topups[i].provider == topups[j].provider && topups[i].providerRef.Some? ==>
      topups[i].providerRef != topups[j].providerRef
  }

  /** The history a row in this state must have: it left pending at most once. */
  function Expected(status: Status): seq<Status> {
    if status.Pending? then [] else [status]
  }

  ghost predicate Traced(topups: seq<Topup>, transitions: seq<Transition>) {
    && (forall i :: 0 <= i < |topups| ==> History(transitions, i) == Expected(topups[i].status))
    && (forall k :: 0 <= k < |transitions| ==> transitions[k].topup < |topups|)
  }

  ghost predicate Inv(s: State, opening: seq<Entry>) {
    && (forall i :: 0 <= i < |s.topups| ==> RowOk(s.topups[i]))
    && Booked(s.topups, s.log, opening) && RefsUnique(s.topups) && Traced(s.topups, s.transitions)
  }

  lemma {:induction false} EffectsAfter(topups: seq<Topup>, i: nat, t: Topup, a: string)
    requires i < |topups|
    ensures Effects(topups[i := t], a) == Effects(topups, a) - EffectOf(topups[i], a) + EffectOf(t, a)
  {
    if i == 0 {
      assert topups[i := t][1..] == topups[1..];
    } else {
      assert topups[i := t][1..] == topups[1..][i - 1 := t];
      EffectsAfter(topups[1..], i - 1, t, a);
    }
  }

  lemma {:induction false} EffectsOfNew(topups: seq<Topup>, t: Topup, a: string)
    requires t.status.Pending?
    ensures Effects(topups + [t], a) == Effects(topups, a)
  {
    if topups == [] {
      assert (topups + [t])[1..] == [];
    } else {
      assert (topups + [t])[1..] == topups[1..] + [t];
      EffectsOfNew(topups[1..], t, a);
    }
  }

  lemma HistoryAfter(transitions: seq<Transition>, tr: Transition, i: nat)
    ensures History(transitions + [tr], i) == History(transitions, i) + if tr.topup == i then [tr.to] else []
  {
    assert (transitions + [tr])[..|transitions|] == transitions;
  }

  lemma {:induction false} NoHistoryYet(transitions: seq<Transition>, i: nat)
    requires forall k :: 0 <= k < |transitions| ==> transitions[k].topup < i
    ensures History(transitions, i) == []
  {
    if transitions != [] {
      NoHistoryYet(transitions[..|transitions| - 1], i);
    }
  }

  lemma FinishIsTraced(s: State, i: nat, status: Status, ref: Option<string>)
    requires Traced(s.topups, s.transitions) && i < |s.topups| && s.topups[i].status.Pending? && !status.Pending?
    ensures Traced(Finish(s, i, status, ref).topups, Finish(s, i, status, ref).transitions)
  {
    var t := Finish(s, i, status, ref);
    forall j | 0 <= j < |t.topups| ensures History(t.transitions, j) == Expected(t.topups[j].status) {
      HistoryAfter(s.transitions, Transition(i, status), j);
    }
  }

  lemma SucceedIsBooked(s: State, i: nat, ref: string, txId: string, opening: seq<Entry>)
    requires Booked(s.topups, s.log, opening) && i < |s.topups| && s.topups[i].status.Pending? && txId != ""
    requires PostingFor(s.topups[i], txId).Ok?
    ensures Booked(Finish(s, i, Succeeded, Some(ref)).topups, s.log + PostingFor(s.topups[i], txId).value.entries,
                   opening)
  {
    var t := s.topups[i];
    var p := PostingFor(t, txId).value;
    var done := t.(status := Succeeded, providerRef := Some(ref));
    Services.ProviderNames(t.user, t.provider);
    Movements.TopupEffect(txId, Accounts.ProviderClearing(t.provider), Accounts.UserWallet(t.user),
                          Accounts.PlatformFeeRevenue(), t.amount, t.adminFee);
    PostingConserves(s.log, p);
    forall a ensures Delta(s.log + p.entries, a) == Delta(opening, a) + Effects(s.topups[i := done], a) {
      EffectsAfter(s.topups, i, done, a);
    }
  }

  lemma FailIsBooked(s: State, i: nat, opening: seq<Entry>)
    requires Booked(s.topups, s.log, opening) && i < |s.topups| && s.topups[i].status.Pending?
    ensures Booked(Finish(s, i, Failed, None).topups, s.log, opening)
  {
    var done := s.topups[i].(status := Failed, providerRef := None);
    forall a ensures Effects(s.topups[i := done], a) == Effects(s.topups, a) {
      EffectsAfter(s.topups, i, done, a);
    }
  }

  lemma SucceedKeepsInv(s: State, i: nat, ref: string, txId: string, opening: seq<Entry>)
    requires Inv(s, opening) && txId != "" && i < |s.topups| && s.topups[i].status.Pending?
    requires PostingFor(s.topups[i], txId).Ok? && !RefTaken(s.topups, s.topups[i].provider, ref)
    ensures Inv(Finish(s, i, Succeeded, Some(ref)).(log := s.log + PostingFor(s.topups[i], txId).value.entries),
                opening)
  {
    SucceedIsBooked(s, i, ref, txId, opening);
    FinishIsTraced(s, i, Succeeded, Some(ref));
  }

  lemma FailKeepsInv(s: State, i: nat, opening: seq<Entry>)
    requires Inv(s, opening) && i < |s.topups| && s.topups[i].status.Pending?
    ensures Inv(Finish(s, i, Failed, None), opening)
  {
    FailIsBooked(s, i, opening);
    FinishIsTraced(s, i, Failed, None);
  }

  lemma ConfirmKeepsInv(s: State, cb: Callback, v: Verdict, txId: string, opening: seq<Entry>)
    requires Inv(s, opening) && txId != ""
    ensures Inv(Confirmed(s, cb, v, txId), opening)
  {
    var recorded := s.(seen := s.seen + {KeyOf(cb)});
    var i := cb.topup;
    if Confirmed(s, cb, v, txId) != s && Acted(recorded, cb, v.commits, txId) != recorded {
      if cb.outcome == "success" {
        SucceedKeepsInv(recorded, i, cb.ref, txId, opening);
      } else {
        FailKeepsInv(recorded, i, opening);
      }
    }
  }

  lemma CreateKeepsInv(s: State, user: string, source: string, provider: string, amount: int, currency: string,
                       admitted: bool, opening: seq<Entry>)
    requires Inv(s, opening)
    ensures Inv(Created(s, user, source, provider, amount, currency, admitted), opening)
  {
    if MayCreate(user, source, provider, amount, currency, admitted) {
      var t := Topup(user, provider, amount, AdminFee(source).value, Pending, None);
      NoHistoryYet(s.transitions, |s.topups|);
      forall a ensures Effects(s.topups + [t], a) == Effects(s.topups, a) {
        EffectsOfNew(s.topups, t, a);
      }
    }
  }

  lemma {:induction false} RunKeepsInv(s: State, steps: seq<Step>, opening: seq<Entry>)
    requires Inv(s, opening)
    ensures Inv(Run(s, steps), opening)
    decreases |steps|
  {
    if steps != [] {
      match steps[0] {
        case Create(user, source, provider, amount, currency, admitted) =>
          CreateKeepsInv(s, user, source, provider, amount, currency, admitted, opening);
        case Confirm(cb, v, txId) =>
          if txId != "" {
            ConfirmKeepsInv(s, cb, v, txId, opening);
          }
      }
      RunKeepsInv(Next(s, steps[0]), steps[1..], opening);
    }
  }

  // What one callback does.

  /** The callback is the first of its provider, reference and outcome, it is recorded, and it finds its top-up
      pending. */
  predicate Reaches(s: State, cb: Callback, v: Verdict) {
    && v.records && (cb.provider, cb.ref, "topup." + cb.outcome) !in s.seen
    && cb.topup < |s.topups| && s.topups[cb.topup].status.Pending?
  }

  /** It reports success, of exactly the amount expected and under a reference that settled nothing yet. The amounts
      are such that a posting can be made of them, as every row's are. */
  predicate Matches(s: State, cb: Callback) {
    && cb.outcome == "success" && cb.topup < |s.topups| && s.topups[cb.topup].amount == cb.amount
    && cb.amount > 0 && s.topups[cb.topup].adminFee >= 0
    && forall i :: 0 <= i < |s.topups| ==>
         s.topups[i].provider != s.topups[cb.topup].provider || s.topups[i].providerRef != Some(cb.ref)
  }

  function SettledRow(t: Topup, ref: string): Topup { t.(status := Succeeded, providerRef := Some(ref)) }

  function FailedRow(t: Topup): Topup { t.(status := Failed, providerRef := None) }

  ghost predicate Credited(before: seq<Entry>, after: seq<Entry>, t: Topup) {
    && before <= after && SumOf(after) == SumOf(before)
    && forall a :: Delta(after, a) == Delta(before, a) +
         Movements.Flow(a, Accounts.ProviderClearing(t.provider), t.amount + t.adminFee,
                        Accounts.UserWallet(t.user), t.amount, Accounts.PlatformFeeRevenue(), t.adminFee)
  }

  lemma MatchIsNotTaken(s: State, cb: Callback)
    requires cb.topup < |s.topups|
    ensures Matches(s, cb) <==> cb.outcome == "success" && s.topups[cb.topup].amount == cb.amount && cb.amount > 0 &&
                                s.topups[cb.topup].adminFee >= 0 &&
                                !RefTaken(s.topups, s.topups[cb.topup].provider, cb.ref)
  {
  }

  lemma PostingCredits(t: Topup, log: seq<Entry>, txId: string)
    requires SumOf(log) == 0 && txId != ""
    ensures PostingFor(t, txId).Ok? <==> t.amount > 0 && t.adminFee >= 0
    ensures PostingFor(t, txId).Ok? ==> Credited(log, log + PostingFor(t, txId).value.entries, t)
  {
    Services.ProviderNames(t.user, t.provider);
    Movements.TopupEffect(txId, Accounts.ProviderClearing(t.provider), Accounts.UserWallet(t.user),
                          Accounts.PlatformFeeRevenue(), t.amount, t.adminFee);
    if PostingFor(t, txId).Ok? {
      PostingConserves(log, PostingFor(t, txId).value);
    }
  }

  /** A pending top-up succeeds exactly by a callback that reaches it, matches it and commits, and then the wallet is
      credited; it fails exactly by one that reaches it with another outcome and commits; otherwise nothing changes but
      that a recorded callback counts as seen. */
  lemma ConfirmedIff(s: State, cb: Callback, v: Verdict, txId: string)
    requires SumOf(s.log) == 0 && txId != ""
    ensures var t := Confirmed(s, cb, v, txId);
            var succeeds := Reaches(s, cb, v) && v.commits && Matches(s, cb);
            var fails := Reaches(s, cb, v) && v.commits && cb.outcome != "success";
            && t.seen == (if v.records then s.seen + {(cb.provider, cb.ref, "topup." + cb.outcome)} else s.seen)
            && (succeeds ==> t.topups == s.topups[cb.topup := SettledRow(s.topups[cb.topup], cb.ref)]
                             && Credited(s.log, t.log, s.topups[cb.topup])
                             && t.transitions == s.transitions + [Transition(cb.topup, Succeeded)])
            && (fails ==> t.topups == s.topups[cb.topup := FailedRow(s.topups[cb.topup])]
                          && t.log == s.log && t.transitions == s.transitions + [Transition(cb.topup, Failed)])
            && (!succeeds && !fails ==> t.topups == s.topups && t.log == s.log && t.transitions == s.transitions)
  {
    if Reaches(s, cb, v) {
      MatchIsNotTaken(s, cb);
      PostingCredits(s.topups[cb.topup], s.log, txId);
    } else if v.records && KeyOf(cb) in s.seen {
      assert s.seen + {KeyOf(cb)} == s.seen;
    }
  }

  /** Step `k` of a run is the recorded and committed callback that gave row `i` its outcome: a success of exactly its
      amount under its reference, or a report of something else. */
  predicate SettledBy(steps: seq<Step>, k: nat, i: nat, t: Topup) {
    && k < |steps| && steps[k].Confirm? && steps[k].cb.topup == i && steps[k].v.records && steps[k].v.commits
    && match t.status
       case Pending => false
       case Succeeded =>
         steps[k].cb.outcome == "success" && steps[k].cb.amount == t.amount && t.providerRef == Some(steps[k].cb.ref)
       case Failed => steps[k].cb.outcome != "success"
  }

  lemma StepSettles(s: State, step: Step, i: nat, opening: seq<Entry>)
    requires Inv(s, opening) && i < |Next(s, step).topups| && !Next(s, step).topups[i].status.Pending?
    ensures (i < |s.topups| && !s.topups[i].status.Pending?) || SettledBy([step], 0, i, Next(s, step).topups[i])
  {
    if step.Confirm? && step.txId != "" {
      ConfirmedIff(s, step.cb, step.v, step.txId);
    }
  }

  /** No top-up is settled but by a callback: every succeeded one had a success of exactly its amount, and every failed
      one a report of another outcome. */
  lemma {:induction false} EverySettlementHadItsCallback(s: State, steps: seq<Step>, i: nat, opening: seq<Entry>)
    returns (k: nat)
    requires Inv(s, opening) && i < |Run(s, steps).topups| && !Run(s, steps).topups[i].status.Pending?
    requires i < |s.topups| ==> s.topups[i].status.Pending?
    ensures SettledBy(steps, k, i, Run(s, steps).topups[i])
    decreases |steps|
  {
    var t := Next(s, steps[0]);
    RunKeepsInv(s, [steps[0]], opening);
    assert [steps[0]][1..] == [] && Run(s, [steps[0]]) == t;
    if i < |t.topups| && !t.topups[i].status.Pending? {
      StepSettles(s, steps[0], i, opening);
      SettledIsFinal(t, steps[1..], i);
      k := 0;
    } else {
      var j := EverySettlementHadItsCallback(t, steps[1..], i, opening);
      k := j + 1;
    }
  }

  // What a top-up promises.

  function Bought(topups: seq<Topup>, user: string): int {
    if topups == [] then 0
    else if topups[0].status.Succeeded? && topups[0].user == user then topups[0].amount + Bought(topups[1..], user)
    else Bought(topups[1..], user)
  }

  lemma EffectOnWallet(t: Topup, user: string)
    requires t.user != "" && user != ""
    ensures EffectOf(t, Accounts.UserWallet(user)) == if t.status.Succeeded? && t.user == user then t.amount else 0
  {
    Services.ProviderNames(user, t.provider);
    if Accounts.UserWallet(t.user) == Accounts.UserWallet(user) {
      Accounts.WalletsAreDistinct(t.user, user);
    }
  }

  lemma {:induction false} EffectsOnWallet(topups: seq<Topup>, user: string)
    requires user != "" && forall i :: 0 <= i < |topups| ==> topups[i].user != ""
    ensures Effects(topups, Accounts.UserWallet(user)) == Bought(topups, user)
  {
    if topups != [] {
      EffectOnWallet(topups[0], user);
      EffectsOnWallet(topups[1..], user);
    }
  }

  /** Whatever callbacks arrive, how often and in what order: a wallet has gained the amount of each of its succeeded
      top-ups once, and nothing else; each top-up left pending in one recorded step or not at all, and the step was a
      callback that reported this outcome, and a success of exactly this amount. */
  lemma EveryRunCreditsOnce(opening: seq<Entry>, steps: seq<Step>, user: string, i: nat)
    requires SumOf(opening) == 0 && user != ""
    ensures var s := Run(State([], {}, opening, []), steps);
            && Delta(s.log, Accounts.UserWallet(user)) ==
               Delta(opening, Accounts.UserWallet(user)) + Bought(s.topups, user)
            && SumOf(s.log) == 0
            && (i < |s.topups| ==>
                  && History(s.transitions, i) == Expected(s.topups[i].status)
                  && (!s.topups[i].status.Pending? ==> exists k: nat :: SettledBy(steps, k, i, s.topups[i])))
  {
    var s0 := State([], {}, opening, []);
    RunKeepsInv(s0, steps, opening);
    EffectsOnWallet(Run(s0, steps).topups, user);
    if i < |Run(s0, steps).topups| && !Run(s0, steps).topups[i].status.Pending? {
      var k := EverySettlementHadItsCallback(s0, steps, i, opening);
    }
  }

  lemma SettledStep(s: State, step: Step, i: nat)
    requires i < |s.topups| && !s.topups[i].status.Pending?
    ensures i < |Next(s, step).topups| && Next(s, step).topups[i] == s.topups[i]
  {
  }

  /** Succeeded and failed are final: a success that arrives after a failure does not credit. */
  lemma {:induction false} SettledIsFinal(s: State, steps: seq<Step>, i: nat)
    requires i < |s.topups| && !s.topups[i].status.Pending?
    ensures i < |Run(s, steps).topups| && Run(s, steps).topups[i] == s.topups[i]
    decreases |steps|
  {
    if steps != [] {
      SettledStep(s, steps[0], i);
      SettledIsFinal(Next(s, steps[0]), steps[1..], i);
    }
  }

  lemma {:induction false} SeenStaysSeen(s: State, steps: seq<Step>)
    ensures s.seen <= Run(s, steps).seen
    decreases |steps|
  {
    if steps != [] {
      SeenStaysSeen(Next(s, steps[0]), steps[1..]);
    }
  }

  /** Recording and acting are separate: when the second fails the callback counts as seen, so delivering it again,
      at any later time, does nothing. Only a callback with another reference or outcome can still settle the top-up. */
  lemma FailedCommitStrands(s: State, cb: Callback, txId: string, later: seq<Step>, v: Verdict, txId': string)
    requires KeyOf(cb) !in s.seen && cb.topup < |s.topups| && s.topups[cb.topup].status.Pending?
    ensures var after := Confirmed(s, cb, Verdict(true, false), txId);
            && after == s.(seen := s.seen + {KeyOf(cb)})
            && Confirmed(Run(after, later), cb, v, txId') == Run(after, later)
  {
    SeenStaysSeen(Confirmed(s, cb, Verdict(true, false), txId), later);
  }

  /** A success callback that a first delivery would settle. */
  predicate Eligible(s: State, cb: Callback, txId: string) {
    && KeyOf(cb) !in s.seen && cb.outcome == "success" && cb.topup < |s.topups|
    && var t := s.topups[cb.topup];
       t.status.Pending? && t.amount == cb.amount && PostingFor(t, txId).Ok? && !RefTaken(s.topups, t.provider, cb.ref)
  }

  /** A delivery of an eligible callback settles the top-up exactly when both its transactions commit; when one does
      not, delivering the callback again settles it exactly when the first delivery had not been recorded. */
  lemma RedeliverySettlesIff(s: State, cb: Callback, v: Verdict, txId: string, again: string)
    requires Eligible(s, cb, txId) && Eligible(s, cb, again)
    ensures var first := Confirmed(s, cb, v, txId);
            && |first.topups| == |s.topups| && (first.topups[cb.topup].status.Succeeded? <==> v.records && v.commits)
            && (!(v.records && v.commits) ==>
                  var second := Confirmed(first, cb, Verdict(true, true), again);
                  |second.topups| == |s.topups| && (second.topups[cb.topup].status.Succeeded? <==> !v.records))
  {
  }

  // The service.

  datatype Reply = Unrecorded | Missing | WrongAmount(expected: int, settled: int) | NotCommitted | Shown(topup: Topup)

  /** What the provider hears, from the state before. */
  function ReplyOf(s: State, cb: Callback, v: Verdict): Reply {
    if !v.records then Unrecorded
    else if cb.topup >= |s.topups| then Missing
    else
      var t := s.topups[cb.topup];
      if !Reaches(s, cb, v) then Shown(t)
      else if cb.outcome == "success" && t.amount != cb.amount then WrongAmount(t.amount, cb.amount)
      else if !v.commits || (cb.outcome == "success" && !Matches(s, cb)) then NotCommitted
      else Shown(if cb.outcome == "success" then SettledRow(t, cb.ref) else FailedRow(t))
  }

  class Desk {
    const service: Services.Service
    var topups: seq<Topup>
    var seen: set<(string, string, string)>
    var transitions: seq<Transition>

    constructor (service: Services.Service)
      ensures this.service == service && topups == [] && seen == {} && transitions == []
    {
      this.service := service;
      topups, seen, transitions := [], {}, [];
    }

    ghost function View(): State
      reads this, service, service.repo
    {
      State(topups, seen, service.repo.log, transitions)
    }

    method RecordCallback(cb: Callback, records: bool) returns (r: Option<bool>)
      modifies this
      ensures topups == old(topups) && transitions == old(transitions)
      ensures r == if !records then None else Some(KeyOf(cb) !in old(seen))
      ensures seen == if records then old(seen) + {KeyOf(cb)} else old(seen)
    {
      if !records {
        return None;
      }
      if KeyOf(cb) in seen {
        return Some(false);
      }
      seen := seen + {KeyOf(cb)};
      return Some(true);
    }

    /** Only a row that is still pending fails. */
    method FailTopup(i: nat, commits: bool)
      requires i < |topups|
      modifies this
      ensures View() ==
              if commits && old(topups)[i].status.Pending? then Finish(old(View()), i, Failed, None) else old(View())
    {
      if commits && topups[i].status.Pending? {
        topups := topups[i := topups[i].(status := Failed, providerRef := None)];
        transitions := transitions + [Transition(i, Failed)];
      }
    }

    /** Credits the wallet when this is the callback that settles the top-up, and then drops its cached balance. */
    method ConfirmTopup(cb: Callback, v: Verdict, txId: string) returns (r: Reply)
      requires service.Agrees() && service.Fresh(txId)
      modifies this, service.repo, service.wallet
      ensures View() == Confirmed(old(View()), cb, v, txId)
      ensures service.Agrees()
      ensures service.repo.log == old(service.repo.log) ==> service.wallet.balances == old(service.wallet.balances)
      ensures r == ReplyOf(old(View()), cb, v)
      ensures var before := old(View());
              && (Reaches(before, cb, v) && v.commits && Matches(before, cb) ==>
                    && topups == before.topups[cb.topup := SettledRow(before.topups[cb.topup], cb.ref)]
                    && Credited(before.log, service.repo.log, before.topups[cb.topup]))
              && (Reaches(before, cb, v) && v.commits && cb.outcome != "success" ==>
                    topups == before.topups[cb.topup := FailedRow(before.topups[cb.topup])])
              && (!(Reaches(before, cb, v) && v.commits && (Matches(before, cb) || cb.outcome != "success")) ==>
                    topups == before.topups && service.repo.log == before.log)
    {
      ConfirmedIff(View(), cb, v, txId);
      var recorded := RecordCallback(cb, v.records);
      if recorded.None? {
        return Unrecorded;
      }
      if cb.topup >= |topups| {
        return Missing;
      }
      if !recorded.value || !topups[cb.topup].status.Pending? {
        return Shown(topups[cb.topup]);
      }
      var t := topups[cb.topup];
      if cb.outcome != "success" {
        FailTopup(cb.topup, v.commits);
        return if v.commits then Shown(topups[cb.topup]) else NotCommitted;
      }
      if t.amount != cb.amount {
        return WrongAmount(t.amount, cb.amount);
      }
      var account := Accounts.UserWallet(t.user);
      var taken :=
        exists i :: 0 <= i < |topups| && topups[i].provider == t.provider && topups[i].providerRef == Some(cb.ref);
      var built := PostingFor(t, txId);
      Services.ProviderNames(t.user, t.provider);
      Movements.TopupEffect(txId, Accounts.ProviderClearing(t.provider), account, Accounts.PlatformFeeRevenue(),
                            t.amount, t.adminFee);
      var failed := service.CommitCredit(account, built, v.commits && !taken);
      if failed.Some? {
        return NotCommitted;
      }
      CreditKeepsAgreement(old(service.wallet.balances), old(service.repo.log), t, txId);
      topups := topups[cb.topup := t.(status := Succeeded, providerRef := Some(cb.ref))];
      transitions := transitions + [Transition(cb.topup, Succeeded)];
      return Shown(topups[cb.topup]);
    }
  }

  lemma CreditKeepsAgreement(cache: Wallet.Balances, log: seq<Entry>, t: Topup, txId: string)
    requires SumOf(log) == 0 && Services.CacheAgrees(cache, log) && txId != "" && PostingFor(t, txId).Ok?
    ensures Services.CacheAgrees(cache - {Accounts.UserWallet(t.user)}, log + PostingFor(t, txId).value.entries)
  {
    var from, to, extra := Accounts.ProviderClearing(t.provider), Accounts.UserWallet(t.user),
                           Accounts.PlatformFeeRevenue();
    Services.ProviderNames(t.user, t.provider);
    Movements.TopupEffect(txId, from, to, extra, t.amount, t.adminFee);
    var p := PostingFor(t, txId).value;
    Services.AppendMoves(log, p, from, t.amount + t.adminFee, to, t.amount, extra, t.adminFee);
    Services.CreditAgrees(cache, log, log + p.entries, from, t.amount + t.adminFee, to, t.amount, extra, t.adminFee);
  }

  // Virtual account numbers.

  predicate Digit(c: char) { '0' <= c <= '9' }

  /** A digit stands for itself, any other byte for the digit of its code modulo ten. Bytes are below 256. */
  function DigitFor(c: char): char {
    if Digit(c) then c else ('0' as int + c as int % 10) as char
  }

  method DigitsOnly(s: string) returns (out: string)
    requires forall c :: c in s ==> c as int < 256
    ensures |out| == |s| && forall i :: 0 <= i < |s| ==> out[i] == DigitFor(s[i]) && Digit(out[i])
  {
    out := [];
    for i := 0 to |s|
      invariant |out| == i && forall k :: 0 <= k < i ==> out[k] == DigitFor(s[k]) && Digit(out[k])
    {
      if '0' <= s[i] <= '9' {
        out := out + [s[i]];
      } else {
        out := out + [('0' as int + s[i] as int % 10) as char];
      }
    }
  }
}
