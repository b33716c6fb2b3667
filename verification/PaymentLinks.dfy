/** One payment link, any number of payers racing for it, and a merchant who may cancel it at any moment.

    A payer's request is a chain of separate steps: look the link up, reserve in the balance cache, commit the payment
    transaction (ledger, payment row and link together), and release when that fails. A cold wallet is warmed from the
    ledger in one step with nothing in flight on it, and a commit that reports failure has written nothing. */
module PaymentLinks {
  import opened Wrappers
  import Wallet

  datatype Status = Open | Paid | Cancelled

  datatype Charge = Charge(merchant: string, amount: int, expiresAt: int, status: Status,
                           paymentId: Option<nat>, paidBy: Option<string>)

  /** `at` is history: when the payment committed. */
  datatype Payment = Payment(payer: string, merchant: string, amount: int, at: int)

  datatype Phase =
    | Start
    | Quoted(merchant: string, amount: int)
    | Cold(merchant: string, amount: int)
    | Warmed(merchant: string, amount: int)
    | Holding(merchant: string, amount: int)
    | Failing(merchant: string, amount: int)
    | Settled(merchant: string, amount: int)
    | Refused

  datatype Payer = Payer(account: string, phase: Phase)

  /** `opening` is what each wallet's ledger held before the link existed. */
  datatype State = State(charge: Charge, opening: string -> int, cache: Wallet.Balances, payments: seq<Payment>,
                         payers: seq<Payer>, now: int)

  datatype Step =
    | Arrive(account: string)
    | Lookup(i: nat)
    | Reject(i: nat)
    | Reserve(i: nat)
    | Warm(i: nat)
    | Commit(i: nat)
    | FailCommit(i: nat)
    | Release(i: nat)
    | Cancel(merchant: string)
    | Drop(account: string)
    | Tick(d: nat)

  datatype Fault = AlreadyPaid | NotOpen | Expired

  /** Why the link cannot be paid now; the order of the checks is that of `Lookup` and of `MarkPaid`. */
  function Payable(c: Charge, now: int): Option<Fault> {
    if c.status.Paid? then Some(AlreadyPaid)
    else if !c.status.Open? then Some(NotOpen)
    else if now > c.expiresAt then Some(Expired)
    else None
  }

  function MarkedPaid(c: Charge, paymentId: nat, payer: string): Charge {
    c.(status := Paid, paymentId := Some(paymentId), paidBy := Some(payer))
  }

  /** Only the link's own merchant, and only while the link is open. */
  predicate MayCancel(c: Charge, merchant: string) { c.merchant == merchant && c.status.Open? }

  function Spent(payments: seq<Payment>, account: string): int {
    if payments == [] then 0
    else Spent(payments[..|payments| - 1], account)
         + if payments[|payments| - 1].payer == account then payments[|payments| - 1].amount else 0
  }

  function Ledger(s: State, account: string): int { s.opening(account) - Spent(s.payments, account) }

  function HeldBy(p: Payer, account: string): int {
    if p.account == account && (p.phase.Holding? || p.phase.Failing?) then p.phase.amount else 0
  }

  function Held(payers: seq<Payer>, account: string): int {
    if payers == [] then 0 else HeldBy(payers[0], account) + Held(payers[1..], account)
  }

  ghost predicate InFlight(payers: seq<Payer>, account: string) {
    exists i :: 0 <= i < |payers| && payers[i].account == account &&
      (payers[i].phase.Holding? || payers[i].phase.Failing?)
  }

  function To(s: State, i: nat, p: Phase): State
    requires i < |s.payers|
  {
    s.(payers := s.payers[i := s.payers[i].(phase := p)])
  }

  predicate Reserving(p: Phase) { p.Quoted? || p.Warmed? }

  function NextReserve(s: State, i: nat): State
    requires i < |s.payers| && Reserving(s.payers[i].phase)
  {
    var p := s.payers[i].phase;
    var (cache, r) := Wallet.Reserved(s.cache, s.payers[i].account, p.amount);
    var next := if r.Ok? then Holding(p.merchant, p.amount)
                else if r.error.NotCached? && p.Quoted? then Cold(p.merchant, p.amount) else Refused;
    To(s, i, next).(cache := cache)
  }

  function NextCommit(s: State, i: nat): State
    requires i < |s.payers| && s.payers[i].phase.Holding?
  {
    var payer, p := s.payers[i].account, s.payers[i].phase;
    if Payable(s.charge, s.now).Some? then To(s, i, Failing(p.merchant, p.amount))
    else
      To(s, i, Settled(p.merchant, p.amount))
        .(payments := s.payments + [Payment(payer, p.merchant, p.amount, s.now)],
          charge := MarkedPaid(s.charge, |s.payments|, payer))
  }

  function NextRelease(s: State, i: nat): State
    requires i < |s.payers| && s.payers[i].phase.Failing?
  {
    To(s, i, Refused).(cache := Wallet.Released(s.cache, s.payers[i].account, s.payers[i].phase.amount).0)
  }

  ghost function NextPayer(s: State, i: nat, step: Step): State
    requires i < |s.payers|
  {
    var p := s.payers[i].phase;
    match step
    case Lookup(_) =>
      if !p.Start? then s
      else To(s, i, if Payable(s.charge, s.now).None? then Quoted(s.charge.merchant, s.charge.amount) else Refused)
    case Reject(_) => if p.Quoted? then To(s, i, Refused) else s
    case Reserve(_) => if Reserving(p) then NextReserve(s, i) else s
    case Warm(_) =>
      if p.Cold? && !InFlight(s.payers, s.payers[i].account)
      then
        var cache := s.cache[s.payers[i].account := Ledger(s, s.payers[i].account)];
        To(s, i, Warmed(p.merchant, p.amount)).(cache := cache)
      else s
    case Commit(_) => if p.Holding? then NextCommit(s, i) else s
    case FailCommit(_) => if p.Holding? then To(s, i, Failing(p.merchant, p.amount)) else s
    case Release(_) => if p.Failing? then NextRelease(s, i) else s
    case _ => s
  }

  ghost function Next(s: State, step: Step): State {
    match step
    case Arrive(account) => s.(payers := s.payers + [Payer(account, Start)])
    case Cancel(merchant) => if MayCancel(s.charge, merchant) then s.(charge := s.charge.(status := Cancelled)) else s
    case Drop(account) => s.(cache := s.cache - {account})
    case Tick(d) => s.(now := s.now + d)
    case _ => if step.i < |s.payers| then NextPayer(s, step.i, step) else s
  }

  ghost function Run(s: State, steps: seq<Step>): State
    decreases |steps|
  {
    if steps == [] then s else Run(Next(s, steps[0]), steps[1..])
  }

  function NewLink(merchant: string, amount: int, expiresAt: int, opening: string -> int, now: int): State {
    State(Charge(merchant, amount, expiresAt, Open, None, None), opening, map[], [], [], now)
  }

  // Invariants.

  /** The link is paid exactly when there is one payment, and that payment is the one on the link. */
  ghost predicate OnePayment(c: Charge, payments: seq<Payment>) {
    if c.status.Paid? then
      && |payments| == 1 && c.paymentId == Some(0) && c.paidBy == Some(payments[0].payer)
      && payments[0].merchant == c.merchant && payments[0].amount == c.amount && payments[0].at <= c.expiresAt
    else payments == [] && c.paymentId == None && c.paidBy == None
  }

  predicate QuotedBy(p: Phase, c: Charge) {
    !p.Start? && !p.Refused? ==> p.merchant == c.merchant && p.amount == c.amount
  }

  ghost predicate Quotes(payers: seq<Payer>, c: Charge) {
    forall i :: 0 <= i < |payers| ==> QuotedBy(payers[i].phase, c)
  }

  /** Whatever is cached is the ledger less what payers of that wallet hold. */
  ghost predicate CacheIsExact(s: State) {
    forall a :: a in s.cache ==> s.cache[a] == Ledger(s, a) - Held(s.payers, a)
  }

  ghost predicate Inv(s: State) {
    s.charge.amount > 0 && OnePayment(s.charge, s.payments) && Quotes(s.payers, s.charge) && CacheIsExact(s)
  }

  lemma {:induction false} HeldAfter(payers: seq<Payer>, i: nat, p: Phase, a: string)
    requires i < |payers|
    ensures Held(payers[i := payers[i].(phase := p)], a)
         == Held(payers, a) - HeldBy(payers[i], a) + HeldBy(payers[i].(phase := p), a)
  {
    var t := payers[i := payers[i].(phase := p)];
    if i == 0 {
      assert t[1..] == payers[1..];
    } else {
      assert t[1..] == payers[1..][i - 1 := payers[i].(phase := p)];
      HeldAfter(payers[1..], i - 1, p, a);
    }
  }

  lemma {:induction false} HeldByNewcomer(payers: seq<Payer>, account: string, a: string)
    ensures Held(payers + [Payer(account, Start)], a) == Held(payers, a)
  {
    var t := payers + [Payer(account, Start)];
    if payers == [] {
      assert t[1..] == [];
    } else {
      assert t[1..] == payers[1..] + [Payer(account, Start)];
      HeldByNewcomer(payers[1..], account, a);
    }
  }

  lemma {:induction false} NothingHeld(payers: seq<Payer>, a: string)
    requires !InFlight(payers, a)
    ensures Held(payers, a) == 0
  {
    if payers != [] {
      assert HeldBy(payers[0], a) == 0;
      forall i | 0 <= i < |payers[1..]| && payers[1..][i].account == a
        ensures !payers[1..][i].phase.Holding? && !payers[1..][i].phase.Failing?
      {
        assert payers[1..][i] == payers[i + 1];
      }
      NothingHeld(payers[1..], a);
    }
  }

  lemma SpentAfter(payments: seq<Payment>, p: Payment, a: string)
    ensures Spent(payments + [p], a) == Spent(payments, a) + if p.payer == a then p.amount else 0
  {
    assert (payments + [p])[..|payments|] == payments;
  }

  lemma ReserveKeepsInv(s: State, i: nat)
    requires Inv(s) && i < |s.payers| && Reserving(s.payers[i].phase)
    ensures Inv(NextReserve(s, i))
  {
    var t := NextReserve(s, i);
    assert QuotedBy(s.payers[i].phase, s.charge);
    forall a | a in t.cache ensures t.cache[a] == Ledger(t, a) - Held(t.payers, a) {
      HeldAfter(s.payers, i, t.payers[i].phase, a);
    }
  }

  lemma ReleaseKeepsInv(s: State, i: nat)
    requires Inv(s) && i < |s.payers| && s.payers[i].phase.Failing?
    ensures Inv(NextRelease(s, i))
  {
    var t := NextRelease(s, i);
    assert QuotedBy(s.payers[i].phase, s.charge);
    forall a | a in t.cache ensures t.cache[a] == Ledger(t, a) - Held(t.payers, a) {
      HeldAfter(s.payers, i, Refused, a);
    }
  }

  lemma CommitKeepsInv(s: State, i: nat)
    requires Inv(s) && i < |s.payers| && s.payers[i].phase.Holding?
    ensures Inv(NextCommit(s, i))
  {
    var t := NextCommit(s, i);
    var p := s.payers[i].phase;
    assert QuotedBy(p, s.charge);
    forall a | a in t.cache ensures t.cache[a] == Ledger(t, a) - Held(t.payers, a) {
      HeldAfter(s.payers, i, t.payers[i].phase, a);
      SpentAfter(s.payments, Payment(s.payers[i].account, p.merchant, p.amount, s.now), a);
    }
  }

  lemma WarmKeepsInv(s: State, i: nat)
    requires Inv(s) && i < |s.payers| && s.payers[i].phase.Cold?
    ensures Inv(NextPayer(s, i, Warm(i)))
  {
    var t := NextPayer(s, i, Warm(i));
    if !InFlight(s.payers, s.payers[i].account) {
      NothingHeld(s.payers, s.payers[i].account);
      forall a | a in t.cache ensures t.cache[a] == Ledger(t, a) - Held(t.payers, a) {
        HeldAfter(s.payers, i, t.payers[i].phase, a);
      }
    }
  }

  /** Moving between phases that hold the same leaves every account as it was. */
  lemma MoveKeepsInv(s: State, i: nat, p: Phase)
    requires Inv(s) && i < |s.payers| && QuotedBy(p, s.charge)
    requires (s.payers[i].phase.Holding? && p.Failing?) ||
             (!s.payers[i].phase.Holding? && !s.payers[i].phase.Failing? && !p.Holding? && !p.Failing?)
    ensures Inv(To(s, i, p))
  {
    assert QuotedBy(s.payers[i].phase, s.charge);
    forall a | a in s.cache ensures s.cache[a] == Ledger(s, a) - Held(To(s, i, p).payers, a) {
      HeldAfter(s.payers, i, p, a);
    }
  }

  lemma PayerKeepsInv(s: State, i: nat, step: Step)
    requires Inv(s) && i < |s.payers|
    ensures Inv(NextPayer(s, i, step))
  {
    var p := s.payers[i].phase;
    assert QuotedBy(p, s.charge);
    match step {
      case Lookup(_) =>
        if p.Start? {
          MoveKeepsInv(s, i, Refused);
          MoveKeepsInv(s, i, Quoted(s.charge.merchant, s.charge.amount));
        }
      case Reject(_) => if p.Quoted? { MoveKeepsInv(s, i, Refused); }
      case Reserve(_) => if Reserving(p) { ReserveKeepsInv(s, i); }
      case Warm(_) => if p.Cold? { WarmKeepsInv(s, i); }
      case Commit(_) => if p.Holding? { CommitKeepsInv(s, i); }
      case FailCommit(_) => if p.Holding? { MoveKeepsInv(s, i, Failing(p.merchant, p.amount)); }
      case Release(_) => if p.Failing? { ReleaseKeepsInv(s, i); }
      case _ =>
    }
  }

  lemma NextKeepsInv(s: State, step: Step)
    requires Inv(s)
    ensures Inv(Next(s, step))
  {
    match step {
      case Arrive(account) =>
        forall a | a in s.cache ensures s.cache[a] == Ledger(s, a) - Held(s.payers + [Payer(account, Start)], a) {
          HeldByNewcomer(s.payers, account, a);
        }
      case Cancel(_) =>
      case Drop(_) =>
      case Tick(_) =>
      case _ =>
        if step.i < |s.payers| {
          PayerKeepsInv(s, step.i, step);
        }
    }
  }

  lemma {:induction false} RunKeepsInv(s: State, steps: seq<Step>)
    requires Inv(s)
    ensures Inv(Run(s, steps))
    decreases |steps|
  {
    if steps != [] {
      NextKeepsInv(s, steps[0]);
      RunKeepsInv(Next(s, steps[0]), steps[1..]);
    }
  }

  // What a link promises.

  /** Who races, what fails and when the merchant cancels does not matter: at most one payment, on the link's terms. */
  lemma PaidAtMostOnce(merchant: string, amount: int, expiresAt: int, opening: string -> int, now: int,
                       steps: seq<Step>)
    requires amount > 0
    ensures var s := Run(NewLink(merchant, amount, expiresAt, opening, now), steps);
            && |s.payments| == (if s.charge.status.Paid? then 1 else 0)
            && forall p :: p in s.payments ==> p.merchant == merchant && p.amount == amount && p.at <= expiresAt
                                               && s.charge.paidBy == Some(p.payer)
  {
    var s0 := NewLink(merchant, amount, expiresAt, opening, now);
    RunKeepsInv(s0, steps);
    TermsAreFixed(s0, steps);
  }

  lemma {:induction false} TermsAreFixed(s: State, steps: seq<Step>)
    ensures var t := Run(s, steps);
            && t.charge.merchant == s.charge.merchant && t.charge.amount == s.charge.amount
            && t.charge.expiresAt == s.charge.expiresAt && t.opening == s.opening && t.now >= s.now
    decreases |steps|
  {
    if steps != [] {
      StepKeepsTerms(s, steps[0]);
      TermsAreFixed(Next(s, steps[0]), steps[1..]);
    }
  }

  lemma StepKeepsTerms(s: State, step: Step)
    ensures var t := Next(s, step);
            && t.charge.merchant == s.charge.merchant && t.charge.amount == s.charge.amount
            && t.charge.expiresAt == s.charge.expiresAt && t.opening == s.opening && t.now >= s.now
  {
  }

  lemma UnpayableStep(s: State, step: Step)
    requires Payable(s.charge, s.now).Some?
    ensures Payable(Next(s, step).charge, Next(s, step).now).Some? && Next(s, step).payments == s.payments
    ensures !s.charge.status.Open? ==> Next(s, step).charge == s.charge
  {
  }

  /** A cancelled or expired link is never paid afterwards, and a paid or cancelled one never changes again. */
  lemma {:induction false} UnpayableForever(s: State, steps: seq<Step>)
    requires Payable(s.charge, s.now).Some?
    ensures Payable(Run(s, steps).charge, Run(s, steps).now).Some? && Run(s, steps).payments == s.payments
    ensures !s.charge.status.Open? ==> Run(s, steps).charge == s.charge
    decreases |steps|
  {
    if steps != [] {
      UnpayableStep(s, steps[0]);
      UnpayableForever(Next(s, steps[0]), steps[1..]);
    }
  }

  /** With nothing of a wallet in flight, what is cached for it is what it had, less the amount if it paid the link:
      every losing payer's reservation has been given back. */
  lemma LosersAreRestored(merchant: string, amount: int, expiresAt: int, opening: string -> int, now: int,
                          steps: seq<Step>, account: string)
    requires amount > 0
    requires account in Run(NewLink(merchant, amount, expiresAt, opening, now), steps).cache
    requires !InFlight(Run(NewLink(merchant, amount, expiresAt, opening, now), steps).payers, account)
    ensures var s := Run(NewLink(merchant, amount, expiresAt, opening, now), steps);
            s.cache[account] == opening(account) - if s.charge.paidBy == Some(account) then amount else 0
  {
    var s0 := NewLink(merchant, amount, expiresAt, opening, now);
    var s := Run(s0, steps);
    RunKeepsInv(s0, steps);
    TermsAreFixed(s0, steps);
    NothingHeld(s.payers, account);
    if s.payments != [] {
      SpentAfter([], s.payments[0], account);
      assert s.payments == [] + [s.payments[0]];
    }
  }

  /** A link can be paid exactly while it is open and not past its time; each refusal says why it cannot. */
  lemma PayableIff(c: Charge, now: int)
    ensures Payable(c, now).None? <==> c.status.Open? && now <= c.expiresAt
    ensures Payable(c, now) == Some(AlreadyPaid) <==> c.status.Paid?
    ensures Payable(c, now) == Some(NotOpen) <==> c.status.Cancelled?
    ensures Payable(c, now) == Some(Expired) <==> c.status.Open? && c.expiresAt < now
  {
  }

  /** A link is cancelled exactly by its own merchant while it is open. */
  lemma CancelIff(s: State, merchant: string)
    ensures var t := Next(s, Cancel(merchant));
            if s.charge.merchant == merchant && s.charge.status.Open?
            then t == s.(charge := t.charge) && t.charge == s.charge.(status := Cancelled) else t == s
  {
  }

  /** A payment that is held and committed is made exactly while the link is open and not past its time, by the payer
      who holds it, on the link's terms; otherwise the reservation is to be given back, and the link is as it was. */
  lemma CommitIff(s: State, i: nat)
    requires Inv(s) && i < |s.payers| && s.payers[i].phase.Holding?
    ensures var t, c, payer := Next(s, Commit(i)), s.charge, s.payers[i].account;
            if c.status.Open? && s.now <= c.expiresAt
            then t.payments == [Payment(payer, c.merchant, c.amount, s.now)] && t.payers[i].phase.Settled? &&
                 t.charge == Charge(c.merchant, c.amount, c.expiresAt, Paid, Some(0), Some(payer))
            else t.payments == s.payments && t.charge == c && t.payers[i].phase.Failing?
  {
    assert QuotedBy(s.payers[i].phase, s.charge);
  }

  /** What a payer does who meets no failure. */
  function Paying(i: nat): seq<Step> { [Lookup(i), Reserve(i), Warm(i), Reserve(i), Commit(i)] }

  lemma RunFive(s: State, a: Step, b: Step, c: Step, d: Step, e: Step)
    ensures Run(s, [a, b, c, d, e]) == Next(Next(Next(Next(Next(s, a), b), c), d), e)
  {
    assert [a, b, c, d, e][1..] == [b, c, d, e] && [b, c, d, e][1..] == [c, d, e];
    assert [c, d, e][1..] == [d, e] && [d, e][1..] == [e] && [e][1..] == [];
    assert Run(s, [a, b, c, d, e]) == Run(Next(s, a), [b, c, d, e]);
    assert Run(Next(s, a), [b, c, d, e]) == Run(Next(Next(s, a), b), [c, d, e]);
    assert Run(Next(Next(s, a), b), [c, d, e]) == Run(Next(Next(Next(s, a), b), c), [d, e]);
    var t := Next(Next(Next(s, a), b), c);
    assert Run(t, [d, e]) == Run(Next(t, d), [e]);
    assert Run(Next(t, d), [e]) == Run(Next(Next(t, d), e), []);
  }

  /** After looking up and reserving, warming where it is needed, the payer holds the amount. */
  lemma PayerGetsToHold(s: State, i: nat)
    requires Inv(s) && i < |s.payers| && s.payers[i].phase.Start?
    requires s.charge.status.Open? && s.now <= s.charge.expiresAt
    requires !InFlight(s.payers, s.payers[i].account) && s.charge.amount <= s.opening(s.payers[i].account)
    ensures var t := Next(Next(Next(Next(s, Lookup(i)), Reserve(i)), Warm(i)), Reserve(i));
            && Inv(t) && t.charge == s.charge && t.now == s.now && |t.payers| == |s.payers|
            && t.payers[i].account == s.payers[i].account && t.payers[i].phase.Holding?
  {
    var a, c := s.payers[i].account, s.charge;
    NothingHeld(s.payers, a);
    var s1 := Next(s, Lookup(i));
    assert s1.payers[i] == Payer(a, Quoted(c.merchant, c.amount)) && s1.cache == s.cache;
    var s2 := Next(s1, Reserve(i));
    if a in s.cache {
      assert s2.payers[i].phase.Holding?;
      assert Next(Next(s2, Warm(i)), Reserve(i)) == s2;
    } else {
      assert s2.payers[i] == Payer(a, Cold(c.merchant, c.amount));
      StillNotInFlight(s, s2, i);
      var s3 := Next(s2, Warm(i));
      assert s3.payers[i] == Payer(a, Warmed(c.merchant, c.amount)) && s3.cache[a] == s.opening(a);
      assert Next(s3, Reserve(i)).payers[i].phase.Holding?;
    }
    NextKeepsInv(s, Lookup(i));
    NextKeepsInv(s1, Reserve(i));
    NextKeepsInv(s2, Warm(i));
    NextKeepsInv(Next(s2, Warm(i)), Reserve(i));
  }

  lemma StillNotInFlight(s: State, t: State, i: nat)
    requires i < |s.payers| == |t.payers| && !InFlight(s.payers, s.payers[i].account) && t.payers[i].phase.Cold?
    requires forall j :: 0 <= j < |s.payers| && j != i ==> t.payers[j] == s.payers[j]
    ensures !InFlight(t.payers, s.payers[i].account)
  {
  }

  /** A link that is open and not past its time is paid by any payer who has the amount and nothing else in flight,
      cached or not, however many others have looked it up. */
  lemma OpenLinkIsPaid(s: State, i: nat)
    requires Inv(s) && i < |s.payers| && s.payers[i].phase.Start?
    requires s.charge.status.Open? && s.now <= s.charge.expiresAt
    requires !InFlight(s.payers, s.payers[i].account) && s.charge.amount <= s.opening(s.payers[i].account)
    ensures var t, c := Run(s, Paying(i)), s.charge;
            && t.charge == Charge(c.merchant, c.amount, c.expiresAt, Paid, Some(0), Some(s.payers[i].account))
            && t.payments == [Payment(s.payers[i].account, c.merchant, c.amount, s.now)]
  {
    PayerGetsToHold(s, i);
    RunFive(s, Lookup(i), Reserve(i), Warm(i), Reserve(i), Commit(i));
    CommitIff(Next(Next(Next(Next(s, Lookup(i)), Reserve(i)), Warm(i)), Reserve(i)), i);
  }

  // The table of links.

  const MIN_CHARGE_WINDOW := 5 * 60
  const MAX_CHARGE_WINDOW := 30 * 24 * 3600
  const DEFAULT_WINDOW := 24 * 3600

  datatype Refusal = NotFound | Conflict(fault: Fault) | Invalid | ReferenceTaken

  /** White space as the Unicode standard defines it. */
  predicate Space(c: char) {
    var code := c as int;
    || 9 <= code <= 13 || code == 32 || code == 0x85 || code == 0xA0 || code == 0x1680 || 0x2000 <= code <= 0x200A
    || code == 0x2028 || code == 0x2029 || code == 0x202F || code == 0x205F || code == 0x3000
  }

  function TrimLeft(s: string): string {
    if s != "" && Space(s[0]) then TrimLeft(s[1..]) else s
  }

  function TrimRight(s: string): string {
    if s != "" && Space(s[|s| - 1]) then TrimRight(s[..|s| - 1]) else s
  }

  function Trim(s: string): string { TrimRight(TrimLeft(s)) }

  predicate Blank(s: string) { forall c :: c in s ==> Space(c) }

  lemma {:induction false} TrimLeftBlank(s: string)
    ensures Blank(TrimLeft(s)) <==> Blank(s)
    ensures TrimLeft(s) == "" || !Space(TrimLeft(s)[0])
  {
    if s != "" && Space(s[0]) {
      assert s == [s[0]] + s[1..];
      TrimLeftBlank(s[1..]);
    }
  }

  lemma {:induction false} TrimRightBlank(s: string)
    ensures Blank(TrimRight(s)) <==> Blank(s)
    ensures TrimRight(s) == "" || !Space(TrimRight(s)[|TrimRight(s)| - 1])
  {
    if s != "" && Space(s[|s| - 1]) {
      assert s == s[..|s| - 1] + [s[|s| - 1]];
      TrimRightBlank(s[..|s| - 1]);
    }
  }

  /** Nothing is left of a text exactly when it is all white space. */
  lemma TrimIsEmptyIffBlank(s: string)
    ensures Trim(s) == "" <==> Blank(s)
  {
    TrimLeftBlank(s);
    TrimRightBlank(TrimLeft(s));
  }

  /** Only white space goes, and only from the ends. */
  lemma TrimStrips(s: string) returns (before: string, after: string)
    ensures s == before + Trim(s) + after && Blank(before) && Blank(after)
    ensures Trim(s) != "" ==> !Space(Trim(s)[0]) && !Space(Trim(s)[|Trim(s)| - 1])
  {
    var rest := TrimLeft(s);
    before := StripLeft(s);
    after := StripRight(rest);
    TrimLeftBlank(s);
    TrimRightBlank(rest);
    if Trim(s) != "" {
      assert Trim(s)[0] == rest[0];
    }
  }

  lemma {:induction false} StripLeft(s: string) returns (before: string)
    ensures s == before + TrimLeft(s) && Blank(before)
  {
    before := "";
    if s != "" && Space(s[0]) {
      var b := StripLeft(s[1..]);
      before := [s[0]] + b;
    }
  }

  lemma {:induction false} StripRight(s: string) returns (after: string)
    ensures s == TrimRight(s) + after && Blank(after)
  {
    after := "";
    if s != "" && Space(s[|s| - 1]) {
      var a := StripRight(s[..|s| - 1]);
      after := a + [s[|s| - 1]];
    }
  }

  /** What a merchant calls a link. */
  datatype Label = Label(merchant: string, reference: string)

  class Charges {
    var rows: map<string, Charge>
    var labels: map<string, Label>
    var now: int

    constructor (now: int)
      ensures Valid() && rows == map[] && labels == map[] && this.now == now
    {
      rows, labels := map[], map[];
      this.now := now;
    }

    /** No two links of a merchant share a reference. */
    ghost predicate Valid()
      reads this
    {
      && labels.Keys == rows.Keys
      && (forall a, b :: a in labels && b in labels && labels[a] == labels[b] ==> a == b)
      && forall id :: id in labels ==> labels[id].merchant == rows[id].merchant
    }

    /** `id` is fresh, and so is `generated`, the reference used when none is given; `window` is the requested lifetime
        in seconds, if any. */
    method Create(id: string, generated: string, merchant: string, reference: string, description: string, amount: int,
                  currency: string, window: Option<int>) returns (err: Option<Refusal>)
      requires Valid() && id !in rows
      modifies this
      ensures Valid() && now == old(now)
      ensures var called := Label(merchant, if Trim(reference) == "" then generated else Trim(reference));
              var lifetime := if window.Some? then window.value else DEFAULT_WINDOW;
              && err == (if Trim(description) == "" || amount <= 0 || currency !in ["", "IDR"]
                            || !(MIN_CHARGE_WINDOW <= lifetime <= MAX_CHARGE_WINDOW) then Some(Invalid)
                         else if called in old(labels).Values then Some(ReferenceTaken) else None)
              && rows == (if err.Some? then old(rows)
                          else old(rows)[id := Charge(merchant, amount, now + lifetime, Open, None, None)])
              && labels == (if err.Some? then old(labels) else old(labels)[id := called])
    {
      var ref, text := Trim(reference), Trim(description);
      if text == "" || amount <= 0 || (currency != "" && currency != "IDR") {
        return Some(Invalid);
      }
      var lifetime := DEFAULT_WINDOW;
      if window.Some? {
        lifetime := window.value;
      }
      if lifetime < MIN_CHARGE_WINDOW || lifetime > MAX_CHARGE_WINDOW {
        return Some(Invalid);
      }
      if ref == "" {
        ref := generated;
      }
      if Label(merchant, ref) in labels.Values {
        return Some(ReferenceTaken);
      }
      rows := rows[id := Charge(merchant, amount, now + lifetime, Open, None, None)];
      labels := labels[id := Label(merchant, ref)];
      return None;
    }

    method Lookup(id: string) returns (r: Result<(string, int), Refusal>)
      ensures r == if id !in rows then Err(NotFound)
                   else match Payable(rows[id], now)
                     case Some(f) => Err(Conflict(f))
                     case None => Ok((rows[id].merchant, rows[id].amount))
    {
      if id !in rows {
        return Err(NotFound);
      }
      var c := rows[id];
      var expired := c.status.Open? && now > c.expiresAt;
      if c.status.Paid? {
        return Err(Conflict(AlreadyPaid));
      } else if !c.status.Open? {
        return Err(Conflict(NotOpen));
      } else if expired {
        return Err(Conflict(Expired));
      }
      return Ok((c.merchant, c.amount));
    }

    method MarkPaid(id: string, paymentId: nat, payer: string) returns (err: Option<Refusal>)
      requires Valid()
      modifies this`rows
      ensures Valid()
      ensures err == if id !in old(rows) then Some(NotFound)
                     else match Payable(old(rows)[id], now) case Some(f) => Some(Conflict(f)) case None => None
      ensures rows == if err.Some? then old(rows) else old(rows)[id := MarkedPaid(old(rows)[id], paymentId, payer)]
    {
      if id !in rows {
        return Some(NotFound);
      }
      var c := rows[id];
      if c.status.Paid? {
        return Some(Conflict(AlreadyPaid));
      } else if !c.status.Open? {
        return Some(Conflict(NotOpen));
      } else if now > c.expiresAt {
        return Some(Conflict(Expired));
      }
      rows := rows[id := c.(status := Paid, paymentId := Some(paymentId), paidBy := Some(payer))];
      return None;
    }

    /** A link of another merchant is as good as absent. An expired link may still be cancelled. */
    method Cancel(merchant: string, id: string) returns (err: Option<Refusal>)
      requires Valid()
      modifies this`rows
      ensures Valid()
      ensures if id in old(rows) && MayCancel(old(rows)[id], merchant)
              then err == None && rows == old(rows)[id := old(rows)[id].(status := Cancelled)]
              else rows == old(rows)
                   && err == Some(if id in rows && (merchant == "" || rows[id].merchant == merchant)
                                  then Conflict(NotOpen) else NotFound)
    {
      if id in rows && rows[id].merchant == merchant && rows[id].status.Open? {
        rows := rows[id := rows[id].(status := Cancelled)];
        return None;
      }
      if id !in rows || (merchant != "" && rows[id].merchant != merchant) {
        return Some(NotFound);
      }
      return Some(Conflict(NotOpen));
    }
  }
}
