/** Reserve, commit, release under interleaving.

    Every request that moves a consumer's money is a call that advances one atomic step at a time: one cache
    operation, one ledger read, or one committed database transaction. Between any two steps of a call every
    other call may take any number of steps, and cache entries may disappear at any moment. A commit that
    reports failure is assumed to have written nothing. */
module Reservations {
  import opened Wrappers
  import opened Ledger
  import Accounts
  import Movements
  import Money
  import Wallet

  /** A debit holds `amount` on `account` before it commits; both kinds afterwards invalidate the wallet they
      credited. */
  datatype Request =
    | Debit(account: string, amount: int, posting: Posting, credited: Option<string>)
    | Credit(posting: Posting, credited: Option<string>)

  datatype Phase =
    | Start
    | Cold                  // the first Reserve found nothing cached
    | Read(balance: int)    // the ledger sum has been read, not yet written to the cache
    | Warmed                // about to Reserve a second time
    | Holding               // reserved in the cache, not committed
    | Failing               // the commit failed, the reservation is still to be released
    | Committed             // posted, the credited wallet is still to be invalidated
    | Done
    | Refused

  predicate Ended(p: Phase) { p.Done? || p.Refused? }

  datatype Call = Call(request: Request, phase: Phase)

  datatype State = State(cache: Wallet.Balances, log: seq<Entry>, calls: seq<Call>)

  datatype Step =
    | Begin(request: Request)
    | Reserve(i: nat)
    | ReadLedger(i: nat)
    | Warm(i: nat)
    | Commit(i: nat)
    | FailCommit(i: nat)
    | Release(i: nat)
    | Invalidate(i: nat)
    | Drop(account: string)

  /** What a request does to one wallet: the debited one loses the reserved amount, the credited one does
      not lose, and no other changes. */
  predicate Fits(r: Request, a: string) {
    if r.Debit? && r.account == a then
      r.amount > 0 && r.credited != Some(a) && Delta(r.posting.entries, a) == -r.amount
    else if r.credited == Some(a) then Delta(r.posting.entries, a) >= 0
    else Delta(r.posting.entries, a) == 0
  }

  ghost predicate WellFormed(r: Request) {
    && Valid(r.posting)
    && (r.Debit? ==> Accounts.IsUserWallet(r.account))
    && forall a :: Accounts.IsUserWallet(a) ==> Fits(r, a)
  }

  function With(s: State, i: nat, phase: Phase): State
    requires i < |s.calls|
  {
    s.(calls := s.calls[i := s.calls[i].(phase := phase)])
  }

  predicate Enabled(s: State, step: Step) {
    if step.Begin? || step.Drop? then true
    else
      && step.i < |s.calls|
      && var phase, debit := s.calls[step.i].phase, s.calls[step.i].request.Debit?;
         match step
         case Reserve(_) => debit && (phase.Start? || phase.Warmed?)
         case ReadLedger(_) => debit && phase.Cold?
         case Warm(_) => debit && phase.Read?
         case Commit(_) => if debit then phase.Holding? else phase.Start?
         case FailCommit(_) => if debit then phase.Holding? else phase.Start?
         case Release(_) => debit && phase.Failing?
         case Invalidate(_) => phase.Committed?
  }

  function NextReserve(s: State, i: nat): State
    requires Enabled(s, Reserve(i))
  {
    var c := s.calls[i];
    var (cache, r) := Wallet.Reserved(s.cache, c.request.account, c.request.amount);
    var phase := if r.Ok? then Holding else if r.error.NotCached? && c.phase.Start? then Cold else Refused;
    With(s, i, phase).(cache := cache)
  }

  function NextCommit(s: State, i: nat): State
    requires Enabled(s, Commit(i))
  {
    With(s, i, Committed).(log := s.log + s.calls[i].request.posting.entries)
  }

  function NextWarm(s: State, i: nat): State
    requires Enabled(s, Warm(i))
  {
    With(s, i, Warmed).(cache := s.cache[s.calls[i].request.account := s.calls[i].phase.balance])
  }

  function NextRelease(s: State, i: nat): State
    requires Enabled(s, Release(i))
  {
    var r := s.calls[i].request;
    With(s, i, Done).(cache := Wallet.Released(s.cache, r.account, r.amount).0)
  }

  function NextInvalidate(s: State, i: nat): State
    requires Enabled(s, Invalidate(i))
  {
    var credited := s.calls[i].request.credited;
    With(s, i, Done).(cache := if credited.Some? then s.cache - {credited.value} else s.cache)
  }

  /** A step that is not enabled changes nothing. */
  ghost function Next(s: State, step: Step): State {
    if !Enabled(s, step) then s
    else
      match step
      case Begin(request) => if WellFormed(request) then s.(calls := s.calls + [Call(request, Start)]) else s
      case Drop(account) => s.(cache := s.cache - {account})
      case Reserve(i) => NextReserve(s, i)
      case ReadLedger(i) => With(s, i, Read(Delta(s.log, s.calls[i].request.account)))
      case Warm(i) => NextWarm(s, i)
      case Commit(i) => NextCommit(s, i)
      case FailCommit(i) => With(s, i, if s.calls[i].request.Debit? then Failing else Refused)
      case Release(i) => NextRelease(s, i)
      case Invalidate(i) => NextInvalidate(s, i)
  }

  ghost function Run(s: State, steps: seq<Step>): State
    decreases |steps|
  {
    if steps == [] then s else Run(Next(s, steps[0]), steps[1..])
  }

  // Money in flight on one account.

  datatype Kind = Hold | Unseen

  predicate Holds(c: Call, account: string) {
    c.request.Debit? && c.request.account == account && (c.phase.Holding? || c.phase.Failing?)
  }

  /** `Hold`: reserved and neither committed nor released. `Unseen`: credited but not yet invalidated. */
  function Share(c: Call, account: string, kind: Kind): int {
    match kind
    case Hold =>
      if Holds(c, account) then c.request.amount else 0
    case Unseen =>
      if c.request.credited == Some(account) && c.phase.Committed? then
        Delta(c.request.posting.entries, account)
      else 0
  }

  function InFlight(calls: seq<Call>, account: string, kind: Kind): int {
    if calls == [] then 0 else Share(calls[0], account, kind) + InFlight(calls[1..], account, kind)
  }

  lemma {:induction false} InFlightUpdate(calls: seq<Call>, i: nat, c: Call, account: string, kind: Kind)
    requires i < |calls|
    ensures InFlight(calls[i := c], account, kind) ==
            InFlight(calls, account, kind) - Share(calls[i], account, kind) + Share(c, account, kind)
  {
    if i == 0 {
      assert calls[i := c][1..] == calls[1..];
    } else {
      assert calls[i := c][1..] == calls[1..][i - 1 := c];
      InFlightUpdate(calls[1..], i - 1, c, account, kind);
    }
  }

  lemma {:induction false} InFlightAppend(calls: seq<Call>, c: Call, account: string, kind: Kind)
    ensures InFlight(calls + [c], account, kind) == InFlight(calls, account, kind) + Share(c, account, kind)
  {
    if calls == [] {
      assert calls + [c] == [c];
      assert [c][1..] == [];
    } else {
      assert (calls + [c])[1..] == calls[1..] + [c];
      InFlightAppend(calls[1..], c, account, kind);
    }
  }

  lemma {:induction false} InFlightNonNegative(calls: seq<Call>, account: string, kind: Kind)
    requires Accounts.IsUserWallet(account)
    requires forall c <- calls :: WellFormed(c.request)
    ensures InFlight(calls, account, kind) >= 0
    ensures forall c <- calls :: Share(c, account, kind) <= InFlight(calls, account, kind)
  {
    if calls != [] {
      InFlightNonNegative(calls[1..], account, kind);
      assert calls[0] in calls && forall c <- calls[1..] :: c in calls;
      assert forall c <- calls :: c == calls[0] || c in calls[1..];
    }
  }

  // The invariant.

  ghost predicate AccountSafe(s: State, a: string) {
    var spendable := Delta(s.log, a) - InFlight(s.calls, a, Hold);
    && spendable >= 0
    && (a in s.cache ==> 0 <= s.cache[a] <= spendable && spendable - InFlight(s.calls, a, Unseen) <= s.cache[a])
  }

  /** The books balance, and for every wallet the cache shows at most the ledger sum less what is in flight,
      and hides at most the credits that are still waiting for their invalidation. */
  ghost predicate Safe(s: State) {
    && SumOf(s.log) == 0
    && (forall c <- s.calls :: WellFormed(c.request))
    && forall a :: Accounts.IsUserWallet(a) ==> AccountSafe(s, a)
  }

  /** No call holds a reservation on the account. */
  predicate Unreserved(s: State, account: string) {
    forall c <- s.calls :: !Holds(c, account)
  }

  /** The discipline a warm needs: the ledger has not moved since it was read, and nothing is reserved. */
  predicate Disciplined(s: State, step: Step) {
    step.Warm? && Enabled(s, step) ==>
      var a := s.calls[step.i].request.account;
      s.calls[step.i].phase.balance == Delta(s.log, a) && Unreserved(s, a)
  }

  ghost predicate DisciplinedRun(s: State, steps: seq<Step>)
    decreases |steps|
  {
    steps != [] ==> Disciplined(s, steps[0]) && DisciplinedRun(Next(s, steps[0]), steps[1..])
  }

  lemma {:induction false} UnreservedMeansNothingHeld(calls: seq<Call>, account: string)
    requires Accounts.IsUserWallet(account)
    requires forall c <- calls :: WellFormed(c.request)
    ensures InFlight(calls, account, Hold) == 0 <==>
            forall c <- calls :: !Holds(c, account)
  {
    InFlightNonNegative(calls, account, Hold);
    if calls != [] {
      assert calls[0] in calls && forall c <- calls[1..] :: c in calls;
      assert forall c <- calls :: c == calls[0] || c in calls[1..];
      UnreservedMeansNothingHeld(calls[1..], account);
      InFlightNonNegative(calls[1..], account, Hold);
    }
  }

  // One step and one wallet. Each lemma asks only for what the acting request does to that wallet.

  ghost predicate Ready(s: State, i: nat, a: string) {
    && i < |s.calls|
    && AccountSafe(s, a)
    && Fits(s.calls[i].request, a)
    && InFlight(s.calls, a, Unseen) >= 0
  }

  /** What a change of one call's phase does to the two in-flight sums. */
  lemma PhaseShares(s: State, i: nat, phase: Phase, a: string)
    requires i < |s.calls|
    ensures var c, d := s.calls[i], s.calls[i].(phase := phase);
            forall k :: InFlight(With(s, i, phase).calls, a, k) ==
                        InFlight(s.calls, a, k) - Share(c, a, k) + Share(d, a, k)
  {
    forall k ensures InFlight(With(s, i, phase).calls, a, k) ==
                     InFlight(s.calls, a, k) - Share(s.calls[i], a, k) + Share(s.calls[i].(phase := phase), a, k)
    {
      InFlightUpdate(s.calls, i, s.calls[i].(phase := phase), a, k);
    }
  }

  lemma ReserveKeeps(s: State, i: nat, a: string)
    requires Enabled(s, Reserve(i)) && Ready(s, i, a)
    ensures AccountSafe(NextReserve(s, i), a)
  {
    PhaseShares(s, i, NextReserve(s, i).calls[i].phase, a);
  }

  lemma CommitKeeps(s: State, i: nat, a: string)
    requires Enabled(s, Commit(i)) && Ready(s, i, a)
    ensures AccountSafe(NextCommit(s, i), a)
  {
    PhaseShares(s, i, Committed, a);
    DeltaConcat(s.log, s.calls[i].request.posting.entries, a);
  }

  lemma ReleaseKeeps(s: State, i: nat, a: string)
    requires Enabled(s, Release(i)) && Ready(s, i, a)
    ensures AccountSafe(NextRelease(s, i), a)
  {
    PhaseShares(s, i, Done, a);
  }

  lemma InvalidateKeeps(s: State, i: nat, a: string)
    requires Enabled(s, Invalidate(i)) && Ready(s, i, a)
    ensures AccountSafe(NextInvalidate(s, i), a)
  {
    PhaseShares(s, i, Done, a);
  }

  lemma WarmKeeps(s: State, i: nat, a: string)
    requires Enabled(s, Warm(i)) && Ready(s, i, a)
    requires s.calls[i].request.account == a ==>
               s.calls[i].phase.balance == Delta(s.log, a) && InFlight(s.calls, a, Hold) == 0
    ensures AccountSafe(NextWarm(s, i), a)
  {
    PhaseShares(s, i, Warmed, a);
  }

  lemma OtherKeeps(s: State, i: nat, phase: Phase, a: string)
    requires Ready(s, i, a)
    requires !Holds(s.calls[i], a) || phase.Failing?
    requires !phase.Holding? && (phase.Failing? ==> s.calls[i].phase.Holding?)
    requires !phase.Committed? && !s.calls[i].phase.Committed?
    ensures AccountSafe(With(s, i, phase), a)
  {
    PhaseShares(s, i, phase, a);
  }

  lemma StepKeepsAccount(s: State, step: Step, a: string)
    requires Safe(s) && Enabled(s, step) && Disciplined(s, step) && Accounts.IsUserWallet(a)
    ensures AccountSafe(Next(s, step), a)
  {
    assert AccountSafe(s, a);
    if step.Begin? {
      InFlightAppend(s.calls, Call(step.request, Start), a, Hold);
      InFlightAppend(s.calls, Call(step.request, Start), a, Unseen);
    } else if !step.Drop? {
      assert s.calls[step.i] in s.calls && Fits(s.calls[step.i].request, a);
      InFlightNonNegative(s.calls, a, Unseen);
      assert Ready(s, step.i, a);
      match step
      case Reserve(i) => ReserveKeeps(s, i, a);
      case ReadLedger(i) => OtherKeeps(s, i, Read(Delta(s.log, s.calls[i].request.account)), a);
      case Warm(i) =>
        UnreservedMeansNothingHeld(s.calls, a);
        WarmKeeps(s, i, a);
      case Commit(i) => CommitKeeps(s, i, a);
      case FailCommit(i) => OtherKeeps(s, i, if s.calls[i].request.Debit? then Failing else Refused, a);
      case Release(i) => ReleaseKeeps(s, i, a);
      case Invalidate(i) => InvalidateKeeps(s, i, a);
    }
  }

  lemma RequestsStayWellFormed(s: State, step: Step)
    requires forall c <- s.calls :: WellFormed(c.request)
    ensures forall c <- Next(s, step).calls :: WellFormed(c.request)
  {
    if Enabled(s, step) && !step.Begin? && !step.Drop? {
      assert s.calls[step.i] in s.calls;
    }
  }

  lemma BooksStayBalanced(s: State, step: Step)
    requires SumOf(s.log) == 0 && forall c <- s.calls :: WellFormed(c.request)
    ensures SumOf(Next(s, step).log) == 0
  {
    if Enabled(s, step) && step.Commit? {
      assert s.calls[step.i] in s.calls;
      PostingConserves(s.log, s.calls[step.i].request.posting);
    }
  }

  /** Every step of every call keeps the invariant, whatever the other calls are doing. */
  lemma StepKeepsSafe(s: State, step: Step)
    requires Safe(s) && Disciplined(s, step)
    ensures Safe(Next(s, step))
  {
    if Enabled(s, step) {
      BooksStayBalanced(s, step);
      RequestsStayWellFormed(s, step);
      forall a | Accounts.IsUserWallet(a) ensures AccountSafe(Next(s, step), a) {
        StepKeepsAccount(s, step, a);
      }
    }
  }

  /** In every disciplined interleaving of any number of calls no cached balance exceeds what can be spent,
      no wallet's ledger sum goes below zero, and the books stay balanced. */
  lemma {:induction false} NeverOverspent(s: State, steps: seq<Step>)
    requires Safe(s) && DisciplinedRun(s, steps)
    ensures Safe(Run(s, steps))
    ensures forall a :: Accounts.IsUserWallet(a) ==> Delta(Run(s, steps).log, a) >= 0
    decreases |steps|
  {
    if steps != [] {
      StepKeepsSafe(s, steps[0]);
      NeverOverspent(Next(s, steps[0]), steps[1..]);
    } else {
      forall a | Accounts.IsUserWallet(a) ensures Delta(s.log, a) >= 0 {
        assert AccountSafe(s, a);
        InFlightNonNegative(s.calls, a, Hold);
      }
    }
  }

  /** A fresh system is safe. */
  lemma InitIsSafe(log: seq<Entry>)
    requires SumOf(log) == 0 && forall a :: Accounts.IsUserWallet(a) ==> Delta(log, a) >= 0
    ensures Safe(State(map[], log, []))
  {
  }

  /** From a fresh system on: nothing cached, nothing in flight, no wallet below zero. */
  lemma NeverOverspentFromTheStart(log: seq<Entry>, steps: seq<Step>)
    requires SumOf(log) == 0 && forall a :: Accounts.IsUserWallet(a) ==> Delta(log, a) >= 0
    requires DisciplinedRun(State(map[], log, []), steps)
    ensures Safe(Run(State(map[], log, []), steps))
    ensures forall a :: Accounts.IsUserWallet(a) ==> Delta(Run(State(map[], log, []), steps).log, a) >= 0
  {
    InitIsSafe(log);
    NeverOverspent(State(map[], log, []), steps);
  }

  /** When every call of a disciplined run has ended, each cached balance is exactly the ledger sum. */
  lemma QuietCacheAgrees(s: State, steps: seq<Step>, a: string)
    requires Safe(s) && DisciplinedRun(s, steps) && Accounts.IsUserWallet(a)
    requires forall c <- Run(s, steps).calls :: Ended(c.phase)
    ensures a in Run(s, steps).cache ==> Run(s, steps).cache[a] == Delta(Run(s, steps).log, a)
  {
    NeverOverspent(s, steps);
    AllEnded(Run(s, steps).calls, a);
    assert AccountSafe(Run(s, steps), a);
  }

  lemma {:induction false} AllEnded(calls: seq<Call>, a: string)
    requires forall c <- calls :: Ended(c.phase)
    ensures InFlight(calls, a, Hold) == 0 && InFlight(calls, a, Unseen) == 0
  {
    if calls != [] {
      assert calls[0] in calls && forall c <- calls[1..] :: c in calls;
      AllEnded(calls[1..], a);
    }
  }

  // The requests the services make are of the kind the protocol is proved for.

  lemma NamesAreNotEmpty(id: string)
    ensures Accounts.UserWallet(id) != "" && Accounts.MerchantPayable(id) != "" && Accounts.MerchantHoldback(id) != ""
    ensures Accounts.ProviderClearing(id) != "" && Accounts.PlatformFeeRevenue() != "" && Accounts.PlatformFloat() != ""
  {
  }

  /** A flow out of a wallet into one other wallet or none is a well-formed debit. */
  lemma DebitFits(p: Posting, from: string, x: int, to: string, y: int, extra: string, z: int, credited: Option<string>)
    requires Valid(p) && x > 0 && y >= 0 && Accounts.IsUserWallet(from) && !Accounts.IsUserWallet(extra)
    requires forall a :: Delta(p.entries, a) == Movements.Flow(a, from, x, to, y, extra, z)
    requires if Accounts.IsUserWallet(to) then credited == Some(to) && to != from else credited == None
    ensures WellFormed(Debit(from, x, p, credited))
  {
  }

  /** A flow from accounts that are not wallets into one wallet is a well-formed credit. */
  lemma CreditFits(p: Posting, wallet: string, y: int, from: string, x: int, extra: string, z: int)
    requires Valid(p) && y >= 0 && Accounts.IsUserWallet(wallet)
    requires !Accounts.IsUserWallet(from) && !Accounts.IsUserWallet(extra)
    requires forall a :: Delta(p.entries, a) == Movements.Flow(a, from, x, wallet, y, extra, z)
    ensures WellFormed(Credit(p, Some(wallet)))
  {
  }

  lemma PaymentIsWellFormed(txId: string, user: string, merchant: string, amount: int, feeBps: int)
    requires txId != ""
    ensures var r := Movements.NewMerchantPayment(txId, Accounts.UserWallet(user), Accounts.MerchantPayable(merchant),
                                                  Accounts.PlatformFeeRevenue(), amount, feeBps);
            r.Ok? ==> WellFormed(Debit(Accounts.UserWallet(user), amount, r.value, None))
  {
    var w, m, f := Accounts.UserWallet(user), Accounts.MerchantPayable(merchant), Accounts.PlatformFeeRevenue();
    NamesAreNotEmpty(user);
    NamesAreNotEmpty(merchant);
    Accounts.WalletNames(user);
    Accounts.WalletNames(merchant);
    PaymentFits(txId, w, m, f, amount, feeBps);
  }

  lemma PaymentFits(txId: string, w: string, m: string, f: string, amount: int, feeBps: int)
    requires txId != "" && Movements.Named([w, m, f])
    requires Accounts.IsUserWallet(w) && !Accounts.IsUserWallet(m) && !Accounts.IsUserWallet(f)
    ensures var r := Movements.NewMerchantPayment(txId, w, m, f, amount, feeBps);
            r.Ok? ==> WellFormed(Debit(w, amount, r.value, None))
  {
    Movements.PaymentEffect(txId, w, m, f, amount, feeBps);
    var r := Movements.NewMerchantPayment(txId, w, m, f, amount, feeBps);
    if r.Ok? {
      var fee := Money.FeeHalfUp(amount, feeBps).value;
      DebitFits(r.value, w, amount, m, amount - fee, f, fee, None);
    }
  }

  lemma TransferIsWellFormed(txId: string, user: string, payee: string, amount: int)
    requires txId != ""
    ensures var r := Movements.NewTransfer(txId, Accounts.UserWallet(user), Accounts.UserWallet(payee), amount);
            r.Ok? ==> WellFormed(Debit(Accounts.UserWallet(user), amount, r.value, Some(Accounts.UserWallet(payee))))
  {
    NamesAreNotEmpty(user);
    NamesAreNotEmpty(payee);
    Accounts.WalletNames(user);
    Accounts.WalletNames(payee);
    var w, v := Accounts.UserWallet(user), Accounts.UserWallet(payee);
    Movements.TransferEffect(txId, w, v, amount);
    var r := Movements.NewTransfer(txId, w, v, amount);
    if r.Ok? {
      DebitFits(r.value, w, amount, v, amount, "", 0, Some(v));
    }
  }

  /** Withdrawals, and bill payments, which post the same entries. */
  lemma WithdrawalIsWellFormed(txId: string, user: string, code: string, amount: int, adminFee: int)
    requires txId != ""
    ensures var r := Movements.NewWithdrawal(txId, Accounts.UserWallet(user), Accounts.ProviderClearing(code),
                                             Accounts.PlatformFeeRevenue(), amount, adminFee);
            r.Ok? ==> WellFormed(Debit(Accounts.UserWallet(user), amount + adminFee, r.value, None))
  {
    NamesAreNotEmpty(user);
    NamesAreNotEmpty(code);
    Accounts.WalletNames(user);
    Accounts.WalletNames(code);
    var w, c, f := Accounts.UserWallet(user), Accounts.ProviderClearing(code), Accounts.PlatformFeeRevenue();
    Movements.WithdrawalEffect(txId, w, c, f, amount, adminFee);
    var r := Movements.NewWithdrawal(txId, w, c, f, amount, adminFee);
    if r.Ok? {
      DebitFits(r.value, w, amount + adminFee, c, amount, f, adminFee, None);
    }
  }

  lemma TopupIsWellFormed(txId: string, user: string, code: string, amount: int, adminFee: int)
    requires txId != ""
    ensures var r := Movements.NewTopup(txId, Accounts.ProviderClearing(code), Accounts.UserWallet(user),
                                        Accounts.PlatformFeeRevenue(), amount, adminFee);
            r.Ok? ==> WellFormed(Credit(r.value, Some(Accounts.UserWallet(user))))
  {
    NamesAreNotEmpty(user);
    NamesAreNotEmpty(code);
    Accounts.WalletNames(user);
    Accounts.WalletNames(code);
    var w, c, f := Accounts.UserWallet(user), Accounts.ProviderClearing(code), Accounts.PlatformFeeRevenue();
    Movements.TopupEffect(txId, c, w, f, amount, adminFee);
    var r := Movements.NewTopup(txId, c, w, f, amount, adminFee);
    if r.Ok? {
      CreditFits(r.value, w, amount, c, amount + adminFee, f, adminFee);
    }
  }

  lemma RefundIsWellFormed(txId: string, user: string, merchant: string, amount: int, feeReturned: int)
    requires txId != ""
    ensures var r := Movements.NewRefund(txId, Accounts.MerchantPayable(merchant), Accounts.UserWallet(user),
                                         Accounts.PlatformFeeRevenue(), amount, feeReturned);
            r.Ok? ==> WellFormed(Credit(r.value, Some(Accounts.UserWallet(user))))
  {
    NamesAreNotEmpty(user);
    NamesAreNotEmpty(merchant);
    Accounts.WalletNames(user);
    Accounts.WalletNames(merchant);
    var w, m, f := Accounts.UserWallet(user), Accounts.MerchantPayable(merchant), Accounts.PlatformFeeRevenue();
    Movements.RefundEffect(txId, m, w, f, amount, feeReturned);
    var r := Movements.NewRefund(txId, m, w, f, amount, feeReturned);
    if r.Ok? {
      CreditFits(r.value, w, amount, m, amount - feeReturned, f, -feeReturned);
    }
  }

  lemma DisputeIsWellFormed(txId: string, user: string, merchant: string, amount: int, covered: int)
    requires txId != ""
    ensures var r := Movements.NewDisputeRefund(txId, Accounts.MerchantHoldback(merchant), Accounts.PlatformFloat(),
                                                Accounts.UserWallet(user), amount, covered);
            r.Ok? ==> WellFormed(Credit(r.value, Some(Accounts.UserWallet(user))))
  {
    NamesAreNotEmpty(user);
    NamesAreNotEmpty(merchant);
    Accounts.WalletNames(user);
    Accounts.WalletNames(merchant);
    var w, h, f := Accounts.UserWallet(user), Accounts.MerchantHoldback(merchant), Accounts.PlatformFloat();
    Movements.DisputeEffect(txId, h, f, w, amount, covered);
    var r := Movements.NewDisputeRefund(txId, h, f, w, amount, covered);
    if r.Ok? {
      forall a ensures Delta(r.value.entries, a) == Movements.Flow(a, h, covered, w, amount, f, covered - amount) {
      }
      CreditFits(r.value, w, amount, h, covered, f, covered - amount);
    }
  }

  // The discipline is necessary.

  /** What the cache may show for an account: at most the ledger sum less what is held, and hiding at most the credits
      that are still to be invalidated. */
  predicate MayShow(s: State, a: string, v: int) {
    var spendable := Delta(s.log, a) - InFlight(s.calls, a, Hold);
    0 <= v <= spendable && spendable - InFlight(s.calls, a, Unseen) <= v
  }

  lemma WarmedCalls(s: State, i: nat, a: string)
    requires Safe(s) && Enabled(s, Warm(i)) && Accounts.IsUserWallet(a)
    ensures var t := NextWarm(s, i);
            AccountSafe(t, a) <==>
              if a == s.calls[i].request.account then MayShow(s, a, s.calls[i].phase.balance) else AccountSafe(s, a)
  {
    assert AccountSafe(s, a);
    PhaseShares(s, i, Warmed, a);
  }

  /** Exactly when a warm is harmless, whatever was read and however long ago: when the value written is one the cache
      may show at that moment. */
  lemma WarmIsSafeIff(s: State, i: nat)
    requires Safe(s) && Enabled(s, Warm(i))
    ensures Safe(Next(s, Warm(i))) <==> MayShow(s, s.calls[i].request.account, s.calls[i].phase.balance)
  {
    var t, a := Next(s, Warm(i)), s.calls[i].request.account;
    assert s.calls[i] in s.calls && Accounts.IsUserWallet(a);
    WarmedCalls(s, i, a);
    if MayShow(s, a, s.calls[i].phase.balance) {
      forall b | Accounts.IsUserWallet(b) ensures AccountSafe(t, b) {
        assert AccountSafe(s, b);
        WarmedCalls(s, i, b);
      }
      assert forall c <- t.calls :: exists d <- s.calls :: c.request == d.request;
    }
  }

  /** A value read at that very moment is harmless if and only if nothing is reserved on the account. */
  lemma FreshWarmIsSafeIff(s: State, i: nat)
    requires Safe(s) && Enabled(s, Warm(i))
    requires s.calls[i].phase.balance == Delta(s.log, s.calls[i].request.account)
    ensures Safe(Next(s, Warm(i))) <==> Unreserved(s, s.calls[i].request.account)
  {
    var a := s.calls[i].request.account;
    assert s.calls[i] in s.calls && Accounts.IsUserWallet(a);
    assert AccountSafe(s, a);
    WarmIsSafeIff(s, i);
    UnreservedMeansNothingHeld(s.calls, a);
    InFlightNonNegative(s.calls, a, Hold);
    InFlightNonNegative(s.calls, a, Unseen);
  }

  /** A stale value is not made harmless by an account without reservations: then it must still not exceed the ledger
      sum, nor fall short of it by more than the credits that are to be invalidated. */
  lemma StaleWarmIsSafeIff(s: State, i: nat)
    requires Safe(s) && Enabled(s, Warm(i)) && Unreserved(s, s.calls[i].request.account)
    ensures var a, v := s.calls[i].request.account, s.calls[i].phase.balance;
            Safe(Next(s, Warm(i))) <==>
              0 <= v <= Delta(s.log, a) && Delta(s.log, a) - InFlight(s.calls, a, Unseen) <= v
  {
    assert s.calls[i] in s.calls;
    WarmIsSafeIff(s, i);
    UnreservedMeansNothingHeld(s.calls, s.calls[i].request.account);
  }

  /** A ledger with `x` paid into one wallet. */
  function FundedLog(wallet: string, x: int): seq<Entry> {
    [Entry(Accounts.ProviderClearing("BCA"), -x), Entry(wallet, x)]
  }

  function Send(txId: string, wallet: string, payee: string, x: int): Request {
    Debit(wallet, x, Posting(txId, [Entry(wallet, -x), Entry(payee, x)]), Some(payee))
  }

  lemma SendIsWellFormed(txId: string, wallet: string, payee: string, x: int)
    requires txId != "" && x > 0 && wallet != payee
    requires Accounts.IsUserWallet(wallet) && Accounts.IsUserWallet(payee)
    ensures WellFormed(Send(txId, wallet, payee, x))
  {
    assert wallet != "" && payee != "";
    Movements.TransferEffect(txId, wallet, payee, x);
  }

  lemma FundedIsSafe(wallet: string, x: int)
    requires x > 0 && Accounts.IsUserWallet(wallet)
    ensures Safe(State(map[], FundedLog(wallet, x), []))
    ensures Delta(FundedLog(wallet, x), wallet) == x
  {
    var log := FundedLog(wallet, x);
    Accounts.WalletNames("BCA");
    forall a
      ensures SumOf(log) == 0
      ensures Delta(log, a) == (if a == log[0].account then -x else 0) + (if a == wallet then x else 0)
    {
      FoldTwo(log[0], log[1], a);
      FoldOne(log[0], a);
      FoldOne(log[1], a);
    }
    assert SumOf(log) == 0 by { assert Delta(log, wallet) == x; }
  }

  /** The four steps a call takes when nothing is cached. */
  function ColdReserve(i: nat): seq<Step> { [Reserve(i), ReadLedger(i), Warm(i), Reserve(i)] }

  /** Two calls spend the same money when the entry is lost and warmed again while the first holds it. */
  function DoubleSpend(wallet: string, payee: string, x: int): seq<Step> {
    [Begin(Send("t1", wallet, payee, x))] + (ColdReserve(0) + ([Drop(wallet)] + (
    [Begin(Send("t2", wallet, payee, x))] + (ColdReserve(1) + ([Commit(0)] + ([Commit(1)] + []))))))
  }

  /** The same through a stale read: nothing is reserved when the old value is written back. */
  function StaleSpend(wallet: string, payee: string, x: int): seq<Step> {
    [Begin(Send("t1", wallet, payee, x))] + ([Reserve(0)] + ([ReadLedger(0)] + (
    [Begin(Send("t2", wallet, payee, x))] + (ColdReserve(1) + ([Commit(1)] + (
    [Warm(0)] + ([Reserve(0)] + ([Commit(0)] + []))))))))
  }

  lemma RunCons(s: State, step: Step, rest: seq<Step>)
    ensures Run(s, [step] + rest) == Run(Next(s, step), rest)
  {
    assert ([step] + rest)[1..] == rest;
  }

  /** A cold call that asks for the whole ledger sum of its wallet gets it. */
  lemma ColdReserveHolds(s: State, i: nat, rest: seq<Step>)
    requires i < |s.calls| && s.calls[i].request.Debit? && s.calls[i].phase.Start?
    requires var r := s.calls[i].request;
             r.account !in s.cache && r.amount > 0 && Delta(s.log, r.account) == r.amount
    ensures Run(s, ColdReserve(i) + rest) ==
            Run(With(s, i, Holding).(cache := s.cache[s.calls[i].request.account := 0]), rest)
  {
    var s1 := Next(s, Reserve(i));
    var s2 := Next(s1, ReadLedger(i));
    var s3 := Next(s2, Warm(i));
    var s4 := Next(s3, Reserve(i));
    assert s1 == With(s, i, Cold);
    RunCons(s, Reserve(i), [ReadLedger(i)] + ([Warm(i)] + ([Reserve(i)] + rest)));
    RunCons(s1, ReadLedger(i), [Warm(i)] + ([Reserve(i)] + rest));
    RunCons(s2, Warm(i), [Reserve(i)] + rest);
    RunCons(s3, Reserve(i), rest);
    assert ColdReserve(i) + rest == [Reserve(i)] + ([ReadLedger(i)] + ([Warm(i)] + ([Reserve(i)] + rest)));
    assert s4.cache == s.cache[s.calls[i].request.account := 0];
    assert s4.calls == With(s, i, Holding).calls;
  }

  lemma DoubleSpendEnds(s0: State, r1: Request, r2: Request)
    requires r1.Debit? && r2.Debit? && r1.account == r2.account && r1.amount == r2.amount > 0
    requires WellFormed(r1) && WellFormed(r2)
    requires s0 == State(map[], s0.log, []) && Delta(s0.log, r1.account) == r1.amount
    ensures Run(s0, [Begin(r1)] + (ColdReserve(0) + ([Drop(r1.account)] + (
                    [Begin(r2)] + (ColdReserve(1) + ([Commit(0)] + ([Commit(1)] + []))))))).log ==
            s0.log + r1.posting.entries + r2.posting.entries
  {
    var k3 := [Commit(0)] + ([Commit(1)] + []);
    var k2 := [Begin(r2)] + (ColdReserve(1) + k3);
    RunCons(s0, Begin(r1), ColdReserve(0) + ([Drop(r1.account)] + k2));
    var s1 := Next(s0, Begin(r1));
    ColdReserveHolds(s1, 0, [Drop(r1.account)] + k2);
    var s2 := With(s1, 0, Holding).(cache := s1.cache[r1.account := 0]);
    RunCons(s2, Drop(r1.account), k2);
    var s3 := Next(s2, Drop(r1.account));
    RunCons(s3, Begin(r2), ColdReserve(1) + k3);
    var s4 := Next(s3, Begin(r2));
    ColdReserveHolds(s4, 1, k3);
    var s5 := With(s4, 1, Holding).(cache := s4.cache[r2.account := 0]);
    CommitBoth(s5, 0, 1);
  }

  lemma CommitBoth(s: State, i: nat, j: nat)
    requires i < |s.calls| && j < |s.calls| && i != j
    requires s.calls[i].phase.Holding? && s.calls[j].phase.Holding?
    requires s.calls[i].request.Debit? && s.calls[j].request.Debit?
    ensures Run(s, [Commit(i)] + ([Commit(j)] + [])).log ==
            s.log + s.calls[i].request.posting.entries + s.calls[j].request.posting.entries
  {
    RunCons(s, Commit(i), [Commit(j)] + []);
    RunCons(Next(s, Commit(i)), Commit(j), []);
  }

  lemma StaleSpendEnds(s0: State, r1: Request, r2: Request)
    requires r1.Debit? && r2.Debit? && r1.account == r2.account && r1.amount == r2.amount > 0
    requires WellFormed(r1) && WellFormed(r2)
    requires s0 == State(map[], s0.log, []) && Delta(s0.log, r1.account) == r1.amount
    ensures Run(s0, [Begin(r1)] + ([Reserve(0)] + ([ReadLedger(0)] + (
                    [Begin(r2)] + (ColdReserve(1) + ([Commit(1)] + (
                    [Warm(0)] + ([Reserve(0)] + ([Commit(0)] + []))))))))).log ==
            s0.log + r2.posting.entries + r1.posting.entries
  {
    var k3 := [Warm(0)] + ([Reserve(0)] + ([Commit(0)] + []));
    var k2 := [Begin(r2)] + (ColdReserve(1) + ([Commit(1)] + k3));
    RunCons(s0, Begin(r1), [Reserve(0)] + ([ReadLedger(0)] + k2));
    var s1 := Next(s0, Begin(r1));
    RunCons(s1, Reserve(0), [ReadLedger(0)] + k2);
    var s2 := Next(s1, Reserve(0));
    RunCons(s2, ReadLedger(0), k2);
    var s3 := Next(s2, ReadLedger(0));
    assert s3.cache == map[] && s3.log == s0.log && s3.calls == [Call(r1, Read(r1.amount))];
    RunCons(s3, Begin(r2), ColdReserve(1) + ([Commit(1)] + k3));
    var s4 := Next(s3, Begin(r2));
    ColdReserveHolds(s4, 1, [Commit(1)] + k3);
    var s5 := With(s4, 1, Holding).(cache := s4.cache[r2.account := 0]);
    StaleTail(s5, r1, r2, k3);
  }

  lemma StaleTail(s: State, r1: Request, r2: Request, k3: seq<Step>)
    requires r1.Debit? && r2.Debit? && r1.amount > 0
    requires s.calls == [Call(r1, Read(r1.amount)), Call(r2, Holding)]
    requires k3 == [Warm(0)] + ([Reserve(0)] + ([Commit(0)] + []))
    ensures Run(s, [Commit(1)] + k3).log == s.log + r2.posting.entries + r1.posting.entries
  {
    RunCons(s, Commit(1), k3);
    var s1 := Next(s, Commit(1));
    RunCons(s1, Warm(0), [Reserve(0)] + ([Commit(0)] + []));
    var s2 := Next(s1, Warm(0));
    RunCons(s2, Reserve(0), [Commit(0)] + []);
    var s3 := Next(s2, Reserve(0));
    assert s3.calls[0] == Call(r1, Holding);
    RunCons(s3, Commit(0), []);
  }

  /** Runs as the code allows them: without the discipline the wallet's ledger sum ends at `-x`,
      for every wallet, payee and amount. */
  lemma UndisciplinedRunsOverspend(wallet: string, payee: string, x: int)
    requires x > 0 && wallet != payee
    requires Accounts.IsUserWallet(wallet) && Accounts.IsUserWallet(payee)
    ensures Delta(Run(State(map[], FundedLog(wallet, x), []), DoubleSpend(wallet, payee, x)).log, wallet) == -x
    ensures Delta(Run(State(map[], FundedLog(wallet, x), []), StaleSpend(wallet, payee, x)).log, wallet) == -x
  {
    var log := FundedLog(wallet, x);
    FundedIsSafe(wallet, x);
    SendIsWellFormed("t1", wallet, payee, x);
    SendIsWellFormed("t2", wallet, payee, x);
    var r1, r2 := Send("t1", wallet, payee, x), Send("t2", wallet, payee, x);
    DoubleSpendEnds(State(map[], log, []), r1, r2);
    StaleSpendEnds(State(map[], log, []), r1, r2);
    assert Fits(r1, wallet) && Fits(r2, wallet);
    DeltaConcat(log, r1.posting.entries, wallet);
    DeltaConcat(log + r1.posting.entries, r2.posting.entries, wallet);
    DeltaConcat(log, r2.posting.entries, wallet);
    DeltaConcat(log + r2.posting.entries, r1.posting.entries, wallet);
  }
}
