/** Refunds of one payment, taken one at a time: how much may still be refunded, how much of the fee goes back, and
    what rounding each part separately does to the whole. */
module Refunds {
  import opened Wrappers
  import opened Ledger
  import Accounts
  import Money
  import Movements
  import Services
  import Wallet

  datatype Payment = Payment(payer: string, merchant: string, succeeded: bool, paid: int, fee: int)

  datatype Refund = Refund(amount: int, feeReturned: int)

  datatype State = State(payment: Payment, refunds: seq<Refund>, log: seq<Entry>)

  datatype Fault =
    NoPayment | NoReason | NotFound | NotSucceeded | FullyRefunded | ExceedsPayment | Refused(error: Error)

  function Total(refunds: seq<Refund>): int {
    if refunds == [] then 0 else Total(refunds[..|refunds| - 1]) + refunds[|refunds| - 1].amount
  }

  function Fees(refunds: seq<Refund>): int {
    if refunds == [] then 0 else Fees(refunds[..|refunds| - 1]) + refunds[|refunds| - 1].feeReturned
  }

  /** The amount to refund: what was asked for, or everything left when nothing was. */
  function Wanted(paid: int, already: int, requested: int): Result<int, Fault> {
    var amount := if requested == 0 then paid - already else requested;
    if amount <= 0 then Err(FullyRefunded)
    else if amount + already > paid then Err(ExceedsPayment)
    else Ok(amount)
  }

  function PostingFor(p: Payment, amount: int, txId: string): Result<(Posting, int), Error> {
    match Movements.ProportionalFee(p.paid, p.fee, amount)
    case Err(e) => Err(e)
    case Ok(fee) =>
      match Movements.NewRefund(txId, Accounts.MerchantPayable(p.merchant), Accounts.UserWallet(p.payer),
                                Accounts.PlatformFeeRevenue(), amount, fee)
      case Err(e) => Err(e)
      case Ok(posting) => Ok((posting, fee))
  }

  /** `caller` is empty for the platform itself. */
  function Screened(s: State, caller: string, requested: int, reason: string): Result<int, Fault> {
    if reason == "" then Err(NoReason)
    else if caller != "" && caller != s.payment.merchant then Err(NotFound)
    else if !s.payment.succeeded then Err(NotSucceeded)
    else Wanted(s.payment.paid, Total(s.refunds), requested)
  }

  /** A refund of an amount that passed the checks: posted and recorded together, or not at all. */
  function Posted(s: State, amount: int, commits: bool, txId: string): State {
    match PostingFor(s.payment, amount, txId)
    case Err(_) => s
    case Ok((posting, fee)) =>
      if commits then s.(refunds := s.refunds + [Refund(amount, fee)], log := s.log + posting.entries) else s
  }

  function Refunded(s: State, caller: string, requested: int, reason: string, commits: bool, txId: string): State {
    match Screened(s, caller, requested, reason)
    case Err(_) => s
    case Ok(amount) => Posted(s, amount, commits, txId)
  }

  /** Transaction ids are never empty. */
  datatype Request = Request(caller: string, requested: int, reason: string, commits: bool, txId: string)

  function Run(s: State, requests: seq<Request>): State
    decreases |requests|
  {
    if requests == [] then s
    else
      var r := requests[0];
      Run(if r.txId == "" then s else Refunded(s, r.caller, r.requested, r.reason, r.commits, r.txId), requests[1..])
  }

  // Rounding.

  /** A payment as the payment service leaves it: the fee is part of the amount. */
  predicate Paid(p: Payment) { p.paid > 0 && 0 <= p.fee <= p.paid }

  lemma Product(a: int, b: int)
    requires a >= 0 && b >= 0
    ensures a * b >= 0
  {
  }

  /** One part is off by at most half a unit, upwards included. */
  lemma PartDrift(p: Payment, amount: int)
    requires Paid(p) && 0 < amount <= p.paid
    ensures Movements.ProportionalFee(p.paid, p.fee, amount).Ok?
    ensures var fee := Movements.ProportionalFee(p.paid, p.fee, amount).value;
            -p.paid < 2 * (fee * p.paid) - 2 * (p.fee * amount) <= p.paid && fee >= 0
  {
    Product(p.fee, amount);
    Money.HalfUpIsNearest(p.fee * amount, p.paid);
  }

  lemma Swallows(paid: int, charged: int, amount: int, fee: int)
    requires paid > 0 && amount > 0
    requires -paid < 2 * (fee * paid) - 2 * (charged * amount) <= paid
    requires amount * (paid - charged) >= 0
    ensures fee <= amount && (fee == amount <==> 2 * (amount * (paid - charged)) <= paid)
  {
    assert amount * (paid - charged) == amount * paid - charged * amount;
    if fee > amount {
      Money.NextMultiple(amount, fee, paid);
    } else if fee < amount {
      Money.NextMultiple(fee, amount, paid);
    }
  }

  /** The returned fee never exceeds the part, and it is all of it, leaving the merchant nothing to pay, exactly when
      the merchant's share of the part is at most half a unit. */
  lemma FeeSwallowsPartIff(p: Payment, amount: int)
    requires Paid(p) && 0 < amount <= p.paid
    ensures var fee := Movements.ProportionalFee(p.paid, p.fee, amount).value;
            0 <= fee <= amount && (fee == amount <==> 2 * (amount * (p.paid - p.fee)) <= p.paid)
  {
    PartDrift(p, amount);
    Product(amount, p.paid - p.fee);
    Swallows(p.paid, p.fee, amount, Movements.ProportionalFee(p.paid, p.fee, amount).value);
  }

  lemma FullRefundReturnsFee(p: Payment)
    requires Paid(p)
    ensures Movements.ProportionalFee(p.paid, p.fee, p.paid) == Ok(p.fee)
  {
    Product(p.fee, p.paid);
    Money.NearestIsUnique(p.fee * p.paid, p.paid, p.fee);
  }

  /** The drift bound is reached: two halves of an even amount with an odd fee return one unit more than was charged. */
  lemma TwoHalvesOverReturn(half: int, m: int)
    requires half > 0 && 0 <= 2 * m + 1 <= 2 * half
    ensures Movements.ProportionalFee(2 * half, 2 * m + 1, half) == Ok(m + 1)
  {
    var product := (2 * m + 1) * half;
    assert product == 2 * (m * half) + half;
    Product(2 * m + 1, half);
    assert (m + 1) * (2 * half) == 2 * (m * half) + 2 * half;
    Money.NearestIsUnique(product, 2 * half, m + 1);
  }

  // What a request for a refund is answered.

  /** The caller may refund this payment, and something is left of it that covers what is asked for. */
  predicate Allowed(p: Payment, left: int, caller: string, requested: int) {
    && caller in ["", p.merchant] && p.succeeded
    && (0 < requested <= left || (requested == 0 && 0 < left))
  }

  /** The merchant's share of the part rounds to more than nothing. */
  predicate SharesEnough(p: Payment, amount: int) { 2 * (amount * (p.paid - p.fee)) > p.paid }

  /** The refund that is due for a part: of exactly this amount, with the fee rounded to the nearest unit. */
  predicate Due(p: Payment, amount: int, r: Refund) {
    r.amount == amount && -p.paid < 2 * (r.feeReturned * p.paid) - 2 * (p.fee * amount) <= p.paid
  }

  /** Why a request for a payment that exists is refused before anything is posted: somebody else's payment, one that
      did not succeed, nothing to refund, more than is left. */
  predicate Refuses(p: Payment, left: int, caller: string, requested: int, why: Fault) {
    match why
    case NotFound => caller !in ["", p.merchant]
    case NotSucceeded => caller in ["", p.merchant] && !p.succeeded
    case FullyRefunded => caller in ["", p.merchant] && p.succeeded && (requested < 0 || (requested == 0 && left <= 0))
    case ExceedsPayment => caller in ["", p.merchant] && p.succeeded && requested > 0 && requested > left
    case _ => false
  }

  /** The checks pass exactly for what is allowed, with the amount that was asked for, or all that is left when none
      was; and each refusal has its own cause. */
  lemma ScreenedIff(s: State, caller: string, requested: int, reason: string)
    requires reason != ""
    ensures var left := s.payment.paid - Total(s.refunds);
            var r := Screened(s, caller, requested, reason);
            && (r.Ok? <==> Allowed(s.payment, left, caller, requested))
            && (r.Ok? ==> r.value == if requested == 0 then left else requested)
            && (r.Err? ==> Refuses(s.payment, left, caller, requested, r.error))
  {
  }

  /** A request leads to exactly one refund, the one that is due, when it states a reason, is allowed, leaves the
      merchant something to give and commits; otherwise to nothing. */
  lemma RefundedIff(s: State, caller: string, requested: int, reason: string, commits: bool, txId: string)
    requires Paid(s.payment) && 0 <= Total(s.refunds) && txId != ""
    ensures var p, left := s.payment, s.payment.paid - Total(s.refunds);
            var amount := if requested == 0 then left else requested;
            var t := Refunded(s, caller, requested, reason, commits, txId);
            && t.payment == p
            && (reason != "" && Allowed(p, left, caller, requested) && SharesEnough(p, amount) && commits ==>
                  |t.refunds| == |s.refunds| + 1 && t.refunds[..|s.refunds|] == s.refunds
                  && Due(p, amount, t.refunds[|s.refunds|]))
            && (!(reason != "" && Allowed(p, left, caller, requested) && SharesEnough(p, amount) && commits) ==> t == s)
  {
    var left := s.payment.paid - Total(s.refunds);
    var amount := if requested == 0 then left else requested;
    if reason != "" {
      ScreenedIff(s, caller, requested, reason);
      if Allowed(s.payment, left, caller, requested) {
        PostingIsValid(s.payment, amount, txId);
      }
    }
  }

  // Every serial run.

  function Effect(p: Payment, total: int, fees: int, account: string): int {
    Movements.Flow(account, Accounts.MerchantPayable(p.merchant), total - fees, Accounts.UserWallet(p.payer), total,
                   Accounts.PlatformFeeRevenue(), -fees)
  }

  ghost predicate Booked(s: State, opening: seq<Entry>) {
    && SumOf(s.log) == 0
    && forall a :: Delta(s.log, a) == Delta(opening, a) + Effect(s.payment, Total(s.refunds), Fees(s.refunds), a)
  }

  /** `n` parts are off by at most `n` halves together. */
  predicate Drift(p: Payment, n: int, total: int, fees: int) {
    -(n * p.paid) <= 2 * (p.paid * fees) - 2 * (p.fee * total) <= n * p.paid
    && (n > 0 ==> -(n * p.paid) < 2 * (p.paid * fees) - 2 * (p.fee * total))
  }

  ghost predicate Inv(s: State, opening: seq<Entry>) {
    && Paid(s.payment) && 0 <= Total(s.refunds) <= s.payment.paid
    && Drift(s.payment, |s.refunds|, Total(s.refunds), Fees(s.refunds)) && Booked(s, opening)
  }

  lemma DriftAdds(p: Payment, n: int, total: int, fees: int, amount: int, fee: int)
    requires Drift(p, n, total, fees) && n >= 0 && p.paid > 0
    requires -p.paid < 2 * (fee * p.paid) - 2 * (p.fee * amount) <= p.paid
    ensures Drift(p, n + 1, total + amount, fees + fee)
  {
    assert (n + 1) * p.paid == n * p.paid + p.paid;
    assert p.paid * (fees + fee) == p.paid * fees + fee * p.paid;
    assert p.fee * (total + amount) == p.fee * total + p.fee * amount;
  }

  lemma Appended(refunds: seq<Refund>, r: Refund)
    ensures Total(refunds + [r]) == Total(refunds) + r.amount && Fees(refunds + [r]) == Fees(refunds) + r.feeReturned
  {
    assert (refunds + [r])[..|refunds|] == refunds;
  }

  lemma PostingEffect(p: Payment, amount: int, txId: string)
    requires Paid(p) && 0 < amount <= p.paid && txId != ""
    ensures var r := PostingFor(p, amount, txId);
            && (r.Ok? <==> 2 * (amount * (p.paid - p.fee)) > p.paid)
            && (r.Ok? ==>
                  && Valid(r.value.0) && r.value.0.txId == txId
                  && Movements.ProportionalFee(p.paid, p.fee, amount) == Ok(r.value.1)
                  && forall a :: Delta(r.value.0.entries, a) == Effect(p, amount, r.value.1, a))
  {
    FeeSwallowsPartIff(p, amount);
    var fee := Movements.ProportionalFee(p.paid, p.fee, amount).value;
    Services.PaymentNames(p.payer, p.merchant);
    var accounts := [Accounts.MerchantPayable(p.merchant), Accounts.UserWallet(p.payer), Accounts.PlatformFeeRevenue()];
    assert Movements.Named(accounts);
    Movements.RefundEffect(txId, accounts[0], accounts[1], accounts[2], amount, fee);
  }

  lemma PostingIsValid(p: Payment, amount: int, txId: string)
    requires Paid(p) && 0 < amount <= p.paid && txId != ""
    ensures var r := PostingFor(p, amount, txId);
            && (r.Ok? <==> SharesEnough(p, amount))
            && (r.Ok? ==> Valid(r.value.0) && r.value.0.txId == txId && Due(p, amount, Refund(amount, r.value.1)))
  {
    PostingEffect(p, amount, txId);
    PartDrift(p, amount);
  }

  lemma RefundKeepsBooked(s: State, amount: int, txId: string, opening: seq<Entry>)
    requires Booked(s, opening) && Paid(s.payment) && 0 < amount <= s.payment.paid && txId != ""
    requires PostingFor(s.payment, amount, txId).Ok?
    ensures var (posting, fee) := PostingFor(s.payment, amount, txId).value;
            Booked(s.(refunds := s.refunds + [Refund(amount, fee)], log := s.log + posting.entries), opening)
  {
    var (posting, fee) := PostingFor(s.payment, amount, txId).value;
    PostingEffect(s.payment, amount, txId);
    PostingConserves(s.log, posting);
    Appended(s.refunds, Refund(amount, fee));
  }

  lemma RefundKeepsInv(s: State, r: Request, opening: seq<Entry>)
    requires Inv(s, opening) && r.txId != ""
    ensures Inv(Refunded(s, r.caller, r.requested, r.reason, r.commits, r.txId), opening)
  {
    var check := Screened(s, r.caller, r.requested, r.reason);
    if check.Ok? && r.commits && PostingFor(s.payment, check.value, r.txId).Ok? {
      var amount := check.value;
      var fee := PostingFor(s.payment, amount, r.txId).value.1;
      RefundKeepsBooked(s, amount, r.txId, opening);
      PostingEffect(s.payment, amount, r.txId);
      PartDrift(s.payment, amount);
      DriftAdds(s.payment, |s.refunds|, Total(s.refunds), Fees(s.refunds), amount, fee);
      Appended(s.refunds, Refund(amount, fee));
    }
  }

  lemma {:induction false} RunKeepsInv(s: State, requests: seq<Request>, opening: seq<Entry>)
    requires Inv(s, opening)
    ensures Inv(Run(s, requests), opening) && Run(s, requests).payment == s.payment
    decreases |requests|
  {
    if requests != [] {
      var r := requests[0];
      if r.txId != "" {
        RefundKeepsInv(s, r, opening);
      }
      var t := if r.txId == "" then s else Refunded(s, r.caller, r.requested, r.reason, r.commits, r.txId);
      RunKeepsInv(t, requests[1..], opening);
    }
  }

  lemma EmptyIsBooked(p: Payment, opening: seq<Entry>)
    requires SumOf(opening) == 0 && Paid(p)
    ensures Inv(State(p, [], opening), opening)
  {
  }

  lemma HalfOf(n: int, paid: int, x: int)
    requires paid > 0 && -(n * paid) < x * paid <= n * paid
    ensures -n < x <= n
  {
    assert (-n) * paid == -(n * paid);
    if x > n {
      Money.NextMultiple(n, x, paid);
    } else if x < -n {
      Money.NextMultiple(x, -n, paid);
    }
  }

  lemma FullDrift(p: Payment, n: int, fees: int)
    requires p.paid > 0 && n > 0 && Drift(p, n, p.paid, fees)
    ensures -n < 2 * (fees - p.fee) <= n
  {
    assert (2 * (fees - p.fee)) * p.paid == 2 * (p.paid * fees) - 2 * (p.fee * p.paid);
    HalfOf(n, p.paid, 2 * (fees - p.fee));
  }

  /** However a payment is refunded: never more than was paid; the payer gains what was refunded, the platform gives
      up the fees and the merchant the rest; the fees are off by at most half a unit a part; and after a full refund
      in `n` parts the fees returned differ from the fee charged by at most `n` halves. */
  lemma EveryRunRefunds(p: Payment, opening: seq<Entry>, requests: seq<Request>, account: string)
    requires Paid(p) && SumOf(opening) == 0
    ensures var s := Run(State(p, [], opening), requests);
            var n, total, fees := |s.refunds|, Total(s.refunds), Fees(s.refunds);
            && 0 <= total <= p.paid
            && Delta(s.log, account) == Delta(opening, account) + Effect(p, total, fees, account)
            && Drift(p, n, total, fees)
            && (total == p.paid ==> -n < 2 * (fees - p.fee) <= n)
  {
    EmptyIsBooked(p, opening);
    RunKeepsInv(State(p, [], opening), requests, opening);
    var s := Run(State(p, [], opening), requests);
    if Total(s.refunds) == p.paid {
      assert s.refunds != [];
      FullDrift(p, |s.refunds|, Fees(s.refunds));
    }
  }

  // The service.

  class Desk {
    const service: Services.Service
    var payments: map<string, Payment>
    var refunds: map<string, seq<Refund>>

    constructor (service: Services.Service, payments: map<string, Payment>)
      requires forall id :: id in payments ==> Paid(payments[id])
      ensures Valid() && this.service == service && this.payments == payments
      ensures forall id :: id in payments ==> refunds[id] == []
    {
      this.service, this.payments := service, payments;
      refunds := map id | id in payments :: [];
    }

    /** Every payment has its list of refunds, which do not exceed it. */
    ghost predicate Valid()
      reads this
    {
      && refunds.Keys == payments.Keys
      && forall id :: id in payments ==> Paid(payments[id]) && 0 <= Total(refunds[id]) <= payments[id].paid
    }

    ghost function View(id: string): State
      requires id in payments && id in refunds
      reads this, service, service.repo
    {
      State(payments[id], refunds[id], service.repo.log)
    }

    method CreateRefund(caller: string, id: string, requested: int, reason: string, commits: bool, txId: string)
      returns (r: Result<Refund, Fault>)
      requires Valid() && service.Agrees() && service.Fresh(txId)
      modifies this, service.repo, service.wallet
      ensures Valid() && service.Agrees() && payments == old(payments)
      ensures r.Err? ==>
                && refunds == old(refunds) && service.repo.log == old(service.repo.log)
                && service.wallet.balances == old(service.wallet.balances)
      ensures r.Ok? ==> id in refunds && refunds == old(refunds)[id := old(refunds)[id] + [r.value]]
      ensures id == "" ==> r == Err(NoPayment)
      ensures id != "" && reason == "" ==> r == Err(NoReason)
      ensures id != "" && reason != "" && id !in payments ==> r == Err(NotFound)
      ensures id != "" && id in payments ==>
                View(id) == Refunded(old(View(id)), caller, requested, reason, commits, txId)
      ensures id != "" && reason != "" && id in payments ==>
                var p, left := payments[id], payments[id].paid - Total(old(refunds)[id]);
                var amount := if requested == 0 then left else requested;
                && (r.Ok? <==> Allowed(p, left, caller, requested) && SharesEnough(p, amount) && commits)
                && (r.Ok? ==> Due(p, amount, r.value))
                && (r.Err? ==> Refuses(p, left, caller, requested, r.error)
                               || (Allowed(p, left, caller, requested) && r.error.Refused?))
    {
      if id == "" {
        return Err(NoPayment);
      }
      if reason == "" {
        return Err(NoReason);
      }
      if id !in payments {
        return Err(NotFound);
      }
      ScreenedIff(View(id), caller, requested, reason);
      var screened := Screen(id, caller, requested, reason);
      if screened.Err? {
        return Err(screened.error);
      }
      r := PostRefund(id, screened.value, commits, txId);
    }

    /** The checks on a payment that was found, in their order. */
    method Screen(id: string, caller: string, requested: int, reason: string) returns (r: Result<int, Fault>)
      requires Valid() && id in payments && reason != ""
      ensures r == Screened(View(id), caller, requested, reason)
      ensures var left := payments[id].paid - Total(refunds[id]);
              && (r.Ok? <==> Allowed(payments[id], left, caller, requested))
              && (r.Ok? ==> 0 < r.value <= left && r.value == if requested == 0 then left else requested)
              && (r.Err? ==> Refuses(payments[id], left, caller, requested, r.error))
    {
      var payment := payments[id];
      if caller != "" && caller != payment.merchant {
        return Err(NotFound);
      }
      if !payment.succeeded {
        return Err(NotSucceeded);
      }
      var already := Total(refunds[id]);
      var amount := requested;
      if amount == 0 {
        amount := payment.paid - already;
      }
      if amount <= 0 {
        return Err(FullyRefunded);
      }
      if amount + already > payment.paid {
        return Err(ExceedsPayment);
      }
      return Ok(amount);
    }

    /** The refund itself, of an amount that fits what is left. */
    method PostRefund(id: string, amount: int, commits: bool, txId: string) returns (r: Result<Refund, Fault>)
      requires Valid() && service.Agrees() && service.Fresh(txId)
      requires id in payments && 0 < amount <= payments[id].paid - Total(refunds[id])
      modifies this, service.repo, service.wallet
      ensures Valid() && service.Agrees() && payments == old(payments)
      ensures View(id) == Posted(old(View(id)), amount, commits, txId)
      ensures r.Ok? <==> SharesEnough(payments[id], amount) && commits
      ensures r.Ok? ==>
                && Due(payments[id], amount, r.value) && refunds == old(refunds)[id := old(refunds)[id] + [r.value]]
                && Accounts.UserWallet(payments[id].payer) !in service.wallet.balances
      ensures r.Err? ==>
                && r.error.Refused? && refunds == old(refunds) && service.repo.log == old(service.repo.log)
                && service.wallet.balances == old(service.wallet.balances)
    {
      var payment := payments[id];
      var built := PostingFor(payment, amount, txId);
      PostingIsValid(payment, amount, txId);
      if built.Err? {
        return Err(Refused(built.error));
      }
      var (posting, fee) := built.value;
      var failed := service.CommitCredit(Accounts.UserWallet(payment.payer), Ok(posting), commits);
      if failed.Some? {
        return Err(Refused(CommitFailed));
      }
      RefundKeepsAgreement(old(service.wallet.balances), old(service.repo.log), payment, amount, txId);
      Appended(refunds[id], Refund(amount, fee));
      refunds := refunds[id := refunds[id] + [Refund(amount, fee)]];
      return Ok(Refund(amount, fee));
    }
  }

  lemma RefundKeepsAgreement(cache: Wallet.Balances, log: seq<Entry>, p: Payment, amount: int, txId: string)
    requires SumOf(log) == 0 && Services.CacheAgrees(cache, log) && Paid(p) && 0 < amount <= p.paid && txId != ""
    requires PostingFor(p, amount, txId).Ok?
    ensures Services.CacheAgrees(cache - {Accounts.UserWallet(p.payer)},
                                 log + PostingFor(p, amount, txId).value.0.entries)
  {
    var (posting, fee) := PostingFor(p, amount, txId).value;
    var from, to, extra := Accounts.MerchantPayable(p.merchant), Accounts.UserWallet(p.payer),
                           Accounts.PlatformFeeRevenue();
    PostingEffect(p, amount, txId);
    Services.PaymentNames(p.payer, p.merchant);
    Services.AppendMoves(log, posting, from, amount - fee, to, amount, extra, -fee);
    Services.CreditAgrees(cache, log, log + posting.entries, from, amount - fee, to, amount, extra, -fee);
  }
}
