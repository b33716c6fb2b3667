/** The consumer services, one call at a time, over a ledger and a balance cache.
    Checks that only read other tables (blocks, velocity, merchants, banks) are one boolean, `admitted`;
    `commits` is the database's verdict on the transaction. */
module Services {
  import opened Wrappers
  import opened Ledger
  import Accounts
  import Movements
  import Money
  import Wallet

  datatype Failure =
    | NotAdmitted
    | InvalidAmount
    | OverLimit
    | SelfTransfer
    | Insufficient(available: int, required: int)
    | Cache(fault: Wallet.Fault)
    | LedgerRefused(error: Error)
    | BillerRejected

  /** How the biller's rail answered; `NoRail` is a deployment without one. */
  datatype RailOutcome = NoRail | Accepted | Ambiguous | TimedOut | RailDown | Rejected

  const WITHDRAWAL_ADMIN_FEE := 250_000

  /** The fee leaves the merchant more than half a unit. */
  predicate Chargeable(amount: int, feeBps: int) {
    0 <= feeBps <= Money.BASIS_POINTS && 2 * (amount * (Money.BASIS_POINTS - feeBps)) > Money.BASIS_POINTS
  }

  function Fee(amount: int, feeBps: int): int {
    Money.HalfUp(amount * feeBps, Money.BASIS_POINTS)
  }

  /** What a caller may spend: the cached balance, or the ledger sum when nothing is cached. */
  function Spendable(cache: Wallet.Balances, log: seq<Entry>, account: string): int {
    if account in cache then cache[account] else Delta(log, account)
  }

  /** The log after a movement: balanced, and every account changed by exactly the flow. */
  ghost predicate Moved(before: seq<Entry>, after: seq<Entry>, from: string, x: int, to: string, y: int, extra: string,
                        z: int) {
    && before <= after
    && forall a :: Delta(after, a) == Delta(before, a) + Movements.Flow(a, from, x, to, y, extra, z)
  }

  ghost predicate CacheAgrees(cache: Wallet.Balances, log: seq<Entry>) {
    forall a <- cache :: Accounts.IsUserWallet(a) ==> cache[a] == Delta(log, a)
  }

  lemma AppendMoves(log: seq<Entry>, p: Posting, from: string, x: int, to: string, y: int, extra: string, z: int)
    requires SumOf(log) == 0 && Valid(p)
    requires forall a :: Delta(p.entries, a) == Movements.Flow(a, from, x, to, y, extra, z)
    ensures Moved(log, log + p.entries, from, x, to, y, extra, z)
  {
    PostingConserves(log, p);
  }

  /** A debit whose reservation was already taken from the cache leaves the two in agreement. */
  lemma DebitAgrees(cache: Wallet.Balances, before: seq<Entry>, after: seq<Entry>, from: string, x: int,
                    to: string, y: int, extra: string, z: int, last: Wallet.Balances)
    requires CacheAgrees(cache, before) && Moved(before, after, from, x, to, y, extra, z)
    requires Accounts.IsUserWallet(from) && to != from && !Accounts.IsUserWallet(extra)
    requires last ==
             cache[from := Spendable(cache, before, from) - x] - (if Accounts.IsUserWallet(to) then {to} else {})
    ensures CacheAgrees(last, after)
  {
  }

  /** Caching what a wallet can spend leaves the two in agreement. */
  lemma RestoredAgrees(cache: Wallet.Balances, log: seq<Entry>, account: string)
    requires CacheAgrees(cache, log)
    ensures CacheAgrees(cache[account := Spendable(cache, log, account)], log)
  {
  }

  lemma CreditAgrees(cache: Wallet.Balances, before: seq<Entry>, after: seq<Entry>, from: string, x: int,
                     wallet: string, y: int, extra: string, z: int)
    requires CacheAgrees(cache, before) && Moved(before, after, from, x, wallet, y, extra, z)
    requires !Accounts.IsUserWallet(from) && !Accounts.IsUserWallet(extra)
    ensures CacheAgrees(cache - {wallet}, after)
  {
  }

  class Service {
    const repo: Repo
    const wallet: Wallet.Memory

    constructor (repo: Repo, wallet: Wallet.Memory)
      ensures this.repo == repo && this.wallet == wallet
    {
      this.repo, this.wallet := repo, wallet;
    }

    /** Every cached wallet equals its ledger sum, and the books balance. */
    ghost predicate Agrees()
      reads this, repo, wallet
    {
      repo.Balanced() && CacheAgrees(wallet.balances, repo.log)
    }

    /** A transaction id as `id.New` makes them. */
    ghost predicate Fresh(txId: string)
      reads this, repo
    {
      txId != "" && txId !in repo.transactions
    }

    method Reserve(account: string, amount: int) returns (r: Result<int, Failure>)
      modifies wallet
      ensures amount <= 0 ==> r == Err(Cache(Wallet.NegativeAmount)) && wallet.balances == old(wallet.balances)
      ensures amount > 0 ==>
                var have := Spendable(old(wallet.balances), repo.log, account);
                if amount <= have then
                  r == Ok(have - amount) && wallet.balances == old(wallet.balances)[account := have - amount]
                else
                  r == Err(Insufficient(have, amount)) && wallet.balances == old(wallet.balances)[account := have]
    {
      var reserved := wallet.Reserve(account, amount);
      if reserved == Err(Wallet.NotCached) {
        var balance := repo.Balance(account);
        wallet.Warm(account, balance);
        reserved := wallet.Reserve(account, amount);
      }
      if reserved == Err(Wallet.Insufficient) {
        var available := wallet.Available(account);
        assert wallet.balances == old(wallet.balances)[account := wallet.balances[account]];
        return Err(Insufficient(if available.Ok? then available.value else 0, amount));
      }
      if reserved.Err? {
        return Err(Cache(reserved.error));
      }
      return Ok(reserved.value);
    }

    /** Commit a debit whose amount is already reserved, or give the reservation back. */
    method CommitOrGiveBack(account: string, total: int, built: Result<Posting, Error>, commits: bool)
      returns (r: Option<Failure>)
      requires repo.Balanced() && account in wallet.balances && total > 0
      requires built.Ok? ==> Valid(built.value) && Fresh(built.value.txId)
      modifies repo, wallet
      ensures repo.Balanced()
      ensures r.None? <==> built.Ok? && commits
      ensures r.None? ==> repo.log == old(repo.log) + built.value.entries && wallet.balances == old(wallet.balances)
      ensures r.Some? ==> repo.log == old(repo.log) &&
                          wallet.balances == old(wallet.balances)[account := old(wallet.balances)[account] + total]
    {
      if built.Err? {
        var _ := wallet.Release(account, total);
        return Some(LedgerRefused(built.error));
      }
      var refused := repo.Post(built.value, commits);
      if refused.Some? {
        var _ := wallet.Release(account, total);
        return Some(LedgerRefused(refused.value));
      }
      return None;
    }

    /** Reserve, then commit or give back. `refused` is a biller's refusal, which comes in between. */
    method Debit(account: string, total: int, built: Result<Posting, Error>, refused: bool, commits: bool)
      returns (r: Result<int, Failure>)
      requires repo.Balanced() && total > 0
      requires built.Ok? ==> Valid(built.value) && Fresh(built.value.txId)
      modifies repo, wallet
      ensures repo.Balanced()
      ensures var have := Spendable(old(wallet.balances), old(repo.log), account);
              && (r.Ok? <==> total <= have && built.Ok? && !refused && commits)
              && (r.Ok? ==> r.value == have - total && repo.log == old(repo.log) + built.value.entries &&
                            wallet.balances == old(wallet.balances)[account := have - total])
              && (r.Err? ==> repo.log == old(repo.log) && wallet.balances == old(wallet.balances)[account := have])
    {
      r := Reserve(account, total);
      if r.Err? {
        return;
      }
      ghost var have := r.value + total;
      if built.Ok? && refused {
        var _ := wallet.Release(account, total);
        assert wallet.balances == old(wallet.balances)[account := have];
        return Err(BillerRejected);
      }
      var failed := CommitOrGiveBack(account, total, built, commits);
      if failed.Some? {
        assert wallet.balances == old(wallet.balances)[account := have];
        return Err(failed.value);
      }
    }

    /** A payment takes the whole amount from the payer's wallet. It happens exactly when it is admitted, the
        wallet can spend the amount, the fee leaves the merchant something and the transaction commits;
        otherwise the log is untouched and the wallet shows its full balance again. */
    method CreatePayment(userId: string, merchantId: string, amount: int, feeBps: int, txId: string,
                         admitted: bool, commits: bool) returns (r: Result<int, Failure>)
      requires Agrees() && Fresh(txId)
      modifies repo, wallet
      ensures Agrees()
      ensures var payer := Accounts.UserWallet(userId);
              var have := Spendable(old(wallet.balances), old(repo.log), payer);
              && (r.Ok? <==> admitted && commits && 0 < amount <= have && Chargeable(amount, feeBps))
              && (r.Ok? ==>
                    var fee := Fee(amount, feeBps);
                    && Moved(old(repo.log), repo.log, payer, amount, Accounts.MerchantPayable(merchantId), amount - fee,
                             Accounts.PlatformFeeRevenue(), fee)
                    && r.value == have - amount == Delta(repo.log, payer)
                    && wallet.balances == old(wallet.balances)[payer := r.value])
              && (r.Err? ==> repo.log == old(repo.log) &&
                             (wallet.balances == old(wallet.balances) ||
                              wallet.balances == old(wallet.balances)[payer := have]))
    {
      if !admitted {
        return Err(NotAdmitted);
      }
      if amount <= 0 {
        return Err(InvalidAmount);
      }
      r := Charge(userId, merchantId, amount, feeBps, txId, commits);
    }

    method BuildPayment(userId: string, merchantId: string, amount: int, feeBps: int, txId: string)
      returns (built: Result<Posting, Error>)
      requires repo.Balanced() && txId != "" && amount > 0
      ensures built.Ok? <==> Chargeable(amount, feeBps)
      ensures built.Ok? ==> Valid(built.value) && built.value.txId == txId
      ensures built.Ok? ==>
                Moved(repo.log, repo.log + built.value.entries, Accounts.UserWallet(userId), amount,
                      Accounts.MerchantPayable(merchantId), amount - Fee(amount, feeBps),
                      Accounts.PlatformFeeRevenue(), Fee(amount, feeBps))
    {
      built := Movements.NewMerchantPayment(txId, Accounts.UserWallet(userId), Accounts.MerchantPayable(merchantId),
                                            Accounts.PlatformFeeRevenue(), amount, feeBps);
      PaymentBuilds(userId, merchantId, amount, feeBps, txId, repo.log);
    }

    /** An admitted payment. */
    method Charge(userId: string, merchantId: string, amount: int, feeBps: int, txId: string, commits: bool)
      returns (r: Result<int, Failure>)
      requires Agrees() && Fresh(txId) && amount > 0
      modifies repo, wallet
      ensures Agrees()
      ensures var payer := Accounts.UserWallet(userId);
              var have := Spendable(old(wallet.balances), old(repo.log), payer);
              && (r.Ok? <==> commits && amount <= have && Chargeable(amount, feeBps))
              && (r.Ok? ==>
                    var fee := Fee(amount, feeBps);
                    && Moved(old(repo.log), repo.log, payer, amount, Accounts.MerchantPayable(merchantId), amount - fee,
                             Accounts.PlatformFeeRevenue(), fee)
                    && r.value == have - amount == Delta(repo.log, payer)
                    && wallet.balances == old(wallet.balances)[payer := r.value])
              && (r.Err? ==> repo.log == old(repo.log) && wallet.balances == old(wallet.balances)[payer := have])
    {
      var built := BuildPayment(userId, merchantId, amount, feeBps, txId);
      PaymentNames(userId, merchantId);
      r := DebitMoving(Accounts.UserWallet(userId), amount, built, false, commits, Accounts.MerchantPayable(merchantId),
                       amount - Fee(amount, feeBps), Accounts.PlatformFeeRevenue(), Fee(amount, feeBps));
    }

    /** A debit whose posting, if there is one, moves `x` from a wallet to accounts that are not cached. */
    method DebitMoving(from: string, x: int, built: Result<Posting, Error>, refused: bool, commits: bool,
                       ghost to: string, ghost y: int, ghost extra: string, ghost z: int)
      returns (r: Result<int, Failure>)
      requires Agrees() && x > 0 && Accounts.IsUserWallet(from) && to != from
      requires !Accounts.IsUserWallet(to) && !Accounts.IsUserWallet(extra)
      requires built.Ok? ==> Valid(built.value) && Fresh(built.value.txId)
      requires built.Ok? ==> Moved(repo.log, repo.log + built.value.entries, from, x, to, y, extra, z)
      modifies repo, wallet
      ensures Agrees()
      ensures var have := Spendable(old(wallet.balances), old(repo.log), from);
              && (r.Ok? <==> commits && x <= have && built.Ok? && !refused)
              && (r.Ok? ==>
                    && Moved(old(repo.log), repo.log, from, x, to, y, extra, z)
                    && r.value == have - x == Delta(repo.log, from)
                    && wallet.balances == old(wallet.balances)[from := r.value])
              && (r.Err? ==> repo.log == old(repo.log) && wallet.balances == old(wallet.balances)[from := have])
    {
      r := Debit(from, x, built, refused, commits);
      if r.Ok? {
        DebitAgrees(old(wallet.balances), old(repo.log), repo.log, from, x, to, y, extra, z, wallet.balances);
      } else {
        RestoredAgrees(old(wallet.balances), old(repo.log), from);
      }
    }

    /** A transfer moves the amount between two wallets and drops the payee's cached balance. */
    method CreateTransfer(userId: string, payeeId: string, amount: int, limit: int, txId: string,
                          admitted: bool, commits: bool) returns (r: Result<int, Failure>)
      requires Agrees() && Fresh(txId)
      modifies repo, wallet
      ensures Agrees()
      ensures var payer, payee := Accounts.UserWallet(userId), Accounts.UserWallet(payeeId);
              var have := Spendable(old(wallet.balances), old(repo.log), payer);
              && (r.Ok? <==>
                    admitted && commits && 0 < amount <= limit && amount <= have && userId != payeeId && payer != payee)
              && (r.Ok? ==>
                    && Moved(old(repo.log), repo.log, payer, amount, payee, amount, "", 0)
                    && r.value == have - amount == Delta(repo.log, payer)
                    && wallet.balances == old(wallet.balances)[payer := r.value] - {payee})
              && (r.Err? ==> repo.log == old(repo.log) &&
                             (wallet.balances == old(wallet.balances) ||
                              wallet.balances == old(wallet.balances)[payer := have]))
    {
      if amount <= 0 {
        return Err(InvalidAmount);
      }
      if !admitted {
        return Err(NotAdmitted);
      }
      if amount > limit {
        return Err(OverLimit);
      }
      if payeeId == userId {
        return Err(SelfTransfer);
      }
      var payer, payee := Accounts.UserWallet(userId), Accounts.UserWallet(payeeId);
      var built := Movements.NewTransfer(txId, payer, payee, amount);
      TransferBuilds(userId, payeeId, amount, txId, repo.log);
      r := Debit(payer, amount, built, false, commits);
      if r.Ok? {
        wallet.Invalidate(payee);
        DebitAgrees(old(wallet.balances), old(repo.log), repo.log, payer, amount, payee, amount, "", 0,
                    wallet.balances);
      }
    }

    /** A withdrawal takes the amount and the flat fee from the wallet. */
    method CreateWithdrawal(userId: string, bankCode: string, amount: int, limit: int, txId: string,
                            admitted: bool, commits: bool) returns (r: Result<int, Failure>)
      requires Agrees() && Fresh(txId)
      modifies repo, wallet
      ensures Agrees()
      ensures var account := Accounts.UserWallet(userId);
              var have := Spendable(old(wallet.balances), old(repo.log), account);
              var total := amount + WITHDRAWAL_ADMIN_FEE;
              && (r.Ok? <==> admitted && commits && 0 < amount <= limit && total <= have)
              && (r.Ok? ==>
                    && Moved(old(repo.log), repo.log, account, total, Accounts.ProviderClearing(bankCode), amount,
                             Accounts.PlatformFeeRevenue(), WITHDRAWAL_ADMIN_FEE)
                    && r.value == have - total == Delta(repo.log, account)
                    && wallet.balances == old(wallet.balances)[account := r.value])
              && (r.Err? ==> repo.log == old(repo.log) &&
                             (wallet.balances == old(wallet.balances) ||
                              wallet.balances == old(wallet.balances)[account := have]))
    {
      if amount <= 0 {
        return Err(InvalidAmount);
      }
      if !admitted {
        return Err(NotAdmitted);
      }
      if amount > limit {
        return Err(OverLimit);
      }
      r := DebitWithFee(userId, bankCode, amount, WITHDRAWAL_ADMIN_FEE, txId, NoRail, commits);
    }

    /** A bill is paid by the biller before the ledger commits: an answer that leaves the outcome open still
        debits the wallet, an outright refusal gives the reservation back and posts nothing. */
    method PayBill(userId: string, billerCode: string, amount: int, adminFee: int, limit: int, txId: string,
                   outcome: RailOutcome, admitted: bool, commits: bool) returns (r: Result<int, Failure>)
      requires Agrees() && Fresh(txId) && adminFee >= 0
      modifies repo, wallet
      ensures Agrees()
      ensures var account := Accounts.UserWallet(userId);
              var have := Spendable(old(wallet.balances), old(repo.log), account);
              var total := amount + adminFee;
              && (r.Ok? <==> admitted && commits && 0 < amount <= limit && total <= have &&
                             outcome != Rejected && outcome != RailDown)
              && (r.Ok? ==>
                    && Moved(old(repo.log), repo.log, account, total, Accounts.ProviderClearing(billerCode), amount,
                             Accounts.PlatformFeeRevenue(), adminFee)
                    && r.value == have - total == Delta(repo.log, account)
                    && wallet.balances == old(wallet.balances)[account := r.value])
              && (r.Err? ==> repo.log == old(repo.log) &&
                             (wallet.balances == old(wallet.balances) ||
                              wallet.balances == old(wallet.balances)[account := have]))
    {
      if amount <= 0 {
        return Err(InvalidAmount);
      }
      if !admitted {
        return Err(NotAdmitted);
      }
      if amount > limit {
        return Err(OverLimit);
      }
      r := DebitWithFee(userId, billerCode, amount, adminFee, txId, outcome, commits);
    }

    method BuildWithdrawal(userId: string, code: string, amount: int, adminFee: int, txId: string)
      returns (built: Result<Posting, Error>)
      requires repo.Balanced() && txId != "" && amount > 0 && adminFee >= 0
      ensures built.Ok? && Valid(built.value) && built.value.txId == txId
      ensures Moved(repo.log, repo.log + built.value.entries, Accounts.UserWallet(userId), amount + adminFee,
                    Accounts.ProviderClearing(code), amount, Accounts.PlatformFeeRevenue(), adminFee)
    {
      built := Movements.NewWithdrawal(txId, Accounts.UserWallet(userId), Accounts.ProviderClearing(code),
                                       Accounts.PlatformFeeRevenue(), amount, adminFee);
      WithdrawalBuilds(userId, code, amount, adminFee, txId, repo.log);
    }

    /** What withdrawals and bills share once they are admitted. */
    method DebitWithFee(userId: string, code: string, amount: int, adminFee: int, txId: string,
                        outcome: RailOutcome, commits: bool) returns (r: Result<int, Failure>)
      requires Agrees() && Fresh(txId) && adminFee >= 0 && amount > 0
      modifies repo, wallet
      ensures Agrees()
      ensures var account := Accounts.UserWallet(userId);
              var have := Spendable(old(wallet.balances), old(repo.log), account);
              var total := amount + adminFee;
              && (r.Ok? <==> commits && total <= have && outcome != Rejected && outcome != RailDown)
              && (r.Ok? ==>
                    && Moved(old(repo.log), repo.log, account, total, Accounts.ProviderClearing(code), amount,
                             Accounts.PlatformFeeRevenue(), adminFee)
                    && r.value == have - total == Delta(repo.log, account)
                    && wallet.balances == old(wallet.balances)[account := r.value])
              && (r.Err? ==> repo.log == old(repo.log) && wallet.balances == old(wallet.balances)[account := have])
    {
      var built := BuildWithdrawal(userId, code, amount, adminFee, txId);
      ProviderNames(userId, code);
      var refused := outcome == Rejected || outcome == RailDown;
      r := DebitMoving(Accounts.UserWallet(userId), amount + adminFee, built, refused, commits,
                       Accounts.ProviderClearing(code), amount, Accounts.PlatformFeeRevenue(), adminFee);
    }

    /** Commit a posting that adds to one wallet, then drop that wallet's cached balance. */
    method CommitCredit(account: string, built: Result<Posting, Error>, commits: bool) returns (r: Option<Failure>)
      requires Agrees()
      requires built.Ok? ==> Valid(built.value) && Fresh(built.value.txId)
      modifies repo, wallet
      ensures repo.Balanced()
      ensures r.None? <==> built.Ok? && commits
      ensures r.None? ==>
                repo.log == old(repo.log) + built.value.entries && wallet.balances == old(wallet.balances) - {account}
      ensures r.Some? ==> repo.log == old(repo.log) && wallet.balances == old(wallet.balances)
    {
      if built.Err? {
        return Some(LedgerRefused(built.error));
      }
      var refused := repo.Post(built.value, commits);
      if refused.Some? {
        return Some(LedgerRefused(refused.value));
      }
      wallet.Invalidate(account);
      return None;
    }

    /** A confirmed top-up adds exactly its amount to the wallet, paid by the provider with its fee on top. */
    method CreditTopup(userId: string, providerCode: string, amount: int, adminFee: int, txId: string, commits: bool)
      returns (r: Option<Failure>)
      requires Agrees() && Fresh(txId)
      modifies repo, wallet
      ensures Agrees()
      ensures r.None? <==> commits && amount > 0 && adminFee >= 0
      ensures r.None? ==>
                && Moved(old(repo.log), repo.log, Accounts.ProviderClearing(providerCode), amount + adminFee,
                         Accounts.UserWallet(userId), amount, Accounts.PlatformFeeRevenue(), adminFee)
                && wallet.balances == old(wallet.balances) - {Accounts.UserWallet(userId)}
      ensures r.Some? ==> repo.log == old(repo.log) && wallet.balances == old(wallet.balances)
    {
      var account, clearing, feeAccount := Accounts.UserWallet(userId), Accounts.ProviderClearing(providerCode),
                                           Accounts.PlatformFeeRevenue();
      ProviderNames(userId, providerCode);
      Movements.TopupEffect(txId, clearing, account, feeAccount, amount, adminFee);
      var built := Movements.NewTopup(txId, clearing, account, feeAccount, amount, adminFee);
      r := CommitCredit(account, built, commits);
      if r.None? {
        AppendMoves(old(repo.log), built.value, clearing, amount + adminFee, account, amount, feeAccount, adminFee);
        CreditAgrees(old(wallet.balances), old(repo.log), repo.log, clearing, amount + adminFee, account, amount,
                     feeAccount, adminFee);
      }
    }

    /** A refund adds the refunded amount to the payer's wallet. */
    method CreditRefund(userId: string, merchantId: string, amount: int, feeReturned: int, txId: string, commits: bool)
      returns (r: Option<Failure>)
      requires Agrees() && Fresh(txId)
      modifies repo, wallet
      ensures Agrees()
      ensures r.None? <==> commits && amount > 0 && 0 <= feeReturned < amount
      ensures r.None? ==>
                && Moved(old(repo.log), repo.log, Accounts.MerchantPayable(merchantId), amount - feeReturned,
                         Accounts.UserWallet(userId), amount, Accounts.PlatformFeeRevenue(), -feeReturned)
                && wallet.balances == old(wallet.balances) - {Accounts.UserWallet(userId)}
      ensures r.Some? ==> repo.log == old(repo.log) && wallet.balances == old(wallet.balances)
    {
      var account, payable, feeAccount := Accounts.UserWallet(userId), Accounts.MerchantPayable(merchantId),
                                          Accounts.PlatformFeeRevenue();
      PaymentNames(userId, merchantId);
      Movements.RefundEffect(txId, payable, account, feeAccount, amount, feeReturned);
      var built := Movements.NewRefund(txId, payable, account, feeAccount, amount, feeReturned);
      r := CommitCredit(account, built, commits);
      if r.None? {
        AppendMoves(old(repo.log), built.value, payable, amount - feeReturned, account, amount, feeAccount,
                    -feeReturned);
        CreditAgrees(old(wallet.balances), old(repo.log), repo.log, payable, amount - feeReturned, account, amount,
                     feeAccount, -feeReturned);
      }
    }

    /** A dispute adds the disputed amount to the payer's wallet, from the holdback first. */
    method CreditDispute(userId: string, merchantId: string, amount: int, covered: int, txId: string, commits: bool)
      returns (r: Option<Failure>)
      requires Agrees() && Fresh(txId)
      modifies repo, wallet
      ensures Agrees()
      ensures r.None? <==> commits && amount > 0 && 0 <= covered <= amount
      ensures r.None? ==>
                && Moved(old(repo.log), repo.log, Accounts.MerchantHoldback(merchantId), covered,
                         Accounts.UserWallet(userId), amount, Accounts.PlatformFloat(), covered - amount)
                && wallet.balances == old(wallet.balances) - {Accounts.UserWallet(userId)}
      ensures r.Some? ==> repo.log == old(repo.log) && wallet.balances == old(wallet.balances)
    {
      var account, holdback, float := Accounts.UserWallet(userId), Accounts.MerchantHoldback(merchantId),
                                      Accounts.PlatformFloat();
      DisputeNames(userId, merchantId);
      Movements.DisputeEffect(txId, holdback, float, account, amount, covered);
      var built := Movements.NewDisputeRefund(txId, holdback, float, account, amount, covered);
      r := CommitCredit(account, built, commits);
      if r.None? {
        AppendMoves(old(repo.log), built.value, holdback, covered, account, amount, float, covered - amount);
        CreditAgrees(old(wallet.balances), old(repo.log), repo.log, holdback, covered, account, amount, float,
                     covered - amount);
      }
    }
  }

  /** The posting of a payment validates exactly when the fee leaves the merchant something. */
  lemma PaymentBuilds(userId: string, merchantId: string, amount: int, feeBps: int, txId: string, log: seq<Entry>)
    requires txId != "" && amount > 0 && SumOf(log) == 0
    ensures var payer, payable, feeAccount := Accounts.UserWallet(userId), Accounts.MerchantPayable(merchantId),
                                              Accounts.PlatformFeeRevenue();
            var built := Movements.NewMerchantPayment(txId, payer, payable, feeAccount, amount, feeBps);
            var fee := Fee(amount, feeBps);
            && (built.Ok? <==> Chargeable(amount, feeBps))
            && (built.Ok? ==>
                  && Valid(built.value) && built.value.txId == txId
                  && Moved(log, log + built.value.entries, payer, amount, payable, amount - fee, feeAccount, fee))
  {
    var payer, payable, feeAccount := Accounts.UserWallet(userId), Accounts.MerchantPayable(merchantId),
                                      Accounts.PlatformFeeRevenue();
    PaymentNames(userId, merchantId);
    Movements.PaymentEffect(txId, payer, payable, feeAccount, amount, feeBps);
    var built := Movements.NewMerchantPayment(txId, payer, payable, feeAccount, amount, feeBps);
    if built.Ok? {
      var fee := Money.FeeHalfUp(amount, feeBps).value;
      AppendMoves(log, built.value, payer, amount, payable, amount - fee, feeAccount, fee);
    }
  }

  /** The posting of a transfer validates exactly when the two wallets differ. */
  lemma TransferBuilds(userId: string, payeeId: string, amount: int, txId: string, log: seq<Entry>)
    requires txId != "" && amount > 0 && SumOf(log) == 0
    ensures var payer, payee := Accounts.UserWallet(userId), Accounts.UserWallet(payeeId);
            var built := Movements.NewTransfer(txId, payer, payee, amount);
            && (built.Ok? <==> payer != payee)
            && Accounts.IsUserWallet(payer) && Accounts.IsUserWallet(payee) && !Accounts.IsUserWallet("")
            && (built.Ok? ==>
                  && Valid(built.value) && built.value.txId == txId
                  && Moved(log, log + built.value.entries, payer, amount, payee, amount, "", 0))
  {
    var payer, payee := Accounts.UserWallet(userId), Accounts.UserWallet(payeeId);
    TransferNames(userId, payeeId);
    Movements.TransferEffect(txId, payer, payee, amount);
    var built := Movements.NewTransfer(txId, payer, payee, amount);
    if built.Ok? {
      AppendMoves(log, built.value, payer, amount, payee, amount, "", 0);
    }
  }

  /** The posting of a withdrawal always validates and moves the amount and the fee. */
  lemma WithdrawalBuilds(userId: string, code: string, amount: int, adminFee: int, txId: string, log: seq<Entry>)
    requires txId != "" && amount > 0 && adminFee >= 0 && SumOf(log) == 0
    ensures var account, clearing, feeAccount := Accounts.UserWallet(userId), Accounts.ProviderClearing(code),
                                                 Accounts.PlatformFeeRevenue();
            var built := Movements.NewWithdrawal(txId, account, clearing, feeAccount, amount, adminFee);
            && built.Ok? && Valid(built.value) && built.value.txId == txId
            && Moved(log, log + built.value.entries, account, amount + adminFee, clearing, amount, feeAccount, adminFee)
  {
    var account, clearing, feeAccount := Accounts.UserWallet(userId), Accounts.ProviderClearing(code),
                                         Accounts.PlatformFeeRevenue();
    ProviderNames(userId, code);
    Movements.WithdrawalEffect(txId, account, clearing, feeAccount, amount, adminFee);
    var built := Movements.NewWithdrawal(txId, account, clearing, feeAccount, amount, adminFee);
    AppendMoves(log, built.value, account, amount + adminFee, clearing, amount, feeAccount, adminFee);
  }

  // Which of the named accounts are wallets.

  lemma PaymentNames(userId: string, merchantId: string)
    ensures Movements.Named([Accounts.UserWallet(userId), Accounts.MerchantPayable(merchantId),
                             Accounts.PlatformFeeRevenue()])
    ensures Movements.Named([Accounts.MerchantPayable(merchantId), Accounts.UserWallet(userId),
                             Accounts.PlatformFeeRevenue()])
    ensures Accounts.IsUserWallet(Accounts.UserWallet(userId))
    ensures !Accounts.IsUserWallet(Accounts.MerchantPayable(merchantId)) &&
            !Accounts.IsUserWallet(Accounts.PlatformFeeRevenue())
  {
    Accounts.WalletNames(userId);
    Accounts.WalletNames(merchantId);
  }

  lemma TransferNames(userId: string, payeeId: string)
    ensures Movements.Named([Accounts.UserWallet(userId), Accounts.UserWallet(payeeId)])
    ensures Accounts.IsUserWallet(Accounts.UserWallet(userId)) && Accounts.IsUserWallet(Accounts.UserWallet(payeeId))
    ensures !Accounts.IsUserWallet("")
  {
    Accounts.WalletNames(userId);
    Accounts.WalletNames(payeeId);
  }

  lemma ProviderNames(userId: string, code: string)
    ensures Movements.Named([Accounts.UserWallet(userId), Accounts.ProviderClearing(code),
                             Accounts.PlatformFeeRevenue()])
    ensures Movements.Named([Accounts.ProviderClearing(code), Accounts.UserWallet(userId),
                             Accounts.PlatformFeeRevenue()])
    ensures Accounts.IsUserWallet(Accounts.UserWallet(userId))
    ensures !Accounts.IsUserWallet(Accounts.ProviderClearing(code)) &&
            !Accounts.IsUserWallet(Accounts.PlatformFeeRevenue())
  {
    Accounts.WalletNames(userId);
    Accounts.WalletNames(code);
  }

  lemma DisputeNames(userId: string, merchantId: string)
    ensures Movements.Named([Accounts.MerchantHoldback(merchantId), Accounts.PlatformFloat(),
                             Accounts.UserWallet(userId)])
    ensures Accounts.IsUserWallet(Accounts.UserWallet(userId))
    ensures !Accounts.IsUserWallet(Accounts.MerchantHoldback(merchantId)) &&
            !Accounts.IsUserWallet(Accounts.PlatformFloat())
  {
    Accounts.WalletNames(userId);
    Accounts.WalletNames(merchantId);
  }
}
