/** The postings each kind of movement writes. */
module Movements {
  import opened Wrappers
  import opened Ledger
  import Money

  function Build(p: Posting): Result<Posting, Error> {
    if Check(p).Some? then Err(Check(p).value) else Ok(p)
  }

  function Optional(account: string, amount: int): seq<Entry> {
    if amount > 0 then [Entry(account, amount)] else []
  }

  function NewMerchantPayment(txId: string, payer: string, payable: string, feeAccount: string,
                              amount: int, feeBps: int): Result<Posting, Error>
  {
    if amount <= 0 then Err(Amount(Money.NegativeAmount))
    else
      match Money.FeeHalfUp(amount, feeBps)
      case Err(e) => Err(Amount(e))
      case Ok(fee) =>
        Build(Posting(txId, [Entry(payer, -amount), Entry(payable, amount - fee)] + Optional(feeAccount, fee)))
  }

  function NewInstantPayout(txId: string, payable: string, holdbackAccount: string, clearing: string,
                            gross: int, holdbackBps: int): Result<Posting, Error>
  {
    if gross <= 0 then Err(Amount(Money.NegativeAmount))
    else
      match Money.FeeHalfUp(gross, holdbackBps)
      case Err(e) => Err(Amount(e))
      case Ok(holdback) =>
        Build(Posting(txId, [Entry(payable, -gross), Entry(clearing, gross - holdback)] +
                            Optional(holdbackAccount, holdback)))
  }

  function NewTransfer(txId: string, payer: string, payee: string, amount: int): Result<Posting, Error> {
    if amount <= 0 then Err(Amount(Money.NegativeAmount))
    else if payer == payee then Err(SameAccount)
    else Build(Posting(txId, [Entry(payer, -amount), Entry(payee, amount)]))
  }

  function NewTopup(txId: string, clearing: string, wallet: string, feeAccount: string,
                    amount: int, adminFee: int): Result<Posting, Error>
  {
    if amount <= 0 || adminFee < 0 then Err(Amount(Money.NegativeAmount))
    else Build(Posting(txId, [Entry(clearing, -(amount + adminFee)), Entry(wallet, amount)] +
                             Optional(feeAccount, adminFee)))
  }

  /** Withdrawals and bill payments post the same entries. */
  function NewWithdrawal(txId: string, wallet: string, clearing: string, feeAccount: string,
                         amount: int, adminFee: int): Result<Posting, Error>
  {
    if amount <= 0 || adminFee < 0 then Err(Amount(Money.NegativeAmount))
    else Build(Posting(txId, [Entry(wallet, -(amount + adminFee)), Entry(clearing, amount)] +
                             Optional(feeAccount, adminFee)))
  }

  function NewRefund(txId: string, payable: string, wallet: string, feeAccount: string,
                     amount: int, feeReturned: int): Result<Posting, Error>
  {
    if amount <= 0 || feeReturned < 0 then Err(Amount(Money.NegativeAmount))
    else if feeReturned > amount then Err(FeeAboveRefund)
    else Build(Posting(txId, [Entry(payable, -(amount - feeReturned)), Entry(wallet, amount)] +
                             (if feeReturned > 0 then [Entry(feeAccount, -feeReturned)] else [])))
  }

  function NewDisputeRefund(txId: string, holdbackAccount: string, floatAccount: string, wallet: string,
                            amount: int, covered: int): Result<Posting, Error>
  {
    if amount <= 0 then Err(Amount(Money.NegativeAmount))
    else if covered < 0 || covered > amount then Err(CoverOutOfRange)
    else Build(Posting(txId, [Entry(wallet, amount)] +
                             (if covered > 0 then [Entry(holdbackAccount, -covered)] else []) +
                             (if amount - covered > 0 then [Entry(floatAccount, -(amount - covered))] else [])))
  }

  function ProportionalFee(paid: int, paidFee: int, refund: int): Result<int, Error> {
    if paid <= 0 then Err(Amount(Money.NegativeAmount))
    else if refund <= 0 || refund > paid then Err(RefundOutOfRange)
    else Ok(Money.HalfUp(paidFee * refund, paid))
  }

  // What the postings mean. `Flow` is the effect of moving money, written independently of entries.

  /** The effect on `account` of taking `x` out of one account and putting `y` and `z` into two others. */
  function Flow(account: string, from: string, x: int, to: string, y: int, extra: string, z: int): int {
    (if account == from then -x else 0) + (if account == to then y else 0) + (if account == extra then z else 0)
  }

  /** The core fact about every constructor: two entries and an optional third that balance. */
  lemma ThreeWay(txId: string, from: string, x: int, to: string, y: int, extra: string, z: int, third: seq<Entry>)
    requires x == y + z && third == (if z != 0 then [Entry(extra, z)] else [])
    ensures var p := Posting(txId, [Entry(from, -x), Entry(to, y)] + third);
            && (Valid(p) <==> txId != "" && x != 0 && y != 0 && from != "" && to != "" && (z != 0 ==> extra != ""))
            && (forall a :: Delta(p.entries, a) == Flow(a, from, x, to, y, extra, z))
  {
    var two := [Entry(from, -x), Entry(to, y)];
    var p := Posting(txId, two + third);
    assert p.entries[0] == Entry(from, -x) && p.entries[1] == Entry(to, y);
    assert z != 0 ==> p.entries[2] == Entry(extra, z);
    SumConcat(two, third);
    FoldTwo(two[0], two[1], "");
    FoldOne(Entry(extra, z), "");
    assert SumOf(third) == z;
    if txId != "" && x != 0 && y != 0 && from != "" && to != "" && (z != 0 ==> extra != "") {
      assert forall e <- p.entries :: e.account != "" && e.amount != 0;
    }
    forall a ensures Delta(p.entries, a) == Flow(a, from, x, to, y, extra, z) {
      DeltaConcat(two, third, a);
      FoldTwo(two[0], two[1], a);
      FoldOne(two[0], a);
      FoldOne(two[1], a);
      FoldOne(Entry(extra, z), a);
    }
  }

  predicate Named(accounts: seq<string>) { forall a <- accounts :: a != "" }

  /** A payment moves the whole amount from the payer: the fee to the platform, the rest to the merchant.
      It is refused exactly when the amount or the rate is out of range or the fee would leave nothing. */
  lemma PaymentEffect(txId: string, payer: string, payable: string, feeAccount: string, amount: int, feeBps: int)
    requires txId != "" && Named([payer, payable, feeAccount])
    ensures var r := NewMerchantPayment(txId, payer, payable, feeAccount, amount, feeBps);
            && (r.Ok? <==> amount > 0 && 0 <= feeBps <= Money.BASIS_POINTS &&
                           2 * (amount * (Money.BASIS_POINTS - feeBps)) > Money.BASIS_POINTS)
            && (r.Ok? ==>
                  var fee := Money.FeeHalfUp(amount, feeBps).value;
                  && Valid(r.value) && r.value.txId == txId && 0 <= fee < amount
                  && forall a :: Delta(r.value.entries, a) ==
                                 Flow(a, payer, amount, payable, amount - fee, feeAccount, fee))
  {
    assert payer in [payer, payable, feeAccount] && payable in [payer, payable, feeAccount] &&
           feeAccount in [payer, payable, feeAccount];
    if amount > 0 && 0 <= feeBps <= Money.BASIS_POINTS {
      Money.FeeBounds(amount, feeBps);
      var fee := Money.FeeHalfUp(amount, feeBps).value;
      var p := Posting(txId, [Entry(payer, -amount), Entry(payable, amount - fee)] + Optional(feeAccount, fee));
      ThreeWay(txId, payer, amount, payable, amount - fee, feeAccount, fee, Optional(feeAccount, fee));
      CheckPassesValid(p);
    }
  }

  /** An instant payout empties the payable account by the gross and splits it between bank and holdback. */
  lemma PayoutEffect(txId: string, payable: string, holdbackAccount: string, clearing: string, gross: int, bps: int)
    requires txId != "" && Named([payable, holdbackAccount, clearing])
    ensures var r := NewInstantPayout(txId, payable, holdbackAccount, clearing, gross, bps);
            && (r.Ok? <==> gross > 0 && 0 <= bps <= Money.BASIS_POINTS &&
                           2 * (gross * (Money.BASIS_POINTS - bps)) > Money.BASIS_POINTS)
            && (r.Ok? ==>
                  var holdback := Money.FeeHalfUp(gross, bps).value;
                  && Valid(r.value) && r.value.txId == txId && 0 <= holdback < gross
                  && forall a :: Delta(r.value.entries, a) ==
                                 Flow(a, payable, gross, clearing, gross - holdback, holdbackAccount, holdback))
  {
    assert payable in [payable, holdbackAccount, clearing] && holdbackAccount in [payable, holdbackAccount, clearing] &&
           clearing in [payable, holdbackAccount, clearing];
    if gross > 0 && 0 <= bps <= Money.BASIS_POINTS {
      Money.FeeBounds(gross, bps);
      var fee := Money.FeeHalfUp(gross, bps).value;
      var p := Posting(txId, [Entry(payable, -gross), Entry(clearing, gross - fee)] + Optional(holdbackAccount, fee));
      ThreeWay(txId, payable, gross, clearing, gross - fee, holdbackAccount, fee, Optional(holdbackAccount, fee));
      CheckPassesValid(p);
    }
  }

  lemma TransferEffect(txId: string, payer: string, payee: string, amount: int)
    requires txId != "" && Named([payer, payee])
    ensures var r := NewTransfer(txId, payer, payee, amount);
            && (r.Ok? <==> amount > 0 && payer != payee)
            && (r.Ok? ==> Valid(r.value) && r.value.txId == txId &&
                          forall a :: Delta(r.value.entries, a) == Flow(a, payer, amount, payee, amount, "", 0))
  {
    assert payer in [payer, payee] && payee in [payer, payee];
    var two := [Entry(payer, -amount), Entry(payee, amount)];
    assert two + [] == two;
    ThreeWay(txId, payer, amount, payee, amount, "", 0, []);
    CheckPassesValid(Posting(txId, two));
  }

  lemma TopupEffect(txId: string, clearing: string, wallet: string, feeAccount: string, amount: int, adminFee: int)
    requires txId != "" && Named([clearing, wallet, feeAccount])
    ensures var r := NewTopup(txId, clearing, wallet, feeAccount, amount, adminFee);
            && (r.Ok? <==> amount > 0 && adminFee >= 0)
            && (r.Ok? ==> Valid(r.value) && r.value.txId == txId &&
                          forall a :: Delta(r.value.entries, a) ==
                                      Flow(a, clearing, amount + adminFee, wallet, amount, feeAccount, adminFee))
  {
    assert clearing in [clearing, wallet, feeAccount] && wallet in [clearing, wallet, feeAccount] &&
           feeAccount in [clearing, wallet, feeAccount];
    if amount > 0 && adminFee >= 0 {
      ThreeWay(txId, clearing, amount + adminFee, wallet, amount, feeAccount, adminFee, Optional(feeAccount, adminFee));
      CheckPassesValid(Posting(txId, [Entry(clearing, -(amount + adminFee)), Entry(wallet, amount)] +
                               Optional(feeAccount, adminFee)));
    }
  }

  lemma WithdrawalEffect(txId: string, wallet: string, clearing: string, feeAccount: string, amount: int, adminFee: int)
    requires txId != "" && Named([wallet, clearing, feeAccount])
    ensures var r := NewWithdrawal(txId, wallet, clearing, feeAccount, amount, adminFee);
            && (r.Ok? <==> amount > 0 && adminFee >= 0)
            && (r.Ok? ==> Valid(r.value) && r.value.txId == txId &&
                          forall a :: Delta(r.value.entries, a) ==
                                      Flow(a, wallet, amount + adminFee, clearing, amount, feeAccount, adminFee))
  {
    assert clearing in [wallet, clearing, feeAccount] && wallet in [wallet, clearing, feeAccount] &&
           feeAccount in [wallet, clearing, feeAccount];
    if amount > 0 && adminFee >= 0 {
      ThreeWay(txId, wallet, amount + adminFee, clearing, amount, feeAccount, adminFee, Optional(feeAccount, adminFee));
      CheckPassesValid(Posting(txId, [Entry(wallet, -(amount + adminFee)), Entry(clearing, amount)] +
                               Optional(feeAccount, adminFee)));
    }
  }

  /** A refund gives the payer the full amount back: the platform returns its share of the fee and the
      merchant the rest. It is refused when the merchant's part would round to nothing. */
  lemma RefundEffect(txId: string, payable: string, wallet: string, feeAccount: string, amount: int, feeReturned: int)
    requires txId != "" && Named([payable, wallet, feeAccount])
    ensures var r := NewRefund(txId, payable, wallet, feeAccount, amount, feeReturned);
            && (r.Ok? <==> amount > 0 && 0 <= feeReturned < amount)
            && (r.Ok? ==> Valid(r.value) && r.value.txId == txId &&
                          forall a :: Delta(r.value.entries, a) ==
                                      Flow(a, payable, amount - feeReturned, wallet, amount, feeAccount, -feeReturned))
  {
    assert payable in [payable, wallet, feeAccount] && wallet in [payable, wallet, feeAccount] &&
           feeAccount in [payable, wallet, feeAccount];
    if amount > 0 && 0 <= feeReturned <= amount {
      var third := if feeReturned > 0 then [Entry(feeAccount, -feeReturned)] else [];
      ThreeWay(txId, payable, amount - feeReturned, wallet, amount, feeAccount, -feeReturned, third);
      CheckPassesValid(Posting(txId, [Entry(payable, -(amount - feeReturned)), Entry(wallet, amount)] + third));
    }
  }

  /** A dispute is paid from the holdback first and the platform float for what is missing. */
  lemma DisputeEffect(txId: string, holdbackAccount: string, floatAccount: string, wallet: string, amount: int,
                      covered: int)
    requires txId != "" && Named([holdbackAccount, floatAccount, wallet])
    ensures var r := NewDisputeRefund(txId, holdbackAccount, floatAccount, wallet, amount, covered);
            && (r.Ok? <==> amount > 0 && 0 <= covered <= amount)
            && (r.Ok? ==> Valid(r.value) && r.value.txId == txId &&
                          forall a :: Delta(r.value.entries, a) ==
                                      Flow(a, wallet, -amount, holdbackAccount, -covered, floatAccount,
                                           covered - amount))
  {
    assert holdbackAccount in [holdbackAccount, floatAccount, wallet] &&
           floatAccount in [holdbackAccount, floatAccount, wallet] && wallet in [holdbackAccount, floatAccount, wallet];
    if amount > 0 && 0 <= covered <= amount {
      var r := NewDisputeRefund(txId, holdbackAccount, floatAccount, wallet, amount, covered);
      var head := [Entry(wallet, amount)];
      var cover := if covered > 0 then [Entry(holdbackAccount, -covered)] else [];
      var loss := if amount - covered > 0 then [Entry(floatAccount, -(amount - covered))] else [];
      var entries := head + cover + loss;
      forall a ensures SumOf(entries) == 0 && Delta(entries, a) ==
                       Flow(a, wallet, -amount, holdbackAccount, -covered, floatAccount, covered - amount)
      {
        SumConcat(head + cover, loss);
        SumConcat(head, cover);
        DeltaConcat(head + cover, loss, a);
        DeltaConcat(head, cover, a);
        FoldOne(Entry(wallet, amount), a);
        FoldOne(Entry(holdbackAccount, -covered), a);
        FoldOne(Entry(floatAccount, -(amount - covered)), a);
      }
      assert SumOf(entries) == 0 by {
        assert Delta(entries, wallet) ==
               Flow(wallet, wallet, -amount, holdbackAccount, -covered, floatAccount, covered - amount);
      }
      assert cover != [] || loss != [];
      assert |entries| >= 2;
      assert forall e <- entries :: e in head || e in cover || e in loss;
      assert forall e <- entries :: e.account != "" && e.amount != 0;
      CheckPassesValid(Posting(txId, entries));
    }
  }
}
