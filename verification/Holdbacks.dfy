/** What is held back from merchants and what disputes take out of it again. Settling and resolving run one at a time,
    but a resolution is three writes: the ledger posting, the holdback row, and the dispute row. */
module Holdbacks {
  import opened Wrappers
  import opened Ledger
  import Accounts
  import Movements
  import Payouts
  import Risk
  import Wallet

  datatype Status = Open | ForUser | ForMerchant

  datatype Dispute = Dispute(user: string, merchant: string, amount: int, status: Status, covered: int, loss: int)

  /** `refunds` is history: the dispute of every refund posted, in order. */
  datatype State = State(core: Payouts.State, disputes: seq<Dispute>, refunds: seq<nat>)

  /** Which of the three writes take effect; a later one is not attempted after an earlier one failed. */
  datatype Writes = Writes(posts: bool, consumes: bool, closes: bool)

  function Account(merchant: string): string { Accounts.MerchantHoldback(merchant) }

  predicate Available(h: Payouts.Holdback, merchant: string) { h.merchant == merchant && h.consumedBy.None? }

  /** The oldest open row of the merchant, at or after `from`. */
  function FirstOpen(rows: seq<Payouts.Holdback>, merchant: string, from: nat): Option<nat>
    decreases |rows| - from
  {
    if from >= |rows| then None
    else if Available(rows[from], merchant) then Some(from)
    else FirstOpen(rows, merchant, from + 1)
  }

  function Cover(rows: seq<Payouts.Holdback>, merchant: string, need: int): (int, Option<nat>) {
    match FirstOpen(rows, merchant, 0)
    case None => (0, None)
    case Some(k) => if k < |rows| then (if rows[k].amount > need then need else rows[k].amount, Some(k)) else (0, None)
  }

  function Consumed(rows: seq<Payouts.Holdback>, k: Option<nat>, covered: int, dispute: nat): seq<Payouts.Holdback> {
    if k.Some? && k.value < |rows| && covered > 0
    then rows[k.value := rows[k.value].(consumedBy := Some(dispute))]
    else rows
  }

  function PostingFor(d: Dispute, covered: int, txId: string): Result<Posting, Error> {
    Movements.NewDisputeRefund(txId, Account(d.merchant), Accounts.PlatformFloat(), Accounts.UserWallet(d.user),
                               d.amount, covered)
  }

  function DecidedForUser(d: Dispute, covered: int): Dispute {
    d.(status := ForUser, covered := covered, loss := d.amount - covered)
  }

  function Refunded(s: State, i: nat, txId: string, w: Writes): State
    requires i < |s.disputes|
  {
    var d := s.disputes[i];
    var (covered, k) := Cover(s.core.holdbacks, d.merchant, d.amount);
    match PostingFor(d, covered, txId)
    case Err(_) => s
    case Ok(p) =>
      if !w.posts then s
      else
        var posted := s.(core := s.core.(log := s.core.log + p.entries), refunds := s.refunds + [i]);
        if covered > 0 && !w.consumes then posted
        else
          var consumed := posted.(core := posted.core.(holdbacks := Consumed(s.core.holdbacks, k, covered, i)));
          if !w.closes then consumed
          else consumed.(disputes := s.disputes[i := DecidedForUser(d, covered)])
  }

  function Resolved(s: State, i: nat, forUser: bool, txId: string, w: Writes): State {
    if i >= |s.disputes| || !s.disputes[i].status.Open? then s
    else if forUser then Refunded(s, i, txId, w)
    else if w.closes
    then s.(disputes := s.disputes[i := s.disputes[i].(status := ForMerchant, covered := 0, loss := 0)])
    else s
  }

  datatype Step =
    | Pay(step: Payouts.Step)
    | Raise(user: string, merchant: string, amount: int)
    | Resolve(i: nat, forUser: bool, txId: string, writes: Writes)

  /** Merchants, users and transactions have ids, and a disputed payment has an amount. */
  predicate Sensible(step: Step) {
    match step
    case Pay(p) => p.Settle? ==> p.merchant != ""
    case Raise(user, merchant, amount) => user != "" && merchant != "" && amount > 0
    case Resolve(_, _, txId, _) => txId != ""
  }

  function Next(s: State, step: Step): State {
    if !Sensible(step) then s
    else
      match step
      case Pay(p) => s.(core := Payouts.Next(s.core, p))
      case Raise(user, merchant, amount) => s.(disputes := s.disputes + [Dispute(user, merchant, amount, Open, 0, 0)])
      case Resolve(i, forUser, txId, writes) => Resolved(s, i, forUser, txId, writes)
  }

  function Run(s: State, steps: seq<Step>): State
    decreases |steps|
  {
    if steps == [] then s else Run(Next(s, steps[0]), steps[1..])
  }

  // The sub-ledger.

  /** What the merchant's open rows still promise. */
  function OpenSum(rows: seq<Payouts.Holdback>, merchant: string): int {
    if rows == [] then 0
    else OpenSum(rows[1..], merchant) + if Available(rows[0], merchant) then rows[0].amount else 0
  }

  /** Everything ever held back from the merchant. */
  function HeldSum(rows: seq<Payouts.Holdback>, merchant: string): int {
    if rows == [] then 0
    else HeldSum(rows[1..], merchant) + if rows[0].merchant == merchant then rows[0].amount else 0
  }

  /** What the merchant's resolved disputes took out of it. */
  function CoveredSum(disputes: seq<Dispute>, merchant: string): int {
    if disputes == [] then 0
    else CoveredSum(disputes[1..], merchant) + if disputes[0].merchant == merchant then disputes[0].covered else 0
  }

  function TimesRefunded(refunds: seq<nat>, i: nat): nat {
    if refunds == [] then 0
    else TimesRefunded(refunds[..|refunds| - 1], i) + if refunds[|refunds| - 1] == i then 1 else 0
  }

  ghost predicate RowsPositive(rows: seq<Payouts.Holdback>) {
    forall k :: 0 <= k < |rows| ==> rows[k].amount > 0
  }

  /** The ledger holds at least what the open rows promise, and exactly what was held back less what was covered. */
  predicate Covers(s: State, opening: seq<Entry>, m: string) {
    && Delta(s.core.log, Account(m)) >= OpenSum(s.core.holdbacks, m)
    && Delta(s.core.log, Account(m)) ==
       Delta(opening, Account(m)) + HeldSum(s.core.holdbacks, m) - CoveredSum(s.disputes, m)
  }

  /** A dispute decided for the user was refunded once, in full; any other was not refunded. */
  predicate Settled(d: Dispute, refunds: seq<nat>, i: nat) {
    && d.amount > 0 && d.merchant != "" && d.user != ""
    && match d.status
       case Open => TimesRefunded(refunds, i) == 0 && d.covered == 0
       case ForMerchant => TimesRefunded(refunds, i) == 0 && d.covered == 0 && d.loss == 0
       case ForUser => TimesRefunded(refunds, i) == 1 && 0 <= d.covered <= d.amount && d.covered + d.loss == d.amount
  }

  ghost predicate DisputesSettled(disputes: seq<Dispute>, refunds: seq<nat>) {
    && (forall i :: 0 <= i < |disputes| ==> Settled(disputes[i], refunds, i))
    && (forall k :: 0 <= k < |refunds| ==> refunds[k] < |disputes|)
  }

  ghost predicate Inv(s: State, opening: seq<Entry>) {
    && RowsPositive(s.core.holdbacks) && DisputesSettled(s.disputes, s.refunds)
    && forall m :: m != "" ==> Covers(s, opening, m)
  }

  // Account names.

  lemma LastLetter(ownerType: string, ownerId: string, accountType: string)
    requires accountType != ""
    ensures var a := Accounts.AccountId(ownerType, ownerId, accountType);
            a != "" && a[|a| - 1] == accountType[|accountType| - 1]
  {
  }

  lemma HoldbackNames(m: string, n: string, user: string, rail: string)
    requires m != "" && n != ""
    ensures Account(m) == Account(n) <==> m == n
    ensures Account(m) != Accounts.UserWallet(user) && Account(m) != Accounts.MerchantPayable(n)
    ensures Account(m) != Accounts.ProviderClearing(rail) && Account(m) != Accounts.PlatformFloat()
    ensures Movements.Named([Account(m), Accounts.PlatformFloat(), Accounts.UserWallet(user)])
  {
    LastLetter("merchant", m, "merchant_holdback");
    LastLetter("user", user, "user_wallet");
    LastLetter("merchant", n, "merchant_payable");
    LastLetter("provider", rail, "provider_clearing");
    LastLetter("platform", "", "platform_float");
    if Account(m) == Account(n) {
      assert |m| == |n|;
      assert m == Account(m)[4..4 + |m|] && n == Account(n)[4..4 + |n|];
    }
  }

  // Sums.

  lemma {:induction false} AppendRow(rows: seq<Payouts.Holdback>, h: Payouts.Holdback, m: string)
    ensures OpenSum(rows + [h], m) == OpenSum(rows, m) + if Available(h, m) then h.amount else 0
    ensures HeldSum(rows + [h], m) == HeldSum(rows, m) + if h.merchant == m then h.amount else 0
  {
    if rows == [] {
      assert (rows + [h])[1..] == [];
    } else {
      assert (rows + [h])[1..] == rows[1..] + [h];
      AppendRow(rows[1..], h, m);
    }
  }

  lemma {:induction false} ReplaceRow(rows: seq<Payouts.Holdback>, k: nat, h: Payouts.Holdback, m: string)
    requires k < |rows| && h.merchant == rows[k].merchant && h.amount == rows[k].amount
    ensures OpenSum(rows[k := h], m) == OpenSum(rows, m) - (if Available(rows[k], m) then rows[k].amount else 0)
                                        + if Available(h, m) then h.amount else 0
    ensures HeldSum(rows[k := h], m) == HeldSum(rows, m)
  {
    if k == 0 {
      assert rows[k := h][1..] == rows[1..];
    } else {
      assert rows[k := h][1..] == rows[1..][k - 1 := h];
      ReplaceRow(rows[1..], k - 1, h, m);
    }
  }

  lemma {:induction false} ReplaceDispute(disputes: seq<Dispute>, i: nat, d: Dispute, m: string)
    requires i < |disputes| && d.merchant == disputes[i].merchant
    ensures CoveredSum(disputes[i := d], m) ==
            CoveredSum(disputes, m) + if d.merchant == m then d.covered - disputes[i].covered else 0
  {
    if i == 0 {
      assert disputes[i := d][1..] == disputes[1..];
    } else {
      assert disputes[i := d][1..] == disputes[1..][i - 1 := d];
      ReplaceDispute(disputes[1..], i - 1, d, m);
    }
  }

  lemma {:induction false} AppendDispute(disputes: seq<Dispute>, d: Dispute, m: string)
    requires d.covered == 0
    ensures CoveredSum(disputes + [d], m) == CoveredSum(disputes, m)
  {
    if disputes == [] {
      assert (disputes + [d])[1..] == [];
    } else {
      assert (disputes + [d])[1..] == disputes[1..] + [d];
      AppendDispute(disputes[1..], d, m);
    }
  }

  lemma AppendRefund(refunds: seq<nat>, i: nat, j: nat)
    ensures TimesRefunded(refunds + [i], j) == TimesRefunded(refunds, j) + if i == j then 1 else 0
  {
    assert (refunds + [i])[..|refunds|] == refunds;
  }

  lemma {:induction false} NotYetRefunded(refunds: seq<nat>, i: nat)
    requires forall k :: 0 <= k < |refunds| ==> refunds[k] < i
    ensures TimesRefunded(refunds, i) == 0
  {
    if refunds != [] {
      NotYetRefunded(refunds[..|refunds| - 1], i);
    }
  }

  lemma {:induction false} FirstOpenIsOldest(rows: seq<Payouts.Holdback>, merchant: string, from: nat)
    ensures var k := FirstOpen(rows, merchant, from);
            if k.Some? then from <= k.value < |rows| && Available(rows[k.value], merchant)
                            && forall j :: from <= j < k.value ==> !Available(rows[j], merchant)
            else forall j :: from <= j < |rows| ==> !Available(rows[j], merchant)
    decreases |rows| - from
  {
    if from < |rows| && !Available(rows[from], merchant) {
      FirstOpenIsOldest(rows, merchant, from + 1);
    }
  }

  lemma CoverIsWithin(rows: seq<Payouts.Holdback>, merchant: string, need: int)
    requires RowsPositive(rows) && need > 0
    ensures var (covered, k) := Cover(rows, merchant, need);
            && 0 <= covered <= need && (covered > 0 <==> k.Some?)
            && (k.Some? ==> k.value < |rows| && Available(rows[k.value], merchant) && covered <= rows[k.value].amount
                            && (covered == need || covered == rows[k.value].amount))
  {
    FirstOpenIsOldest(rows, merchant, 0);
  }

  // Settlements.

  predicate SameChange(s: Payouts.State, t: Payouts.State, m: string) {
    && Delta(t.log, Account(m)) - Delta(s.log, Account(m)) == OpenSum(t.holdbacks, m) - OpenSum(s.holdbacks, m)
    && Delta(t.log, Account(m)) - Delta(s.log, Account(m)) == HeldSum(t.holdbacks, m) - HeldSum(s.holdbacks, m)
  }

  /** Booking a payout adds to the holdback account what it adds to the rows, and touches no other merchant's. */
  lemma BookedCovers(s: Payouts.State, row: Payouts.Payout, p: Posting, m: string)
    requires Delta(p.entries, Account(m)) == (if row.merchant == m then row.holdback else 0) && row.holdback >= 0
    ensures SameChange(s, Payouts.Booked(s, row, p), m)
  {
    DeltaConcat(s.log, p.entries, Account(m));
    AppendRow(s.holdbacks,
              Payouts.Holdback(row.merchant, |s.payouts|, row.holdback, row.at + Payouts.HOLDBACK_WINDOW, None), m);
    assert s.holdbacks + [] == s.holdbacks;
  }

  lemma SettlementCovers(s: Payouts.State, merchant: string, gross: int, f: Risk.Factors, c: Payouts.Conditions,
                         m: string)
    requires merchant != "" && m != "" && c.txId != ""
    ensures SameChange(s, Payouts.Paid(s, merchant, gross, f, c), m)
  {
    if gross > 0 && c.rail.Some? && Risk.Acceptable(f) {
      var rail := c.rail.value;
      Payouts.PayoutAlwaysPosts(merchant, rail, gross, f, c.txId);
      HoldbackNames(m, merchant, "", rail);
      BookedCovers(s.(now := s.now + c.waited), Payouts.InstantRow(s, merchant, gross, f, rail, c),
                   Payouts.PostingFor(merchant, rail, gross, Risk.BpsOf(f), c.txId).value, m);
    }
  }

  lemma SettlementRowsPositive(s: Payouts.State, step: Payouts.Step)
    requires RowsPositive(s.holdbacks)
    ensures RowsPositive(Payouts.Next(s, step).holdbacks)
  {
  }

  lemma PayKeepsInv(s: State, step: Payouts.Step, opening: seq<Entry>)
    requires Inv(s, opening) && Sensible(Pay(step))
    ensures Inv(Next(s, Pay(step)), opening)
  {
    SettlementRowsPositive(s.core, step);
    forall m | m != "" ensures Covers(Next(s, Pay(step)), opening, m) {
      assert Covers(s, opening, m);
      if step.Settle? && step.conditions.txId != "" {
        SettlementCovers(s.core, step.merchant, step.gross, step.factors, step.conditions, m);
      }
    }
  }

  // Resolutions.

  /** The posting of a dispute always validates, and takes exactly what is covered out of its merchant's account. */
  lemma DisputePosts(rows: seq<Payouts.Holdback>, d: Dispute, log: seq<Entry>, txId: string, m: string)
    requires RowsPositive(rows) && d.amount > 0 && d.merchant != "" && m != "" && txId != ""
    ensures var (covered, k) := Cover(rows, d.merchant, d.amount);
            var p := PostingFor(d, covered, txId);
            && p.Ok? && Valid(p.value) && p.value.txId == txId
            && Delta(log + p.value.entries, Account(m)) ==
               Delta(log, Account(m)) - (if m == d.merchant then covered else 0)
            && Delta(log + p.value.entries, Accounts.UserWallet(d.user)) ==
               Delta(log, Accounts.UserWallet(d.user)) + d.amount
  {
    var (covered, k) := Cover(rows, d.merchant, d.amount);
    CoverIsWithin(rows, d.merchant, d.amount);
    HoldbackNames(m, d.merchant, d.user, "");
    HoldbackNames(d.merchant, m, d.user, "");
    LastLetter("user", d.user, "user_wallet");
    Movements.DisputeEffect(txId, Account(d.merchant), Accounts.PlatformFloat(), Accounts.UserWallet(d.user), d.amount,
                            covered);
    var p := PostingFor(d, covered, txId).value;
    DeltaConcat(log, p.entries, Account(m));
    DeltaConcat(log, p.entries, Accounts.UserWallet(d.user));
    WalletIsNotFloat(d.user);
  }

  lemma WalletIsNotFloat(user: string)
    ensures Accounts.UserWallet(user) != Accounts.PlatformFloat()
  {
    Accounts.WalletNames(user);
  }

  /** Every write of the resolution takes effect once its posting has. */
  predicate Clean(w: Writes) { w.posts ==> w.consumes && w.closes }

  /** Marking the row that covers takes the cover, or more, out of what is open, and leaves what was held. */
  lemma ConsumedSums(rows: seq<Payouts.Holdback>, merchant: string, need: int, i: nat, m: string)
    requires RowsPositive(rows) && need > 0
    ensures var (covered, k) := Cover(rows, merchant, need);
            && OpenSum(Consumed(rows, k, covered, i), m) <= OpenSum(rows, m) - (if m == merchant then covered else 0)
            && HeldSum(Consumed(rows, k, covered, i), m) == HeldSum(rows, m)
  {
    var (covered, k) := Cover(rows, merchant, need);
    CoverIsWithin(rows, merchant, need);
    if k.Some? {
      ReplaceRow(rows, k.value, rows[k.value].(consumedBy := Some(i)), m);
    }
  }

  /** The parts of a refund: what has been written once the posting is in, write by write. */
  lemma RefundedParts(s: State, i: nat, txId: string, w: Writes)
    requires i < |s.disputes| && w.posts
    requires var d := s.disputes[i]; PostingFor(d, Cover(s.core.holdbacks, d.merchant, d.amount).0, txId).Ok?
    ensures var d, t := s.disputes[i], Refunded(s, i, txId, w);
            var (covered, k) := Cover(s.core.holdbacks, d.merchant, d.amount);
            var marks := covered <= 0 || w.consumes;
            && t.core.log == s.core.log + PostingFor(d, covered, txId).value.entries && t.refunds == s.refunds + [i]
            && t.core.holdbacks == (if marks then Consumed(s.core.holdbacks, k, covered, i) else s.core.holdbacks)
            && t.disputes == if marks && w.closes then s.disputes[i := DecidedForUser(d, covered)] else s.disputes
  {
  }

  lemma RefundCovers(s: State, i: nat, txId: string, w: Writes, opening: seq<Entry>, m: string)
    requires RowsPositive(s.core.holdbacks) && i < |s.disputes| && s.disputes[i].amount > 0
    requires s.disputes[i].merchant != "" && s.disputes[i].covered == 0
    requires m != "" && txId != "" && Clean(w) && Covers(s, opening, m)
    ensures Covers(Refunded(s, i, txId, w), opening, m)
  {
    var d := s.disputes[i];
    var covered := Cover(s.core.holdbacks, d.merchant, d.amount).0;
    DisputePosts(s.core.holdbacks, d, s.core.log, txId, m);
    if w.posts {
      RefundedParts(s, i, txId, w);
      ConsumedSums(s.core.holdbacks, d.merchant, d.amount, i, m);
      ReplaceDispute(s.disputes, i, DecidedForUser(d, covered), m);
    }
  }

  lemma RefundKeepsRows(s: State, i: nat, txId: string, w: Writes)
    requires RowsPositive(s.core.holdbacks) && i < |s.disputes|
    ensures RowsPositive(Refunded(s, i, txId, w).core.holdbacks)
  {
  }

  lemma DecidedIsSettled(disputes: seq<Dispute>, refunds: seq<nat>, i: nat, d: Dispute)
    requires DisputesSettled(disputes, refunds) && i < |disputes| && disputes[i].status.Open?
    requires d.status.ForUser? && d.merchant == disputes[i].merchant && d.user == disputes[i].user &&
             d.amount == disputes[i].amount
    requires 0 <= d.covered <= d.amount && d.covered + d.loss == d.amount
    ensures DisputesSettled(disputes[i := d], refunds + [i])
  {
    assert Settled(disputes[i], refunds, i);
    var decided := disputes[i := d];
    forall j | 0 <= j < |decided| ensures Settled(decided[j], refunds + [i], j) {
      assert Settled(disputes[j], refunds, j);
      AppendRefund(refunds, i, j);
    }
  }

  function Decided(s: State, i: nat): Dispute
    requires i < |s.disputes|
  {
    DecidedForUser(s.disputes[i], Cover(s.core.holdbacks, s.disputes[i].merchant, s.disputes[i].amount).0)
  }

  /** Without partial failures a resolution for the user decides the dispute or changes nothing. */
  lemma RefundDecides(s: State, i: nat, txId: string, w: Writes)
    requires i < |s.disputes| && Clean(w)
    ensures var t := Refunded(s, i, txId, w);
            t == s || (t.refunds == s.refunds + [i] && t.disputes == s.disputes[i := Decided(s, i)])
  {
  }

  lemma RefundSettles(s: State, i: nat, txId: string, w: Writes)
    requires RowsPositive(s.core.holdbacks) && DisputesSettled(s.disputes, s.refunds) && i < |s.disputes| &&
             s.disputes[i].status.Open?
    requires Clean(w)
    ensures DisputesSettled(Refunded(s, i, txId, w).disputes, Refunded(s, i, txId, w).refunds)
  {
    var d := s.disputes[i];
    assert Settled(d, s.refunds, i);
    CoverIsWithin(s.core.holdbacks, d.merchant, d.amount);
    RefundDecides(s, i, txId, w);
    DecidedIsSettled(s.disputes, s.refunds, i, Decided(s, i));
  }

  lemma RefundKeepsInv(s: State, i: nat, txId: string, w: Writes, opening: seq<Entry>)
    requires Inv(s, opening) && txId != "" && Clean(w) && i < |s.disputes| && s.disputes[i].status.Open?
    ensures Inv(Refunded(s, i, txId, w), opening)
  {
    assert Settled(s.disputes[i], s.refunds, i);
    RefundKeepsRows(s, i, txId, w);
    RefundSettles(s, i, txId, w);
    forall m | m != "" ensures Covers(Refunded(s, i, txId, w), opening, m) {
      assert Covers(s, opening, m);
      RefundCovers(s, i, txId, w, opening, m);
    }
  }

  lemma DismissKeepsInv(s: State, i: nat, opening: seq<Entry>)
    requires Inv(s, opening) && i < |s.disputes| && s.disputes[i].status.Open?
    ensures Inv(s.(disputes := s.disputes[i := s.disputes[i].(status := ForMerchant, covered := 0, loss := 0)]),
                opening)
  {
    var d := s.disputes[i].(status := ForMerchant, covered := 0, loss := 0);
    var disputes := s.disputes[i := d];
    assert Settled(s.disputes[i], s.refunds, i);
    forall m | m != "" ensures Covers(s.(disputes := disputes), opening, m) {
      assert Covers(s, opening, m);
      ReplaceDispute(s.disputes, i, d, m);
    }
  }

  lemma ResolveKeepsInv(s: State, i: nat, forUser: bool, txId: string, w: Writes, opening: seq<Entry>)
    requires Inv(s, opening) && txId != "" && (forUser ==> Clean(w))
    ensures Inv(Resolved(s, i, forUser, txId, w), opening)
  {
    if i < |s.disputes| && s.disputes[i].status.Open? {
      if forUser {
        RefundKeepsInv(s, i, txId, w, opening);
      } else {
        DismissKeepsInv(s, i, opening);
      }
    }
  }

  lemma RaiseKeepsInv(s: State, user: string, merchant: string, amount: int, opening: seq<Entry>)
    requires Inv(s, opening) && Sensible(Raise(user, merchant, amount))
    ensures Inv(Next(s, Raise(user, merchant, amount)), opening)
  {
    var d := Dispute(user, merchant, amount, Open, 0, 0);
    NotYetRefunded(s.refunds, |s.disputes|);
    forall m | m != "" ensures Covers(Next(s, Raise(user, merchant, amount)), opening, m) {
      assert Covers(s, opening, m);
      AppendDispute(s.disputes, d, m);
    }
  }

  ghost predicate CleanRun(steps: seq<Step>) {
    forall k :: 0 <= k < |steps| && steps[k].Resolve? && steps[k].forUser ==> Clean(steps[k].writes)
  }

  lemma {:induction false} RunKeepsInv(s: State, steps: seq<Step>, opening: seq<Entry>)
    requires Inv(s, opening) && CleanRun(steps)
    ensures Inv(Run(s, steps), opening)
    decreases |steps|
  {
    if steps != [] {
      if Sensible(steps[0]) {
        match steps[0] {
          case Pay(p) => PayKeepsInv(s, p, opening);
          case Raise(user, merchant, amount) => RaiseKeepsInv(s, user, merchant, amount, opening);
          case Resolve(i, forUser, txId, writes) => ResolveKeepsInv(s, i, forUser, txId, writes, opening);
        }
      }
      forall k | 0 <= k < |steps[1..]| && steps[1..][k].Resolve? && steps[1..][k].forUser
        ensures Clean(steps[1..][k].writes)
      {
        assert steps[1..][k] == steps[k + 1];
      }
      RunKeepsInv(Next(s, steps[0]), steps[1..], opening);
    }
  }

  // What the sub-ledger promises.

  lemma {:induction false} OpenSumNatural(rows: seq<Payouts.Holdback>, m: string)
    requires RowsPositive(rows)
    ensures OpenSum(rows, m) >= 0
  {
    if rows != [] {
      OpenSumNatural(rows[1..], m);
    }
  }

  /** However payouts and disputes follow one another, a merchant's holdback account never goes below what its open
      rows promise, so a dispute never overdraws it; it holds what was held back less what was covered; and a dispute
      decided for the user was refunded once, part from the holdback and the rest from the platform. */
  lemma HoldbackIsNeverOverdrawn(limit: int, now: int, steps: seq<Step>, m: string, i: nat)
    requires CleanRun(steps) && m != ""
    ensures var s := Run(State(Payouts.State(limit, [], [], [], now), [], []), steps);
            && Delta(s.core.log, Account(m)) >= OpenSum(s.core.holdbacks, m) >= 0
            && Delta(s.core.log, Account(m)) == HeldSum(s.core.holdbacks, m) - CoveredSum(s.disputes, m)
            && (i < |s.disputes| ==>
                  var d := s.disputes[i];
                  && TimesRefunded(s.refunds, i) == (if d.status.ForUser? then 1 else 0)
                  && (d.status.ForUser? ==> 0 <= d.covered <= d.amount && d.covered + d.loss == d.amount))
  {
    var s0 := State(Payouts.State(limit, [], [], [], now), [], []);
    RunKeepsInv(s0, steps, []);
    var s := Run(s0, steps);
    assert Covers(s, [], m);
    OpenSumNatural(s.core.holdbacks, m);
    if i < |s.disputes| {
      assert Settled(s.disputes[i], s.refunds, i);
    }
  }

  // What one resolution does.

  /** The holdback rows after a dispute has taken its cover: the merchant's oldest open row is marked, and no other. */
  ghost predicate Covered(before: seq<Payouts.Holdback>, after: seq<Payouts.Holdback>, merchant: string, covered: int,
                          i: nat) {
    if covered == 0 then after == before
    else exists k: nat ::
      && k < |before| && before[k].merchant == merchant && before[k].consumedBy.None? && covered <= before[k].amount
      && (forall j :: 0 <= j < k ==> before[j].merchant != merchant || before[j].consumedBy.Some?)
      && after == before[k := before[k].(consumedBy := Some(i))]
  }

  /** How much the holdback gives: what is needed or all of the merchant's oldest open row, whichever is less; nothing
      exactly when no row is open. */
  ghost predicate Gives(rows: seq<Payouts.Holdback>, merchant: string, need: int, covered: int) {
    && 0 <= covered <= need
    && (covered == 0 <==> forall j :: 0 <= j < |rows| ==> rows[j].merchant != merchant || rows[j].consumedBy.Some?)
    && (0 < covered < need ==>
          exists k: nat ::
            && k < |rows| && rows[k].merchant == merchant && rows[k].consumedBy.None? && covered == rows[k].amount
            && forall j :: 0 <= j < k ==> rows[j].merchant != merchant || rows[j].consumedBy.Some?)
  }

  /** A dispute decided for the merchant is closed without cover or loss exactly when its write takes effect; nothing
      else changes. One that is not open, or not there, changes nothing at all. */
  lemma ForMerchantIff(s: State, i: nat, forUser: bool, txId: string, w: Writes)
    ensures i >= |s.disputes| || !s.disputes[i].status.Open? ==> Resolved(s, i, forUser, txId, w) == s
    ensures i < |s.disputes| && s.disputes[i].status.Open? && !forUser ==>
              var t, d := Resolved(s, i, false, txId, w), s.disputes[i];
              t == if w.closes
                   then s.(disputes := s.disputes[i := Dispute(d.user, d.merchant, d.amount, ForMerchant, 0, 0)])
                   else s
  {
  }

  lemma CoverGives(rows: seq<Payouts.Holdback>, merchant: string, need: int, i: nat)
    requires RowsPositive(rows) && need > 0
    ensures var (covered, k) := Cover(rows, merchant, need);
            Gives(rows, merchant, need, covered) && Covered(rows, Consumed(rows, k, covered, i), merchant, covered, i)
  {
    CoverIsWithin(rows, merchant, need);
    FirstOpenIsOldest(rows, merchant, 0);
  }

  /** A dispute decided for the user, write by write: nothing before the posting; with it the user has the amount; the
      holdback row is marked by the second write, and the third closes the dispute with what was covered and lost. */
  lemma ForUserIff(s: State, i: nat, txId: string, w: Writes)
    requires RowsPositive(s.core.holdbacks) && i < |s.disputes| && s.disputes[i].status.Open? && txId != ""
    requires s.disputes[i].amount > 0 && s.disputes[i].merchant != ""
    ensures !w.posts ==> Resolved(s, i, true, txId, w) == s
    ensures w.posts ==>
              var t, d := Resolved(s, i, true, txId, w), s.disputes[i];
              exists covered ::
                && Gives(s.core.holdbacks, d.merchant, d.amount, covered) && t.refunds == s.refunds + [i]
                && Delta(t.core.log, Accounts.UserWallet(d.user)) ==
                   Delta(s.core.log, Accounts.UserWallet(d.user)) + d.amount
                && (if covered == 0 || w.consumes
                    then Covered(s.core.holdbacks, t.core.holdbacks, d.merchant, covered, i)
                    else t.core.holdbacks == s.core.holdbacks)
                && t.disputes == if (covered == 0 || w.consumes) && w.closes
                                 then s.disputes[i := Dispute(d.user, d.merchant, d.amount, ForUser, covered,
                                                              d.amount - covered)]
                                 else s.disputes
  {
    var d := s.disputes[i];
    var (covered, k) := Cover(s.core.holdbacks, d.merchant, d.amount);
    DisputePosts(s.core.holdbacks, d, s.core.log, txId, d.merchant);
    CoverGives(s.core.holdbacks, d.merchant, d.amount, i);
    if w.posts {
      RefundedParts(s, i, txId, w);
      assert Gives(s.core.holdbacks, d.merchant, d.amount, covered);
    }
  }

  // What partial failures do.

  /** Once the refund is posted, the dispute's books are right exactly when the remaining writes take effect. */
  lemma SettledIffClosed(s: State, i: nat, txId: string, w: Writes)
    requires RowsPositive(s.core.holdbacks) && i < |s.disputes| && s.disputes[i].status.Open?
    requires Settled(s.disputes[i], s.refunds, i) && txId != "" && w.posts
    ensures var t := Refunded(s, i, txId, w);
            var covered := Cover(s.core.holdbacks, s.disputes[i].merchant, s.disputes[i].amount).0;
            i < |t.disputes| && (Settled(t.disputes[i], t.refunds, i) <==> w.closes && (covered == 0 || w.consumes))
  {
    var d := s.disputes[i];
    CoverIsWithin(s.core.holdbacks, d.merchant, d.amount);
    DisputePosts(s.core.holdbacks, d, s.core.log, txId, d.merchant);
    RefundedParts(s, i, txId, w);
    AppendRefund(s.refunds, i, i);
  }

  /** The account still covers its open rows exactly when the consumed row is marked, or the slack left by earlier
      partial covers is enough. */
  lemma CoversIffConsumed(s: State, i: nat, txId: string, w: Writes)
    requires RowsPositive(s.core.holdbacks) && i < |s.disputes| && s.disputes[i].status.Open? &&
             Settled(s.disputes[i], s.refunds, i)
    requires txId != "" && w.posts
    requires var m := s.disputes[i].merchant; Delta(s.core.log, Account(m)) >= OpenSum(s.core.holdbacks, m)
    ensures var m := s.disputes[i].merchant;
            var t := Refunded(s, i, txId, w);
            var covered := Cover(s.core.holdbacks, m, s.disputes[i].amount).0;
            Delta(t.core.log, Account(m)) >= OpenSum(t.core.holdbacks, m) <==>
              w.consumes || Delta(s.core.log, Account(m)) - OpenSum(s.core.holdbacks, m) >= covered
  {
    var d := s.disputes[i];
    var (covered, k) := Cover(s.core.holdbacks, d.merchant, d.amount);
    CoverIsWithin(s.core.holdbacks, d.merchant, d.amount);
    DisputePosts(s.core.holdbacks, d, s.core.log, txId, d.merchant);
    if k.Some? {
      ReplaceRow(s.core.holdbacks, k.value, s.core.holdbacks[k.value].(consumedBy := Some(i)), d.merchant);
    }
  }

  /** A resolution whose close fails stays open, so resolving it again pays the user a second time. */
  lemma FailedCloseRefundsTwice(s: State, i: nat, txId: string, again: string)
    requires RowsPositive(s.core.holdbacks) && i < |s.disputes| && s.disputes[i].status.Open? &&
             Settled(s.disputes[i], s.refunds, i)
    requires txId != "" && again != ""
    ensures var once := Resolved(s, i, true, txId, Writes(true, true, false));
            var t := Resolved(once, i, true, again, Writes(true, true, true));
            var wallet := Accounts.UserWallet(s.disputes[i].user);
            && TimesRefunded(t.refunds, i) == 2
            && Delta(t.core.log, wallet) == Delta(s.core.log, wallet) + 2 * s.disputes[i].amount
  {
    var d := s.disputes[i];
    var t := Resolved(s, i, true, txId, Writes(true, true, false));
    CoverIsWithin(s.core.holdbacks, d.merchant, d.amount);
    DisputePosts(s.core.holdbacks, d, s.core.log, txId, d.merchant);
    AppendRefund(s.refunds, i, i);
    assert RowsPositive(t.core.holdbacks);
    CoverIsWithin(t.core.holdbacks, d.merchant, d.amount);
    DisputePosts(t.core.holdbacks, d, t.core.log, again, d.merchant);
    AppendRefund(t.refunds, i, i);
  }

  // The dispute desk.

  datatype Fault =
    NoActor | NoReason | UnknownOutcome | NotFound | AlreadyResolved | NotPosted | NotConsumed | NotClosed

  class Disputes {
    const payouts: Payouts.Service
    const wallet: Wallet.Memory
    var disputes: seq<Dispute>
    ghost var refunds: seq<nat>

    constructor (payouts: Payouts.Service, wallet: Wallet.Memory)
      ensures this.payouts == payouts && this.wallet == wallet && disputes == [] && refunds == []
    {
      this.payouts, this.wallet := payouts, wallet;
      disputes := [];
      refunds := [];
    }

    ghost function View(): State
      reads this, payouts, payouts.repo
    {
      State(payouts.View(), disputes, refunds)
    }

    method AvailableHoldback(merchant: string, need: int) returns (covered: int, k: Option<nat>)
      ensures (covered, k) == Cover(payouts.holdbacks, merchant, need)
    {
      var i := 0;
      while i < |payouts.holdbacks|
        invariant i <= |payouts.holdbacks|
        invariant FirstOpen(payouts.holdbacks, merchant, 0) == FirstOpen(payouts.holdbacks, merchant, i)
      {
        var row := payouts.holdbacks[i];
        if row.merchant == merchant && row.consumedBy.None? {
          return if row.amount > need then need else row.amount, Some(i);
        }
        i := i + 1;
      }
      return 0, None;
    }

    /** The cached balance of the user is dropped after the holdback row is consumed and before the dispute is closed,
        so a failure to consume leaves it standing below the ledger. */
    method Resolve(i: nat, outcome: string, reason: string, actor: string, txId: string, w: Writes)
      returns (err: Option<Fault>)
      requires payouts.repo.Balanced() && txId != "" && txId !in payouts.repo.transactions &&
               RowsPositive(payouts.holdbacks)
      requires forall k :: 0 <= k < |disputes| ==> disputes[k].amount > 0 && disputes[k].merchant != ""
      modifies this, payouts, payouts.repo, wallet
      ensures payouts.repo.Balanced()
      ensures View() == if actor != "" && reason != "" && outcome in ["resolved_user", "resolved_merchant"]
                        then Resolved(old(View()), i, outcome == "resolved_user", txId, w) else old(View())
      ensures err.None? <==> i < |disputes| && old(disputes[i].status.Open?) && !disputes[i].status.Open?
      ensures wallet.balances == old(wallet.balances) ||
              (i < |disputes| && wallet.balances == old(wallet.balances) - {Accounts.UserWallet(old(disputes)[i].user)})
      ensures err.None? && disputes[i].status.ForUser? ==>
              Accounts.UserWallet(old(disputes)[i].user) !in wallet.balances
    {
      if actor == "" {
        return Some(NoActor);
      }
      if reason == "" {
        return Some(NoReason);
      }
      if outcome != "resolved_user" && outcome != "resolved_merchant" {
        return Some(UnknownOutcome);
      }
      if i >= |disputes| {
        return Some(NotFound);
      }
      if !disputes[i].status.Open? {
        return Some(AlreadyResolved);
      }
      if outcome == "resolved_merchant" {
        err := Close(i, ForMerchant, 0, 0, w.closes);
        return;
      }
      err := Refund(i, txId, w);
    }

    method Close(i: nat, status: Status, covered: int, loss: int, closes: bool) returns (err: Option<Fault>)
      requires i < |disputes|
      modifies this
      ensures refunds == old(refunds) && (err.None? <==> closes)
      ensures disputes ==
              if closes
              then old(disputes)[i := old(disputes)[i].(status := status, covered := covered, loss := loss)]
              else old(disputes)
    {
      if !closes {
        return Some(NotClosed);
      }
      disputes := disputes[i := disputes[i].(status := status, covered := covered, loss := loss)];
      return None;
    }

    method Refund(i: nat, txId: string, w: Writes) returns (err: Option<Fault>)
      requires payouts.repo.Balanced() && txId != "" && txId !in payouts.repo.transactions &&
               RowsPositive(payouts.holdbacks)
      requires i < |disputes| && disputes[i].status.Open? && disputes[i].amount > 0 && disputes[i].merchant != ""
      modifies this, payouts, payouts.repo, wallet
      ensures payouts.repo.Balanced()
      ensures View() == Refunded(old(View()), i, txId, w)
      ensures |disputes| == |old(disputes)| && (err.None? <==> disputes[i].status.ForUser?)
      ensures err.Some? ==> disputes == old(disputes)
      ensures wallet.balances == old(wallet.balances) ||
              wallet.balances == old(wallet.balances) - {Accounts.UserWallet(old(disputes)[i].user)}
      ensures err.None? ==> Accounts.UserWallet(old(disputes)[i].user) !in wallet.balances
    {
      var d := disputes[i];
      var covered, k := AvailableHoldback(d.merchant, d.amount);
      DisputePosts(payouts.holdbacks, d, payouts.repo.log, txId, d.merchant);
      CoverIsWithin(payouts.holdbacks, d.merchant, d.amount);
      var posting := PostingFor(d, covered, txId).value;
      var failed := payouts.repo.Post(posting, w.posts);
      if failed.Some? {
        return Some(NotPosted);
      }
      refunds := refunds + [i];
      if k.Some? && covered > 0 {
        if !w.consumes {
          return Some(NotConsumed);
        }
        payouts.holdbacks := payouts.holdbacks[k.value := payouts.holdbacks[k.value].(consumedBy := Some(i))];
      }
      wallet.Invalidate(Accounts.UserWallet(d.user));
      err := Close(i, ForUser, covered, d.amount - covered, w.closes);
    }
  }
}
