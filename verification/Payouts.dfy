/** Instant payouts: the float position, the decision between instant and batch, and what a settlement books. */
module Payouts {
  import opened Wrappers
  import opened Ledger
  import Accounts
  import Money
  import Movements
  import Risk

  const DEGRADE_HIGH_RISK_BPS := 7_000
  const DEGRADE_ALL_BPS := 8_500
  const HIGH_RISK_HOLDBACK_BPS := 1_000
  const COLLECTION_WINDOW := 24 * 3600
  const HOLDBACK_WINDOW := 24 * 3600

  datatype Status = Settled | Sending | Failed | DegradedToBatch

  datatype Payout = Payout(merchant: string, mode: Risk.Mode, gross: int, holdback: int, net: int, bps: int,
                           rail: Option<string>, status: Status, at: int, txId: Option<string>)

  datatype Holdback = Holdback(merchant: string, payout: nat, amount: int, releaseAt: int, consumedBy: Option<nat>)

  /** How the chosen rail answered. */
  datatype Sent = Confirmed | Ambiguous | TimedOut | Rejected

  /** `exposure` is the merchant's outstanding amount and limit, if one is set; `rail` the healthy rail selected, if
      any; `waited` how long the send took; `recorded` and `commits` the database's verdicts. */
  datatype Conditions = Conditions(recorded: bool, exposure: Option<(int, int)>, rail: Option<string>, sent: Sent,
                                   waited: nat, commits: bool, txId: string)

  datatype State = State(limit: int, payouts: seq<Payout>, holdbacks: seq<Holdback>, log: seq<Entry>, now: int)

  // The float.

  predicate Exposed(p: Payout, now: int) {
    p.mode.Instant? && (p.status.Sending? || p.status.Settled?) && p.at > now - COLLECTION_WINDOW
  }

  function Outstanding(payouts: seq<Payout>, now: int): int {
    if payouts == [] then 0
    else
      var last := payouts[|payouts| - 1];
      Outstanding(payouts[..|payouts| - 1], now) + if Exposed(last, now) then last.net else 0
  }

  function UtilisationBps(outstanding: int, limit: int): int {
    if limit > 0 then Money.Quot(outstanding * 10_000, limit) else 0
  }

  function ModeFor(utilisationBps: int, holdbackBps: int): Risk.Mode {
    if utilisationBps >= DEGRADE_ALL_BPS then Risk.Batch
    else if utilisationBps >= DEGRADE_HIGH_RISK_BPS && holdbackBps > HIGH_RISK_HOLDBACK_BPS then Risk.Batch
    else Risk.Instant
  }

  function ExposureExceeded(exposure: Option<(int, int)>, amount: int): bool {
    exposure.Some? && exposure.value.1 > 0 && exposure.value.0 + amount > exposure.value.1
  }

  // One settlement.

  function Chosen(s: State, gross: int, f: Risk.Factors, c: Conditions): Risk.Mode
    requires Risk.Acceptable(f)
  {
    var mode := ModeFor(UtilisationBps(Outstanding(s.payouts, s.now), s.limit), Risk.BpsOf(f));
    var scored := if Risk.ModeOf(f).Batch? then Risk.Batch else mode;
    if ExposureExceeded(c.exposure, gross) then Risk.Batch else scored
  }

  function StatusOf(sent: Sent): Status {
    match sent
    case Confirmed => Settled
    case Ambiguous | TimedOut => Sending
    case Rejected => Failed
  }

  function PostingFor(merchant: string, rail: string, gross: int, bps: int, txId: string): Result<Posting, Error> {
    Movements.NewInstantPayout(txId, Accounts.MerchantPayable(merchant), Accounts.MerchantHoldback(merchant),
                               Accounts.ProviderClearing(rail), gross, bps)
  }

  function HeldBack(gross: int, f: Risk.Factors): int {
    match Money.FeeHalfUp(gross, Risk.BpsOf(f)) case Ok(holdback) => holdback case Err(_) => 0
  }

  /** The row of a payout that goes to the next batch. */
  function BatchRow(s: State, merchant: string, gross: int, f: Risk.Factors): Payout {
    var holdback := HeldBack(gross, f);
    Payout(merchant, Risk.Batch, gross, holdback, gross - holdback, Risk.BpsOf(f), None, DegradedToBatch, s.now, None)
  }

  function InstantRow(s: State, merchant: string, gross: int, f: Risk.Factors, rail: string, c: Conditions): Payout {
    var holdback := HeldBack(gross, f);
    Payout(merchant, Risk.Instant, gross, holdback, gross - holdback, Risk.BpsOf(f), Some(rail), StatusOf(c.sent),
           s.now + c.waited, if c.sent.Rejected? then None else Some(c.txId))
  }

  /** A rejected send leaves a failed row; any other is booked, with a holdback row for what is held back. */
  function Booked(s: State, row: Payout, posting: Posting): State {
    var payouts := s.payouts + [row];
    if row.status.Failed? then s.(payouts := payouts)
    else
      s.(payouts := payouts, log := s.log + posting.entries,
         holdbacks := s.holdbacks + if row.holdback > 0
                                    then [Holdback(row.merchant, |s.payouts|, row.holdback, row.at + HOLDBACK_WINDOW,
                                                   None)]
                                    else [])
  }

  function Paid(s: State, merchant: string, gross: int, f: Risk.Factors, c: Conditions): State {
    if gross <= 0 || !Risk.Acceptable(f) || !c.recorded then s
    else if Chosen(s, gross, f, c).Batch? || c.rail.None?
    then if c.commits then s.(payouts := s.payouts + [BatchRow(s, merchant, gross, f)]) else s
    else
      var t := s.(now := s.now + c.waited);
      match PostingFor(merchant, c.rail.value, gross, Risk.BpsOf(f), c.txId)
      case Err(_) => t
      case Ok(posting) =>
        if c.commits then Booked(t, InstantRow(s, merchant, gross, f, c.rail.value, c), posting) else t
  }

  // What a settlement promises.

  lemma PayoutNames(merchant: string, rail: string)
    ensures Movements.Named([Accounts.MerchantPayable(merchant), Accounts.MerchantHoldback(merchant),
                             Accounts.ProviderClearing(rail)])
  {
  }

  /** At a holdback of at most 45 percent at least one unit is left to pay out of any positive amount. */
  lemma SomethingIsLeft(gross: int, bps: int)
    requires gross > 0 && 0 <= bps <= Risk.MAX_HOLDBACK_BPS
    ensures 2 * (gross * (Money.BASIS_POINTS - bps)) > Money.BASIS_POINTS
  {
    Money.NextMultiple(0, gross, Money.BASIS_POINTS - bps);
  }

  /** The posting is built after the money has left, so it must never be refused, and it never is. What the ledger
      credits to the holdback account is what the row says is held back. */
  lemma PayoutAlwaysPosts(merchant: string, rail: string, gross: int, f: Risk.Factors, txId: string)
    requires gross > 0 && txId != ""
    ensures var r := PostingFor(merchant, rail, gross, Risk.BpsOf(f), txId);
            && r.Ok? && Valid(r.value) && r.value.txId == txId
            && 0 <= HeldBack(gross, f) < gross
            && forall a :: Delta(r.value.entries, a) ==
                           Movements.Flow(a, Accounts.MerchantPayable(merchant), gross, Accounts.ProviderClearing(rail),
                                          gross - HeldBack(gross, f), Accounts.MerchantHoldback(merchant),
                                          HeldBack(gross, f))
  {
    Risk.HoldbackCoversTwice(Risk.ExpectedLossCentiBps(f));
    SomethingIsLeft(gross, Risk.BpsOf(f));
    PayoutNames(merchant, rail);
    Movements.PayoutEffect(txId, Accounts.MerchantPayable(merchant), Accounts.MerchantHoldback(merchant),
                           Accounts.ProviderClearing(rail), gross, Risk.BpsOf(f));
  }

  /** Money goes out instantly exactly when the score allows it, the merchant's exposure allows it, a rail is healthy
      and the float is below 85 percent, or below 70 percent for a merchant held back by more than 10 percent. */
  lemma InstantIff(s: State, merchant: string, gross: int, f: Risk.Factors, c: Conditions)
    requires gross > 0 && Risk.Acceptable(f) && c.recorded && c.commits && c.txId != ""
    ensures var t := Paid(s, merchant, gross, f, c);
            var utilisation := UtilisationBps(Outstanding(s.payouts, s.now), s.limit);
            && |t.payouts| == |s.payouts| + 1
            && var row := t.payouts[|s.payouts|];
               && row.merchant == merchant && row.gross == gross && row.net + row.holdback == gross && row.net > 0
               && (row.mode.Instant? <==>
                     && Risk.TotalOf(f) >= Risk.INSTANT_SCORE_FLOOR
                     && utilisation <
                        (if Risk.BpsOf(f) > HIGH_RISK_HOLDBACK_BPS then DEGRADE_HIGH_RISK_BPS else DEGRADE_ALL_BPS)
                     && (c.exposure.None? || c.exposure.value.1 <= 0 ||
                         c.exposure.value.0 + gross <= c.exposure.value.1)
                     && c.rail.Some?)
               && (row.status.DegradedToBatch? <==> row.mode.Batch?)
               && (row.status.Settled? <==> row.mode.Instant? && c.sent.Confirmed?)
  {
    if c.rail.Some? {
      PayoutAlwaysPosts(merchant, c.rail.value, gross, f, c.txId);
    } else {
      PayoutAlwaysPosts(merchant, "", gross, f, c.txId);
    }
  }

  /** What the float allows: anything without a limit; with one, as long as what is outstanding is below 85 percent of
      it, or below 70 percent for a merchant held back by more than 10 percent. */
  lemma FloatAllowsIff(outstanding: int, limit: int, bps: int)
    requires outstanding >= 0
    ensures ModeFor(UtilisationBps(outstanding, limit), bps).Instant? <==>
              limit <= 0 || outstanding * 10_000 < (if bps > 1_000 then 7_000 else 8_500) * limit
  {
    if limit > 0 {
      var u, k := UtilisationBps(outstanding, limit), if bps > 1_000 then 7_000 else 8_500;
      if u < k {
        Money.NextMultiple(u, k, limit);
      } else if u > k {
        Money.NextMultiple(k, u, limit);
      }
    }
  }

  /** The row of a settlement and its books: the part of the gross held back, to the nearest unit; the status that the
      rail's answer means; and money booked and held back exactly for a send that was not rejected, since it may have
      left. */
  ghost predicate SettledRight(s: State, t: State, row: Payout, f: Risk.Factors, c: Conditions) {
    && t.payouts == s.payouts + [row] && row.net == row.gross - row.holdback && row.bps == Risk.BpsOf(f)
    && -10_000 < 2 * (row.holdback * 10_000) - 2 * (row.gross * row.bps) <= 10_000
    && match row.mode
       case Batch =>
         && row.status.DegradedToBatch? && row.rail.None? && row.txId.None? && row.at == s.now
         && t == s.(payouts := t.payouts)
       case Instant =>
         && c.rail.Some? && row.rail == c.rail && row.at == t.now == s.now + c.waited && t.limit == s.limit
         && (row.status.Settled? <==> c.sent.Confirmed?) && (row.status.Failed? <==> c.sent.Rejected?)
         && (row.status.Sending? <==> c.sent.Ambiguous? || c.sent.TimedOut?)
         && (c.sent.Rejected? ==> row.txId.None? && t.log == s.log && t.holdbacks == s.holdbacks)
         && (!c.sent.Rejected? ==>
               && row.txId == Some(c.txId) && Books(s.log, t.log, row)
               && t.holdbacks == s.holdbacks + if row.holdback <= 0 then []
                                               else [Holdback(row.merchant, |s.payouts|, row.holdback,
                                                              row.at + 24 * 3600, None)])
  }

  ghost predicate Books(before: seq<Entry>, after: seq<Entry>, row: Payout) {
    && row.rail.Some? && before <= after
    && forall a :: Delta(after, a) == Delta(before, a) +
         Movements.Flow(a, Accounts.MerchantPayable(row.merchant), row.gross,
                        Accounts.ProviderClearing(row.rail.value), row.net,
                        Accounts.MerchantHoldback(row.merchant), row.holdback)
  }

  lemma InstantBooks(log: seq<Entry>, merchant: string, rail: string, gross: int, f: Risk.Factors, row: Payout,
                     posting: Posting)
    requires row.merchant == merchant && row.rail == Some(rail) && row.gross == gross
    requires row.holdback == HeldBack(gross, f) && row.net == gross - row.holdback
    requires forall a :: Delta(posting.entries, a) ==
                         Movements.Flow(a, Accounts.MerchantPayable(merchant), gross, Accounts.ProviderClearing(rail),
                                        gross - HeldBack(gross, f), Accounts.MerchantHoldback(merchant),
                                        HeldBack(gross, f))
    ensures Books(log, log + posting.entries, row)
  {
    forall a ensures Delta(log + posting.entries, a) == Delta(log, a) + Delta(posting.entries, a) {
      DeltaConcat(log, posting.entries, a);
    }
  }

  lemma HeldBackIsNearest(gross: int, f: Risk.Factors)
    requires gross > 0
    ensures -10_000 < 2 * (HeldBack(gross, f) * 10_000) - 2 * (gross * Risk.BpsOf(f)) <= 10_000
  {
    Risk.HoldbackCoversTwice(Risk.ExpectedLossCentiBps(f));
    Product(gross, Risk.BpsOf(f));
    Money.HalfUpIsNearest(gross * Risk.BpsOf(f), Money.BASIS_POINTS);
  }

  lemma Product(a: int, b: int)
    requires a >= 0 && b >= 0
    ensures a * b >= 0
  {
  }

  /** A settlement leaves one row and its books exactly when the amount is positive, the factors acceptable, the score
      recorded and the transaction committed; otherwise no row and no entry. */
  lemma SettlementIsRight(s: State, merchant: string, gross: int, f: Risk.Factors, c: Conditions)
    requires c.txId != ""
    ensures var t := Paid(s, merchant, gross, f, c);
            if gross > 0 && Risk.Acceptable(f) && c.recorded && c.commits
            then |t.payouts| == |s.payouts| + 1 &&
                 var row := t.payouts[|s.payouts|];
                 row.merchant == merchant && row.gross == gross && SettledRight(s, t, row, f, c)
            else t == s.(now := t.now)
  {
    if gross > 0 && Risk.Acceptable(f) && c.recorded {
      HeldBackIsNearest(gross, f);
      if !Chosen(s, gross, f, c).Batch? && c.rail.Some? {
        var rail := c.rail.value;
        PayoutAlwaysPosts(merchant, rail, gross, f, c.txId);
        InstantBooks(s.log, merchant, rail, gross, f, InstantRow(s, merchant, gross, f, rail, c),
                     PostingFor(merchant, rail, gross, Risk.BpsOf(f), c.txId).value);
      }
    }
  }

  /** What a settlement adds to the outstanding float: its net amount, when it was sent and not rejected, for a day. */
  lemma SettlementCounts(s: State, t: State, row: Payout, f: Risk.Factors, c: Conditions, later: int)
    requires SettledRight(s, t, row, f, c)
    ensures Outstanding(t.payouts, later) == Outstanding(s.payouts, later) +
              if row.mode.Instant? && !c.sent.Rejected? && later < row.at + 24 * 3600 then row.net else 0
  {
    assert (s.payouts + [row])[..|s.payouts|] == s.payouts;
  }

  // The float over serial runs.

  datatype Step =
    | Settle(merchant: string, gross: int, factors: Risk.Factors, conditions: Conditions)
    | Tick(d: nat)

  /** Transaction ids are never empty. */
  function Next(s: State, step: Step): State {
    match step
    case Settle(merchant, gross, factors, conditions) =>
      if conditions.txId != "" then Paid(s, merchant, gross, factors, conditions) else s
    case Tick(d) => s.(now := s.now + d)
  }

  function Run(s: State, steps: seq<Step>): State
    decreases |steps|
  {
    if steps == [] then s else Run(Next(s, steps[0]), steps[1..])
  }

  /** The largest single instant payout so far. */
  function LargestNet(payouts: seq<Payout>): int {
    if payouts == [] then 0
    else
      var before, last := LargestNet(payouts[..|payouts| - 1]), payouts[|payouts| - 1];
      if last.mode.Instant? && last.net > before then last.net else before
  }

  ghost predicate NetsPositive(payouts: seq<Payout>) {
    forall k :: 0 <= k < |payouts| ==> payouts[k].net > 0
  }

  predicate WithinFloat(s: State) {
    Outstanding(s.payouts, s.now) * 10_000 < DEGRADE_ALL_BPS * s.limit + 10_000 * LargestNet(s.payouts)
  }

  lemma {:induction false} OutstandingFades(payouts: seq<Payout>, now: int, later: int)
    requires NetsPositive(payouts) && now <= later
    ensures 0 <= Outstanding(payouts, later) <= Outstanding(payouts, now)
  {
    if payouts != [] {
      OutstandingFades(payouts[..|payouts| - 1], now, later);
    }
  }

  lemma Appended(payouts: seq<Payout>, row: Payout, now: int)
    ensures Outstanding(payouts + [row], now) == Outstanding(payouts, now) + if Exposed(row, now) then row.net else 0
    ensures LargestNet(payouts + [row]) ==
            if row.mode.Instant? && row.net > LargestNet(payouts) then row.net else LargestNet(payouts)
  {
    assert (payouts + [row])[..|payouts|] == payouts;
  }

  lemma BelowThreshold(outstanding: int, limit: int)
    requires outstanding >= 0 && limit > 0 && UtilisationBps(outstanding, limit) < DEGRADE_ALL_BPS
    ensures outstanding * 10_000 < DEGRADE_ALL_BPS * limit
  {
    Money.NextMultiple(UtilisationBps(outstanding, limit), DEGRADE_ALL_BPS, limit);
  }

  /** One more instant payout of `net` on top of an outstanding amount that was below the threshold. */
  lemma OneMorePayout(s: State, row: Payout)
    requires s.limit > 0 && NetsPositive(s.payouts) && row.net > 0 && row.at >= s.now
    requires row.mode.Instant? ==> UtilisationBps(Outstanding(s.payouts, s.now), s.limit) < DEGRADE_ALL_BPS
    requires WithinFloat(s)
    ensures WithinFloat(s.(payouts := s.payouts + [row], now := row.at))
  {
    OutstandingFades(s.payouts, s.now, row.at);
    Appended(s.payouts, row, row.at);
    if row.mode.Instant? {
      BelowThreshold(Outstanding(s.payouts, s.now), s.limit);
    }
  }

  ghost predicate FloatOk(s: State, limit: int) {
    s.limit == limit > 0 && NetsPositive(s.payouts) && WithinFloat(s)
  }

  lemma WaitingKeepsFloat(s: State, limit: int, d: nat)
    requires FloatOk(s, limit)
    ensures FloatOk(s.(now := s.now + d), limit)
  {
    OutstandingFades(s.payouts, s.now, s.now + d);
  }

  lemma BatchKeepsFloat(s: State, limit: int, row: Payout)
    requires FloatOk(s, limit) && row.mode.Batch? && row.net > 0 && row.at == s.now
    ensures FloatOk(s.(payouts := s.payouts + [row]), limit)
  {
    OneMorePayout(s, row);
    assert s.(payouts := s.payouts + [row], now := row.at) == s.(payouts := s.payouts + [row]);
  }

  lemma InstantKeepsFloat(s: State, limit: int, d: nat, row: Payout, posting: Posting)
    requires FloatOk(s, limit) && row.mode.Instant? && row.net > 0 && row.at == s.now + d
    requires UtilisationBps(Outstanding(s.payouts, s.now), s.limit) < DEGRADE_ALL_BPS
    ensures FloatOk(Booked(s.(now := s.now + d), row, posting), limit)
  {
    OneMorePayout(s, row);
  }

  lemma PaidKeepsFloat(s: State, limit: int, merchant: string, gross: int, f: Risk.Factors, c: Conditions)
    requires FloatOk(s, limit) && c.txId != ""
    ensures FloatOk(Paid(s, merchant, gross, f, c), limit)
  {
    if gross > 0 && Risk.Acceptable(f) && c.recorded {
      PayoutAlwaysPosts(merchant, if c.rail.Some? then c.rail.value else "", gross, f, c.txId);
      if Chosen(s, gross, f, c).Batch? || c.rail.None? {
        BatchKeepsFloat(s, limit, BatchRow(s, merchant, gross, f));
      } else {
        WaitingKeepsFloat(s, limit, c.waited);
        InstantKeepsFloat(s, limit, c.waited, InstantRow(s, merchant, gross, f, c.rail.value, c),
                          PostingFor(merchant, c.rail.value, gross, Risk.BpsOf(f), c.txId).value);
      }
    }
  }

  /** The float overshoots its 85 percent by less than one payout, however many are settled one after another. */
  lemma {:induction false} FloatIsBounded(s: State, limit: int, steps: seq<Step>)
    requires FloatOk(s, limit)
    ensures FloatOk(Run(s, steps), limit)
    decreases |steps|
  {
    if steps != [] {
      match steps[0] {
        case Settle(merchant, gross, factors, conditions) =>
          if conditions.txId != "" {
            PaidKeepsFloat(s, limit, merchant, gross, factors, conditions);
          }
        case Tick(d) => WaitingKeepsFloat(s, limit, d);
      }
      FloatIsBounded(Next(s, steps[0]), limit, steps[1..]);
    }
  }

  /** From no payouts on: what is outstanding never reaches 85 percent of the limit plus one instant payout. */
  lemma FloatIsBoundedFromTheStart(limit: int, now: int, steps: seq<Step>)
    requires limit > 0
    ensures var t := Run(State(limit, [], [], [], now), steps);
            0 <= Outstanding(t.payouts, t.now) &&
              Outstanding(t.payouts, t.now) * 10_000 < 8_500 * limit + 10_000 * LargestNet(t.payouts)
  {
    var t := Run(State(limit, [], [], [], now), steps);
    FloatIsBounded(State(limit, [], [], [], now), limit, steps);
    OutstandingFades(t.payouts, t.now, t.now);
  }

  /** Without a limit the utilisation is always zero, so nothing is ever degraded on its account. */
  lemma NoLimitNeverDegrades(outstanding: int, limit: int, bps: int)
    ensures limit <= 0 ==> ModeFor(UtilisationBps(outstanding, limit), bps).Instant?
  {
  }

  // The service.

  datatype Fault = NotPositive | BadFactors(cause: Risk.Fault) | ScoreNotRecorded | Refused(error: Error)

  class Service {
    const repo: Repo
    const limit: int
    var payouts: seq<Payout>
    var holdbacks: seq<Holdback>
    var now: int

    constructor (repo: Repo, limit: int, now: int)
      ensures this.repo == repo && this.limit == limit && payouts == [] && holdbacks == [] && this.now == now
    {
      this.repo, this.limit, this.now := repo, limit, now;
      payouts, holdbacks := [], [];
    }

    ghost function View(): State
      reads this, repo
    {
      State(limit, payouts, holdbacks, repo.log, now)
    }

    method Position() returns (outstanding: int, utilisationBps: int, instantEnabled: bool)
      ensures outstanding == Outstanding(payouts, now)
      ensures utilisationBps == UtilisationBps(outstanding, limit)
      ensures instantEnabled <==> utilisationBps < DEGRADE_ALL_BPS
    {
      outstanding := 0;
      var i := 0;
      while i < |payouts|
        invariant i <= |payouts| && outstanding == Outstanding(payouts[..i], now)
      {
        assert payouts[..i + 1][..i] == payouts[..i];
        if Exposed(payouts[i], now) {
          outstanding := outstanding + payouts[i].net;
        }
        i := i + 1;
      }
      assert payouts[..i] == payouts;
      utilisationBps := 0;
      if limit > 0 {
        utilisationBps := Money.Quot(outstanding * 10_000, limit);
      }
      instantEnabled := utilisationBps < DEGRADE_ALL_BPS;
    }

    /** The payout row, and with a posting the ledger entries and the holdback row, in one transaction. */
    method Persist(row: Payout, posting: Option<Posting>, commits: bool) returns (err: Option<Error>)
      requires repo.Balanced() && (row.status.Failed? ==> posting.None?)
      requires posting.Some? ==> Valid(posting.value) && posting.value.txId !in repo.transactions
      modifies this, repo
      ensures repo.Balanced() && now == old(now)
      ensures err.None? <==> commits
      ensures err.Some? ==> View() == old(View())
      ensures err.None? ==> View() == if posting.Some? then Booked(old(View()), row, posting.value)
                                      else old(View()).(payouts := old(payouts) + [row])
    {
      if posting.Some? {
        err := repo.Post(posting.value, commits);
        if err.Some? {
          return;
        }
      } else if !commits {
        return Some(CommitFailed);
      }
      payouts := payouts + [row];
      if posting.Some? && row.holdback > 0 {
        holdbacks := holdbacks + [Holdback(row.merchant, |payouts| - 1, row.holdback, row.at + HOLDBACK_WINDOW, None)];
      }
      return None;
    }

    method Settle(merchant: string, gross: int, f: Risk.Factors, c: Conditions) returns (r: Result<Payout, Fault>)
      requires repo.Balanced() && c.txId != "" && c.txId !in repo.transactions
      modifies this, repo
      ensures repo.Balanced()
      ensures View() == Paid(old(View()), merchant, gross, f, c)
      ensures r.Ok? <==> payouts != old(payouts)
      ensures r.Ok? ==> payouts == old(payouts) + [r.value]
    {
      if gross <= 0 {
        return Err(NotPositive);
      }
      var scored := Risk.Evaluate(f);
      if scored.Err? {
        return Err(BadFactors(scored.error));
      }
      if !c.recorded {
        return Err(ScoreNotRecorded);
      }
      var score := scored.value;
      var _, utilisation, _ := Position();
      var mode := ModeFor(utilisation, score.holdbackBps);
      if score.mode.Batch? {
        mode := Risk.Batch;
      }
      if ExposureExceeded(c.exposure, gross) {
        mode := Risk.Batch;
      }
      if mode.Batch? || c.rail.None? {
        var holdback := HeldBack(gross, f);
        var row := Payout(merchant, Risk.Batch, gross, holdback, gross - holdback, score.holdbackBps, None,
                          DegradedToBatch, now, None);
        var err := Persist(row, None, c.commits);
        return if err.Some? then Err(Refused(err.value)) else Ok(row);
      }
      r := SettleInstantly(merchant, gross, f, c);
    }

    /** The send comes first; what it cost in time has passed by the time the row is written. */
    method SettleInstantly(merchant: string, gross: int, f: Risk.Factors, c: Conditions)
      returns (r: Result<Payout, Fault>)
      requires repo.Balanced() && c.txId != "" && c.txId !in repo.transactions && gross > 0 && c.rail.Some?
      requires Risk.Acceptable(f) && c.recorded && Chosen(View(), gross, f, c).Instant?
      modifies this, repo
      ensures repo.Balanced()
      ensures View() == Paid(old(View()), merchant, gross, f, c)
      ensures r.Ok? <==> payouts != old(payouts)
      ensures r.Ok? ==> payouts == old(payouts) + [r.value]
    {
      var holdback := HeldBack(gross, f);
      var row := Payout(merchant, Risk.Instant, gross, holdback, gross - holdback, Risk.BpsOf(f), c.rail,
                        StatusOf(c.sent), now + c.waited, if c.sent.Rejected? then None else Some(c.txId));
      now := now + c.waited;
      PayoutAlwaysPosts(merchant, c.rail.value, gross, f, c.txId);
      var posting := PostingFor(merchant, c.rail.value, gross, Risk.BpsOf(f), c.txId).value;
      var err := Persist(row, if row.status.Failed? then None else Some(posting), c.commits);
      return if err.Some? then Err(Refused(err.value)) else Ok(row);
    }
  }
}
