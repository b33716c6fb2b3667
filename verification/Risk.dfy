/** Merchant risk: a score from four components, and the share of each payout held back to cover expected losses.
    Expected loss is exact here, in hundredths of a basis point; the source adds it up in floating point. */
module Risk {
  import opened Wrappers
  import Money

  const MIN_HOLDBACK_BPS := 150
  const MAX_HOLDBACK_BPS := 4500
  const COVERAGE_MULTIPLE := 200
  const CENTI_BPS_PER_BPS := 100
  const INSTANT_SCORE_FLOOR := 40

  datatype Factors = Factors(ageDays: int, refundRateBps: int, disputeRateBps: int, volumeStability: int,
                             verifiedBusiness: bool)

  datatype Mode = Instant | Batch

  datatype Score = Score(total: int, holdbackBps: int, mode: Mode, components: map<string, int>)

  datatype Fault = NegativeRate | StabilityOutOfRange

  function Clamp(v: int, lo: int, hi: int): int { if v < lo then lo else if v > hi then hi else v }

  function AgeScore(days: int): int {
    if days >= 365 then 25 else if days >= 180 then 20 else if days >= 90 then 15 else if days >= 30 then 10 else 4
  }

  function RateScore(rateBps: int, tolerance: int): int
    requires rateBps >= 0
  {
    if tolerance <= 0 || rateBps >= tolerance * 4 then 0 else Clamp(25 - rateBps * 25 / (tolerance * 4), 0, 25)
  }

  /** A quarter of the dispute rate and a fiftieth of the refund rate, and ten, four or one basis points for youth. */
  function ExpectedLossCentiBps(f: Factors): int {
    25 * f.disputeRateBps + 2 * f.refundRateBps +
    CENTI_BPS_PER_BPS * (if f.ageDays < 30 then 10 else if f.ageDays < 90 then 4 else if f.ageDays < 365 then 1 else 0)
  }

  function HoldbackBps(expectedLossCentiBps: int): int {
    var loss := if expectedLossCentiBps < 0 then 0 else expectedLossCentiBps;
    Clamp(loss * COVERAGE_MULTIPLE / CENTI_BPS_PER_BPS, MIN_HOLDBACK_BPS, MAX_HOLDBACK_BPS)
  }

  predicate Acceptable(f: Factors) {
    f.refundRateBps >= 0 && f.disputeRateBps >= 0 && 0 <= f.volumeStability <= 25
  }

  function Points(f: Factors): int
    requires Acceptable(f)
  {
    AgeScore(f.ageDays) + RateScore(f.refundRateBps, 100) + RateScore(f.disputeRateBps, 50) + f.volumeStability +
    if f.verifiedBusiness then 5 else 0
  }

  function TotalOf(f: Factors): int
    requires Acceptable(f)
  {
    Clamp(Points(f), 0, 100)
  }

  function BpsOf(f: Factors): int { HoldbackBps(ExpectedLossCentiBps(f)) }

  function ModeOf(f: Factors): Mode
    requires Acceptable(f)
  {
    if TotalOf(f) < INSTANT_SCORE_FLOOR then Batch else Instant
  }

  /** What a score says about the factors, with no word on how the components are added up. */
  predicate Scores(s: Score, f: Factors)
    requires Acceptable(f)
  {
    s.total == TotalOf(f) && s.holdbackBps == BpsOf(f) && s.mode == ModeOf(f)
  }

  function Of(m: map<string, int>, keys: set<string>, key: string): int
    requires key in m
  {
    if key in keys then m[key] else 0
  }

  /** The components are summed in whatever order the map yields them. */
  method Evaluate(f: Factors) returns (r: Result<Score, Fault>)
    ensures r.Ok? <==> Acceptable(f)
    ensures r.Ok? ==> Scores(r.value, f)
    ensures r.Err? ==>
              r.error == if f.refundRateBps < 0 || f.disputeRateBps < 0 then NegativeRate else StabilityOutOfRange
  {
    if f.refundRateBps < 0 || f.disputeRateBps < 0 {
      return Err(NegativeRate);
    }
    if f.volumeStability < 0 || f.volumeStability > 25 {
      return Err(StabilityOutOfRange);
    }
    var components := map[
      "age" := AgeScore(f.ageDays),
      "refund_rate" := RateScore(f.refundRateBps, 100),
      "dispute_rate" := RateScore(f.disputeRateBps, 50),
      "volume_stability" := f.volumeStability
    ];
    var keys := components.Keys;
    var total := 0;
    while keys != {}
      invariant keys <= components.Keys
      invariant total + Of(components, keys, "age") + Of(components, keys, "refund_rate") +
                Of(components, keys, "dispute_rate")
                + Of(components, keys, "volume_stability") + (if f.verifiedBusiness then 5 else 0) == Points(f)
      decreases |keys|
    {
      var k :| k in keys;
      total := total + components[k];
      keys := keys - {k};
    }
    if f.verifiedBusiness {
      total := total + 5;
    }
    total := Clamp(total, 0, 100);
    var mode := if total < INSTANT_SCORE_FLOOR then Batch else Instant;
    return Ok(Score(total, HoldbackBps(ExpectedLossCentiBps(f)), mode, components));
  }

  /** Twice the expected loss, held between the floor and the ceiling. */
  lemma HoldbackCoversTwice(loss: int)
    ensures MIN_HOLDBACK_BPS <= HoldbackBps(loss) <= MAX_HOLDBACK_BPS
    ensures MIN_HOLDBACK_BPS <= 2 * loss <= MAX_HOLDBACK_BPS ==> HoldbackBps(loss) == 2 * loss
    ensures HoldbackBps(loss) < 2 * loss <==> 2 * loss > MAX_HOLDBACK_BPS
  {
  }

  lemma QuotientGrows(a: int, b: int, d: int)
    requires 0 <= a <= b && d > 0
    ensures a / d <= b / d
  {
    if b / d < a / d {
      Money.NextMultiple(b / d, a / d, d);
    }
  }

  lemma RateScoreFalls(rate: int, worse: int, tolerance: int)
    requires 0 <= rate <= worse && tolerance > 0
    ensures RateScore(worse, tolerance) <= RateScore(rate, tolerance)
  {
    QuotientGrows(rate * 25, worse * 25, tolerance * 4);
  }

  /** A rate costs its share of 25 points, rounded up, and all of them from four times the tolerance on. */
  lemma RateScoreIs(rate: int, tolerance: int)
    requires rate >= 0 && tolerance > 0
    ensures var r := RateScore(rate, tolerance);
            && 0 <= r <= 25 && (4 * tolerance <= rate ==> r == 0)
            && (rate < 4 * tolerance ==>
                  (25 - r) * (tolerance * 4) <= rate * 25 < (25 - r) * (tolerance * 4) + tolerance * 4)
  {
    if rate < 4 * tolerance {
      var d, q := tolerance * 4, rate * 25 / (tolerance * 4);
      assert rate * 25 == q * d + rate * 25 % d;
      if q > 25 {
        Money.NextMultiple(25, q, d);
      }
    }
  }

  /** Each basis point of disputes counts a quarter, each of refunds a fiftieth, and youth up to ten. */
  lemma LossIs(f: Factors)
    ensures 4 * ExpectedLossCentiBps(f) - 100 * f.disputeRateBps - 8 * f.refundRateBps in {0, 400, 1600, 4000}
    ensures ExpectedLossCentiBps(f.(ageDays := 365)) == 25 * f.disputeRateBps + 2 * f.refundRateBps
    ensures var aged, loss := ExpectedLossCentiBps(f.(ageDays := 365)), ExpectedLossCentiBps(f);
            && (loss == aged + 1_000 <==> f.ageDays < 30) && (loss == aged + 400 <==> 30 <= f.ageDays < 90)
            && (loss == aged + 100 <==> 90 <= f.ageDays < 365) && (loss == aged <==> 365 <= f.ageDays)
  {
  }

  /** A merchant who is no older, no better verified and no better in any rate never scores higher, never has less
      held back, and is never paid instantly where the other is not. */
  lemma RiskierIsNeverBetter(f: Factors, worse: Factors, s: Score, t: Score)
    requires Acceptable(f) && Acceptable(worse) && Scores(s, f) && Scores(t, worse)
    requires worse.ageDays <= f.ageDays && f.refundRateBps <= worse.refundRateBps &&
             f.disputeRateBps <= worse.disputeRateBps
    requires worse.volumeStability <= f.volumeStability && (worse.verifiedBusiness ==> f.verifiedBusiness)
    ensures t.total <= s.total && s.holdbackBps <= t.holdbackBps && (t.mode.Instant? ==> s.mode.Instant?)
  {
    RateScoreFalls(f.refundRateBps, worse.refundRateBps, 100);
    RateScoreFalls(f.disputeRateBps, worse.disputeRateBps, 50);
  }
}
