/** The percentages of the readiness report in real arithmetic: how far two stages of rounding to
    one decimal can move them, and where the 95% gate really is. */
module ReadinessRounding {
  import opened Readiness
  import opened ReadinessEvidence

  const GATE_THRESHOLD := 95.0

  /** The weight of every criterion, in percent of the judging mean. */
  const CRITERION_WEIGHT := 20.0

  /** The number of tenths nearest to x, halves up. */
  function Tenths(x: real): int {
    (x * 10.0 + 0.5).Floor
  }

  function Round1(x: real): real {
    Tenths(x) as real / 10.0
  }

  /** Rounding reaches a number of tenths exactly from half a tenth below it on. */
  lemma TenthsReach(x: real, n: int)
    ensures Tenths(x) >= n <==> x * 10.0 + 0.5 >= n as real
  {
  }

  lemma RoundIsClose(x: real)
    ensures -0.05 <= x - Round1(x) < 0.05
  {
    TenthsReach(x, Tenths(x));
    TenthsReach(x, Tenths(x) + 1);
  }

  lemma RoundKeepsOrder(x: real, y: real)
    requires x <= y
    ensures Round1(x) <= Round1(y)
  {
    TenthsReach(x, Tenths(x));
    TenthsReach(y, Tenths(x));
  }

  // ---- Percentages over weighted checks -----------------------------------------------------

  predicate Positive(checks: seq<Check>) {
    forall i | 0 <= i < |checks| :: checks[i].weight.Valid()
  }

  /** The weight of the criterion's checks, of all of them or of the passed ones only. */
  function Total(checks: seq<Check>, criterion: Criterion, passedOnly: bool): real
    requires Positive(checks)
  {
    if checks == [] then 0.0
    else
      var c := checks[0];
      (if c.criterion == criterion && (passedOnly ==> c.standing == Pass) then c.weight.value else 0.0)
      + Total(checks[1..], criterion, passedOnly)
  }

  /** The passed share in percent; the source's guard answers 0 for an empty criterion. */
  function Share(passed: real, total: real): real {
    if total > 0.0 then passed / total * 100.0 else 0.0
  }

  function ExactCompleteness(checks: seq<Check>, criterion: Criterion): real
    requires Positive(checks)
  {
    Share(Total(checks, criterion, true), Total(checks, criterion, false))
  }

  function Completeness(checks: seq<Check>, criterion: Criterion): real
    requires Positive(checks)
  {
    var total := Total(checks, criterion, false);
    if total > 0.0 then Round1(Total(checks, criterion, true) / total * 100.0) else 0.0
  }

  /** The mean of one percentage per criterion, by the criterion weights. */
  function WeightedMean(a: real, b: real, c: real, d: real, e: real): real {
    a * CRITERION_WEIGHT / 100.0 + b * CRITERION_WEIGHT / 100.0 + c * CRITERION_WEIGHT / 100.0
    + d * CRITERION_WEIGHT / 100.0 + e * CRITERION_WEIGHT / 100.0
  }

  /** The mean of the rounded percentages, before it is rounded itself. */
  function RoundedMean(checks: seq<Check>): real
    requires Positive(checks)
  {
    WeightedMean(
      Completeness(checks, UseOfDataHub), Completeness(checks, TechnicalExecution), Completeness(checks, Originality),
      Completeness(checks, RealWorldUsefulness), Completeness(checks, SubmissionQuality))
  }

  function JudgingEvidencePercent(checks: seq<Check>): real
    requires Positive(checks)
  {
    Round1(RoundedMean(checks))
  }

  function ExactJudging(checks: seq<Check>): real
    requires Positive(checks)
  {
    WeightedMean(
      ExactCompleteness(checks, UseOfDataHub), ExactCompleteness(checks, TechnicalExecution),
      ExactCompleteness(checks, Originality), ExactCompleteness(checks, RealWorldUsefulness),
      ExactCompleteness(checks, SubmissionQuality))
  }

  lemma {:induction false} PassedWithinTotal(checks: seq<Check>, criterion: Criterion)
    requires Positive(checks)
    ensures 0.0 <= Total(checks, criterion, true) <= Total(checks, criterion, false)
  {
    if checks != [] {
      PassedWithinTotal(checks[1..], criterion);
    }
  }

  lemma ShareKeepsOrder(p: real, q: real, total: real)
    requires 0.0 <= p <= q <= total
    ensures 0.0 <= Share(p, total) <= Share(q, total) <= 100.0
  {
    if total > 0.0 {
      assert p / total <= q / total <= 1.0;
    }
  }

  lemma CompletenessIsClose(checks: seq<Check>, criterion: Criterion)
    requires Positive(checks)
    ensures 0.0 <= ExactCompleteness(checks, criterion) <= 100.0
    ensures 0.0 <= Completeness(checks, criterion) <= 100.0
    ensures -0.05 <= ExactCompleteness(checks, criterion) - Completeness(checks, criterion) <= 0.05
  {
    var total, passed := Total(checks, criterion, false), Total(checks, criterion, true);
    PassedWithinTotal(checks, criterion);
    ShareKeepsOrder(passed, passed, total);
    RoundEnds();
    RoundIsClose(Share(passed, total));
    RoundKeepsOrder(0.0, Share(passed, total));
    RoundKeepsOrder(Share(passed, total), 100.0);
  }

  /** Two stages of rounding move the judging percentage by a tenth at most, and never out of range. */
  lemma JudgingIsClose(checks: seq<Check>)
    requires Positive(checks)
    ensures 0.0 <= JudgingEvidencePercent(checks) <= 100.0
    ensures -0.1 <= JudgingEvidencePercent(checks) - ExactJudging(checks) <= 0.1
  {
    hide Completeness, ExactCompleteness, Round1, Positive;
    forall criterion: Criterion {
      CompletenessIsClose(checks, criterion);
    }
    var mean := RoundedMean(checks);
    assert 0.0 <= mean <= 100.0;
    RoundEnds();
    RoundIsClose(mean);
    RoundKeepsOrder(0.0, mean);
    RoundKeepsOrder(mean, 100.0);
  }

  lemma RoundEnds()
    ensures Round1(0.0) == 0.0 && Round1(100.0) == 100.0
  {
  }

  // ---- Accepted evidence can only raise them ------------------------------------------------

  lemma {:induction false} TurningRaisesPassed(before: seq<Check>, after: seq<Check>, criterion: Criterion)
    requires AllOnlyTurned(before, after) && Positive(before)
    ensures Positive(after)
    ensures Total(after, criterion, false) == Total(before, criterion, false)
    ensures Total(after, criterion, true) >= Total(before, criterion, true)
  {
    hide IsExternal;
    assert forall i :: 0 <= i < |before| ==> OnlyTurned(before[i], after[i]);
    if before != [] {
      TurningRaisesPassed(before[1..], after[1..], criterion);
    }
  }

  lemma TurningRaisesCompleteness(before: seq<Check>, after: seq<Check>, criterion: Criterion)
    requires AllOnlyTurned(before, after) && Positive(before)
    ensures Positive(after) && Completeness(after, criterion) >= Completeness(before, criterion)
  {
    hide AllOnlyTurned, Positive, Round1;
    TurningRaisesPassed(before, after, criterion);
    PassedWithinTotal(before, criterion);
    PassedWithinTotal(after, criterion);
    var p, q, total := Total(before, criterion, true), Total(after, criterion, true), Total(before, criterion, false);
    ShareKeepsOrder(p, q, total);
    RoundKeepsOrder(Share(p, total), Share(q, total));
  }

  /** No manifest lowers a criterion's completeness or the judging percentage. */
  lemma EvidenceNeverLowers(checks: seq<Check>, bonuses: seq<Bonus>, input: Results.Option<Input>, r: Projection)
    requires Projects(checks, bonuses, input, r) && Positive(checks)
    ensures Positive(r.checks)
    ensures forall criterion :: Completeness(r.checks, criterion) >= Completeness(checks, criterion)
    ensures JudgingEvidencePercent(r.checks) >= JudgingEvidencePercent(checks)
  {
    hide Projects, AllOnlyTurned, Positive, Completeness, Round1;
    EvidenceOnlyTurns(checks, bonuses, input, r);
    forall criterion: Criterion {
      TurningRaisesCompleteness(checks, r.checks, criterion);
    }
    TurningRaisesCompleteness(checks, r.checks, Originality);
    RoundKeepsOrder(RoundedMean(checks), RoundedMean(r.checks));
  }

  // ---- The gate -----------------------------------------------------------------------------

  predicate PositiveCapabilities(capabilities: seq<Capability>) {
    forall i | 0 <= i < |capabilities| :: capabilities[i].weight.Valid()
  }

  function CapabilityWeight(capabilities: seq<Capability>, passedOnly: bool): real
    requires PositiveCapabilities(capabilities)
  {
    if capabilities == [] then 0.0
    else
      var c := capabilities[0];
      (if passedOnly ==> c.passed then c.weight.value else 0.0) + CapabilityWeight(capabilities[1..], passedOnly)
  }

  function OfflineCapabilityPercent(capabilities: seq<Capability>): real
    requires PositiveCapabilities(capabilities)
  {
    var total := CapabilityWeight(capabilities, false);
    if total > 0.0 then Round1(CapabilityWeight(capabilities, true) / total * 100.0) else 0.0
  }

  predicate GatePassed(capabilities: seq<Capability>)
    requires PositiveCapabilities(capabilities)
  {
    OfflineCapabilityPercent(capabilities) >= GATE_THRESHOLD
  }

  lemma {:induction false} CapabilityTotals(capabilities: seq<Capability>)
    requires PositiveCapabilities(capabilities)
    ensures 0.0 <= CapabilityWeight(capabilities, true) <= CapabilityWeight(capabilities, false)
    ensures CapabilityWeight(capabilities, false) > 0.0 <==> capabilities != []
  {
    if capabilities != [] {
      CapabilityTotals(capabilities[1..]);
    }
  }

  /** The 95% gate opens exactly from 94.95% of the weight on, and never for an empty list. */
  lemma GateIsAt9495(capabilities: seq<Capability>)
    requires PositiveCapabilities(capabilities)
    ensures GatePassed(capabilities) <==>
            capabilities != [] &&
            CapabilityWeight(capabilities, true) * 100.0 >= 94.95 * CapabilityWeight(capabilities, false)
  {
    hide Tenths;
    CapabilityTotals(capabilities);
    var passed, total := CapabilityWeight(capabilities, true), CapabilityWeight(capabilities, false);
    if total > 0.0 {
      TenthsReach(passed / total * 100.0, 950);
      Scaled(passed, total);
    }
  }

  lemma Scaled(passed: real, total: real)
    requires total > 0.0
    ensures passed / total * 100.0 >= 94.95 <==> passed * 100.0 >= 94.95 * total
  {
    var ratio := passed / total;
    assert passed == ratio * total;
    if ratio * 100.0 >= 94.95 {
      assert (ratio * 100.0) * total >= 94.95 * total;
    } else {
      assert (ratio * 100.0) * total < 94.95 * total;
    }
  }
}
