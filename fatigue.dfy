/** fatigue_analysis: Goodman safety factor and a Basquin-style life
    estimate for a bolt under a mean and an alternating load. */
module Fatigue {
  import opened Base
  import opened Thread
  import RealArith

  datatype LifeStatus = InfiniteLife | FiniteLife

  datatype FatigueResult = FatigueResult(
    enduranceLimit: real,
    meanStress: real,
    alternatingStress: real,
    safetyFactor: real,
    estimatedCycles: Ext,
    status: LifeStatus,
    safeForCycles: bool)

  /** Uncorrected endurance limit: half the yield strength up to 1400 MPa,
      a 700 MPa plateau above. */
  function EnduranceLimitBase(sigmaBolt: real): (se: real)
    ensures se == Min(0.5 * sigmaBolt, 700.0)
  {
    if sigmaBolt <= 1400.0 then 0.5 * sigmaBolt else 700.0
  }

  const FINISH_FACTORS: map<string, real> := map[
    "polished" := 1.0, "ground" := 0.88, "machined" := 0.78,
    "hot_rolled" := 0.52, "as_forged" := 0.39
  ]

  /** Surface factor, 0.78 (the machined value) for an unknown finish. */
  function SurfaceFactor(finish: string): (k: real)
    ensures finish in FINISH_FACTORS ==> k == FINISH_FACTORS[finish]
    ensures finish !in FINISH_FACTORS ==> k == FINISH_FACTORS["machined"]
    ensures 0.39 <= k <= 1.0
  {
    if finish in FINISH_FACTORS then FINISH_FACTORS[finish] else 0.78
  }

  const K_SIZE: real := 0.85
  const K_RELIABILITY: real := 0.81

  function EnduranceLimit(sigmaBolt: real, finish: string): real
  {
    EnduranceLimitBase(sigmaBolt) * SurfaceFactor(finish) * K_SIZE * K_RELIABILITY
  }

  /** F / At, or 0 when At is not positive. */
  function NominalStress(F: real, At: real): (s: real)
    ensures At > 0.0 ==> s * At == F
    ensures At <= 0.0 ==> s == 0.0
  {
    if At > 0.0 then F / At else 0.0
  }

  /** The Goodman sum σ_alt / S_e + σ_mean / σ_y. */
  function GoodmanSum(sigmaAlt: real, sigmaMean: real, se: real, sigmaBolt: real): real
    requires se != 0.0 && sigmaBolt != 0.0
  {
    sigmaAlt / se + sigmaMean / sigmaBolt
  }

  /** Whether the Goodman branch is taken and divides by its sum. */
  predicate GoodmanApplies(sigmaBolt: real, finish: string)
  {
    EnduranceLimit(sigmaBolt, finish) > 0.0 && sigmaBolt > 0.0
  }

  function Pow(x: real, n: nat): real
  {
    if n == 0 then 1.0 else x * Pow(x, n - 1)
  }

  lemma {:induction false} PowPos(x: real, n: nat)
    requires x > 0.0
    ensures Pow(x, n) > 0.0
  {
    if n > 0 {
      PowPos(x, n - 1);
      RealArith.ProductPos(x, Pow(x, n - 1), Pow(x, n));
    }
  }

  /** fatigue_analysis. The Goodman factor divides by the Goodman sum,
      which must then be non-zero (with no load at all it is zero and the
      Python code fails). */
  function FatigueAnalysis(t: MetricThread, FMean: real, FAmp: real, sigmaBolt: real,
                           cyclesExpected: real, finish: string): (r: FatigueResult)
    requires GoodmanApplies(sigmaBolt, finish) ==>
      GoodmanSum(NominalStress(FAmp, t.At), NominalStress(FMean, t.At), EnduranceLimit(sigmaBolt, finish), sigmaBolt) != 0.0
    ensures r.enduranceLimit == EnduranceLimit(sigmaBolt, finish)
    ensures r.meanStress == NominalStress(FMean, t.At) && r.alternatingStress == NominalStress(FAmp, t.At)
    ensures GoodmanApplies(sigmaBolt, finish) ==>
      r.safetyFactor * GoodmanSum(r.alternatingStress, r.meanStress, r.enduranceLimit, sigmaBolt) == 1.0
    ensures !GoodmanApplies(sigmaBolt, finish) ==> r.safetyFactor == 0.0
    ensures r.status == InfiniteLife <==> r.safetyFactor >= 1.0
    ensures r.estimatedCycles != NegInf
    ensures r.estimatedCycles == PosInf <==> r.safetyFactor >= 1.0 || r.alternatingStress <= 0.0
    ensures r.estimatedCycles.Finite? ==> r.estimatedCycles.r == Pow(r.enduranceLimit / r.alternatingStress, 9)
    ensures r.safeForCycles <==> r.estimatedCycles == PosInf || r.estimatedCycles.r > cyclesExpected
  {
    var se := EnduranceLimit(sigmaBolt, finish);
    var sigmaMean := NominalStress(FMean, t.At);
    var sigmaAlt := NominalStress(FAmp, t.At);
    var n := if GoodmanApplies(sigmaBolt, finish) then 1.0 / GoodmanSum(sigmaAlt, sigmaMean, se, sigmaBolt) else 0.0;
    var status := if n >= 1.0 then InfiniteLife else FiniteLife;
    var cycles :=
      if n >= 1.0 then PosInf
      else if sigmaAlt > 0.0 then Finite(Pow(se / sigmaAlt, 9))
      else PosInf;
    var safe := if cycles != PosInf then cycles.r > cyclesExpected else true;
    FatigueResult(se, sigmaMean, sigmaAlt, n, cycles, status, safe)
  }

  // ---------------------------------------------------------------------
  // Properties
  // ---------------------------------------------------------------------

  /** The two endurance-limit branches meet at 1400 MPa. */
  lemma EnduranceLimitBaseContinuous()
    ensures EnduranceLimitBase(1400.0) == 0.5 * 1400.0 == 700.0
  {
  }

  /** The corrected endurance limit is positive exactly when the bolt
      yield is, so the Goodman guard reduces to σ_y > 0 and the safety
      factor is 0 exactly for a non-positive yield. */
  lemma GoodmanAppliesIffPositiveYield(sigmaBolt: real, finish: string)
    ensures GoodmanApplies(sigmaBolt, finish) <==> sigmaBolt > 0.0
  {
  }

  /** Goodman's criterion: for a positive Goodman sum the bolt has
      infinite life exactly when σ_alt / S_e + σ_mean / σ_y <= 1; a
      negative sum (a compressive mean stress outweighing the alternating
      part) gives a negative safety factor and a finite-life status. */
  lemma GoodmanCriterion(t: MetricThread, FMean: real, FAmp: real, sigmaBolt: real, cyclesExpected: real, finish: string)
    requires GoodmanApplies(sigmaBolt, finish)
    requires GoodmanSum(NominalStress(FAmp, t.At), NominalStress(FMean, t.At), EnduranceLimit(sigmaBolt, finish), sigmaBolt) != 0.0
    ensures var r := FatigueAnalysis(t, FMean, FAmp, sigmaBolt, cyclesExpected, finish);
      var sum := GoodmanSum(r.alternatingStress, r.meanStress, r.enduranceLimit, sigmaBolt);
      (sum > 0.0 ==> (r.status == InfiniteLife <==> sum <= 1.0)) &&
      (sum < 0.0 ==> r.safetyFactor < 0.0 && r.status == FiniteLife)
  {
    var r := FatigueAnalysis(t, FMean, FAmp, sigmaBolt, cyclesExpected, finish);
    var sum := GoodmanSum(r.alternatingStress, r.meanStress, r.enduranceLimit, sigmaBolt);
    var n := r.safetyFactor;
    assert n * sum == 1.0;
    if sum > 0.0 {
      if sum <= 1.0 {
        assert 1.0 * sum <= n * sum;
        RealArith.FactorOrderWeak(1.0, n, sum);
      }
      if n >= 1.0 {
        RealArith.ProductNonneg(n - 1.0, sum, (n - 1.0) * sum);
      }
    } else if sum < 0.0 {
      if n >= 0.0 {
        RealArith.ProductNonneg(n, -sum, n * -sum);
      }
    }
  }

  /** With no alternating load the estimate is infinite cycles and the bolt
      is reported safe, even when the Goodman factor is below 1 and the
      status reads FINITE_LIFE. */
  lemma NoAlternatingLoadIsSafe(t: MetricThread, FMean: real, FAmp: real, sigmaBolt: real, cyclesExpected: real, finish: string)
    requires FAmp <= 0.0
    requires GoodmanApplies(sigmaBolt, finish) ==>
      GoodmanSum(NominalStress(FAmp, t.At), NominalStress(FMean, t.At), EnduranceLimit(sigmaBolt, finish), sigmaBolt) != 0.0
    ensures var r := FatigueAnalysis(t, FMean, FAmp, sigmaBolt, cyclesExpected, finish);
      r.estimatedCycles == PosInf && r.safeForCycles
  {
  }

  /** A finite estimate with S_e > 0 and σ_alt > 0 is a positive cycle count. */
  lemma FiniteEstimatePositive(t: MetricThread, FMean: real, FAmp: real, sigmaBolt: real, cyclesExpected: real, finish: string)
    requires GoodmanApplies(sigmaBolt, finish) ==>
      GoodmanSum(NominalStress(FAmp, t.At), NominalStress(FMean, t.At), EnduranceLimit(sigmaBolt, finish), sigmaBolt) != 0.0
    requires sigmaBolt > 0.0
    ensures var r := FatigueAnalysis(t, FMean, FAmp, sigmaBolt, cyclesExpected, finish);
      r.estimatedCycles.Finite? ==> r.estimatedCycles.r > 0.0
  {
    var r := FatigueAnalysis(t, FMean, FAmp, sigmaBolt, cyclesExpected, finish);
    GoodmanAppliesIffPositiveYield(sigmaBolt, finish);
    if r.estimatedCycles.Finite? {
      RealArith.QuotientPos(r.enduranceLimit, r.alternatingStress, r.enduranceLimit / r.alternatingStress);
      PowPos(r.enduranceLimit / r.alternatingStress, 9);
    }
  }
}
