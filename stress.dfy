/** calculate_stress_analysis: bolt tensile stress, thread shear stress
    and a simplified bearing stress for a given load and engagement. */
module Stress {
  import opened Base
  import opened Thread
  import opened Engagement
  import RealArith

  /** Python's math.pi. */
  const PI: real := 3.141592653589793

  /** The stress record; a stress over a non-positive area is float('inf')
      and the thread utilization inherits that infinity. */
  datatype StressAnalysis = StressAnalysis(
    boltStress: real,
    boltUtilization: real,
    threadShearStress: Ext,
    threadUtilization: Ext,
    bearingStress: Ext,
    shearArea: real)

  /** Bearing area π D L 0.75. */
  function BearingArea(t: MetricThread, L: real): real
  {
    PI * t.D * L * 0.75
  }

  /** F / area when area > 0, otherwise infinity. */
  function StressOver(F: real, area: real): (s: Ext)
    ensures area > 0.0 ==> s.Finite? && s.r * area == F
    ensures area <= 0.0 ==> s == PosInf
  {
    if area > 0.0 then Finite(F / area) else PosInf
  }

  /** The bolt stress needs At != 0 and the bolt utilization a non-zero
      bolt yield; the thread utilization divides by k σ_hole (the shear
      yield, not the allowable stress), which must be non-zero. */
  function CalculateStressAnalysis(t: MetricThread, F: real, L: real, sigmaBolt: real, sigmaHole: real, kShear: real)
    : (s: StressAnalysis)
    requires t.At != 0.0 && sigmaBolt != 0.0 && kShear * sigmaHole != 0.0
    ensures s.boltStress * t.At == F
    ensures s.boltUtilization * sigmaBolt == s.boltStress
    ensures s.shearArea == AsFactor(t) * L
    ensures s.shearArea > 0.0 ==> s.threadShearStress.Finite? && s.threadShearStress.r * s.shearArea == F
    ensures s.shearArea <= 0.0 ==> s.threadShearStress == PosInf
    ensures s.threadUtilization == DivBy(s.threadShearStress, kShear * sigmaHole)
    ensures BearingArea(t, L) > 0.0 ==> s.bearingStress.Finite? && s.bearingStress.r * BearingArea(t, L) == F
    ensures BearingArea(t, L) <= 0.0 ==> s.bearingStress == PosInf
  {
    var boltStress := F / t.At;
    var asTotal := AsFactor(t) * L;
    var shear := StressOver(F, asTotal);
    StressAnalysis(
      boltStress,
      boltStress / sigmaBolt,
      shear,
      DivBy(shear, kShear * sigmaHole),
      StressOver(F, BearingArea(t, L)),
      asTotal)
  }

  /** At the engagement the design-load solver returns for a positive
      load, the thread shear stress equals the allowable stress exactly,
      so the reported thread utilization is 1 / n_hole, whatever the load,
      material or thread. */
  lemma ThreadUtilizationAtDesignEngagement(t: MetricThread, F: real, sigmaBolt: real, sigmaHole: real,
                                            nHole: real, kShear: real)
    requires t.At != 0.0 && sigmaBolt != 0.0 && kShear * sigmaHole != 0.0 && nHole != 0.0
    requires F > 0.0 && RequiredEngagementForDesignLoad(t, F, sigmaHole, nHole, kShear).Success?
    ensures var L := RequiredEngagementForDesignLoad(t, F, sigmaHole, nHole, kShear).value;
      CalculateStressAnalysis(t, F, L, sigmaBolt, sigmaHole, kShear).threadUtilization == Finite(1.0 / nHole)
  {
  }

  /** At the bolt's allowable capacity the bolt utilization is 1 / n_bolt. */
  lemma BoltUtilizationAtCapacity(t: MetricThread, L: real, sigmaBolt: real, sigmaHole: real,
                                  nBolt: real, kShear: real)
    requires t.At != 0.0 && sigmaBolt != 0.0 && kShear * sigmaHole != 0.0 && nBolt != 0.0
    ensures var F := BoltTensileCapacity(t, sigmaBolt, nBolt);
      CalculateStressAnalysis(t, F, L, sigmaBolt, sigmaHole, kShear).boltUtilization == 1.0 / nBolt
  {
    var F := BoltTensileCapacity(t, sigmaBolt, nBolt);
    var s := CalculateStressAnalysis(t, F, L, sigmaBolt, sigmaHole, kShear);
    assert s.boltStress * t.At == (sigmaBolt / nBolt) * t.At;
    RealArith.SameFactor(s.boltStress, sigmaBolt / nBolt, t.At);
    var u := s.boltUtilization;
    assert u * sigmaBolt == sigmaBolt / nBolt;
    RealArith.Swap(u, nBolt, sigmaBolt);
    assert (u * sigmaBolt) * nBolt == (sigmaBolt / nBolt) * nBolt;
    RealArith.SameFactor(u * nBolt, 1.0, sigmaBolt);
    RealArith.QuotientUnique(u, 1.0, nBolt);
  }

  /** No engagement (or a thread too coarse for its diameter) gives an
      infinite shear stress and an infinite utilization of the same sign as
      k σ_hole, not an error. */
  lemma NoShearAreaIsInfinite(t: MetricThread, F: real, L: real, sigmaBolt: real, sigmaHole: real, kShear: real)
    requires t.At != 0.0 && sigmaBolt != 0.0 && kShear * sigmaHole != 0.0
    requires AsFactor(t) * L <= 0.0
    ensures var s := CalculateStressAnalysis(t, F, L, sigmaBolt, sigmaHole, kShear);
      s.threadShearStress == PosInf &&
      s.threadUtilization == (if kShear * sigmaHole > 0.0 then PosInf else NegInf)
  {
  }
}
