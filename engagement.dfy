/** Bolt tensile capacity and the two engagement-length solvers: the
    length for a given design load, and the length at which the tapped
    threads are as strong as the bolt. */
module Engagement {
  import opened Base
  import opened Thread
  import RealArith

  /** The default shear-strength factor k of both solvers (shear yield
      taken as 0.62 of tensile yield). */
  const DEFAULT_K_SHEAR: real := 0.62

  /** Internal-thread shear area per mm of engagement (mm²/mm). */
  function AsFactor(t: MetricThread): (a: real)
    ensures t.p > 0.0 ==> (a > 0.0 <==> t.D > 0.54127 * t.p)
    ensures t.p == 0.0 ==> a == 0.0
  {
    0.5625 * t.p * (t.D - 0.54127 * t.p)
  }

  /** Allowable shear stress of the tapped material, k σ_hole / n_hole. */
  function TauAllow(kShear: real, sigmaHole: real, nHole: real): (tau: real)
    requires nHole != 0.0
    ensures tau * nHole == kShear * sigmaHole
  {
    kShear * sigmaHole / nHole
  }

  /** bolt_tensile_capacity: At σ_bolt / n_bolt. */
  function BoltTensileCapacity(t: MetricThread, sigmaBolt: real, nBolt: real): (F: real)
    requires nBolt != 0.0
    ensures F == t.At * (sigmaBolt / nBolt)
    ensures F * nBolt == t.At * sigmaBolt
  {
    var allow := sigmaBolt / nBolt;
    assert allow * nBolt == sigmaBolt;
    t.At * allow
  }

  /** The solvers' common validity test, As_factor > 0 and tau_allow > 0. */
  predicate Solvable(t: MetricThread, sigmaHole: real, nHole: real, kShear: real)
    requires nHole != 0.0
  {
    AsFactor(t) > 0.0 && TauAllow(kShear, sigmaHole, nHole) > 0.0
  }

  /** required_engagement_for_design_load: the length L_e whose shear area
      at the allowable stress carries exactly the design load. */
  function RequiredEngagementForDesignLoad(t: MetricThread, F: real, sigmaHole: real, nHole: real, kShear: real)
    : (r: Result<real, EngineError>)
    requires nHole != 0.0
    ensures r.Failure? <==> AsFactor(t) <= 0.0 || TauAllow(kShear, sigmaHole, nHole) <= 0.0
    ensures r.Failure? ==> r.error == InvalidGeometryOrMaterial
    ensures r.Success? ==> r.value * (AsFactor(t) * TauAllow(kShear, sigmaHole, nHole)) == F
    ensures r.Success? ==> (r.value > 0.0 <==> F > 0.0)
  {
    var tau := TauAllow(kShear, sigmaHole, nHole);
    var a := AsFactor(t);
    if a <= 0.0 || tau <= 0.0 then Failure(InvalidGeometryOrMaterial)
    else
      RealArith.ProductPos(a, tau, a * tau);
      Success(F / (a * tau))
  }

  /** What required_engagement_for_equal_strength returns. */
  datatype EqualStrength = EqualStrength(engagement: real, boltCapacity: real)

  /** required_engagement_for_equal_strength: the bolt capacity is computed
      first (so n_bolt must be non-zero whatever else happens), then the
      same validity test as the design-load solver. */
  function RequiredEngagementForEqualStrength(t: MetricThread, sigmaBolt: real, sigmaHole: real,
                                              nBolt: real, nHole: real, kShear: real)
    : (r: Result<EqualStrength, EngineError>)
    requires nBolt != 0.0 && nHole != 0.0
    ensures r.Failure? <==> RequiredEngagementForDesignLoad(t, BoltTensileCapacity(t, sigmaBolt, nBolt), sigmaHole, nHole, kShear).Failure?
    ensures r.Failure? ==> r.error == InvalidGeometryOrMaterial
    ensures r.Success? ==> r.value.boltCapacity * nBolt == t.At * sigmaBolt
    ensures r.Success? ==>
      r.value.engagement * (AsFactor(t) * TauAllow(kShear, sigmaHole, nHole)) == r.value.boltCapacity
  {
    var F := BoltTensileCapacity(t, sigmaBolt, nBolt);
    var tau := TauAllow(kShear, sigmaHole, nHole);
    var a := AsFactor(t);
    if a <= 0.0 || tau <= 0.0 then Failure(InvalidGeometryOrMaterial)
    else
      RealArith.ProductPos(a, tau, a * tau);
      Success(EqualStrength(F / (a * tau), F))
  }

  /** The equal-strength length is the design-load length for a design
      load equal to the bolt's allowable capacity. */
  lemma EqualStrengthIsDesignLoadAtCapacity(t: MetricThread, sigmaBolt: real, sigmaHole: real,
                                            nBolt: real, nHole: real, kShear: real)
    requires nBolt != 0.0 && nHole != 0.0
    ensures var r := RequiredEngagementForEqualStrength(t, sigmaBolt, sigmaHole, nBolt, nHole, kShear);
      var F := BoltTensileCapacity(t, sigmaBolt, nBolt);
      var d := RequiredEngagementForDesignLoad(t, F, sigmaHole, nHole, kShear);
      (r.Failure? <==> d.Failure?) &&
      (r.Success? ==> r.value.boltCapacity == F && d == Success(r.value.engagement))
  {
  }

  // ---------------------------------------------------------------------
  // Properties of the solvers
  // ---------------------------------------------------------------------

  /** The design-load length is the unique L with L As_factor tau_allow = F. */
  lemma DesignLoadUnique(t: MetricThread, F: real, sigmaHole: real, nHole: real, kShear: real, L: real)
    requires nHole != 0.0 && Solvable(t, sigmaHole, nHole, kShear)
    requires L * (AsFactor(t) * TauAllow(kShear, sigmaHole, nHole)) == F
    ensures RequiredEngagementForDesignLoad(t, F, sigmaHole, nHole, kShear) == Success(L)
  {
    var c := AsFactor(t) * TauAllow(kShear, sigmaHole, nHole);
    RealArith.ProductPos(AsFactor(t), TauAllow(kShear, sigmaHole, nHole), c);
    RealArith.QuotientUnique(L, F, c);
    var r := RequiredEngagementForDesignLoad(t, F, sigmaHole, nHole, kShear);
    RealArith.QuotientUnique(r.value, F, c);
  }

  /** A larger design load needs strictly more engagement. */
  lemma DesignLoadIncreasingInLoad(t: MetricThread, F1: real, F2: real, sigmaHole: real, nHole: real, kShear: real)
    requires nHole != 0.0 && Solvable(t, sigmaHole, nHole, kShear) && F1 < F2
    ensures RequiredEngagementForDesignLoad(t, F1, sigmaHole, nHole, kShear).value
          < RequiredEngagementForDesignLoad(t, F2, sigmaHole, nHole, kShear).value
  {
  }

  /** A stronger tapped material needs strictly less engagement for a
      positive load (with positive shear factor and safety factor), and a
      material the solver accepts stays accepted when it gets stronger. */
  lemma DesignLoadDecreasingInHoleStrength(t: MetricThread, F: real, sigma1: real, sigma2: real, nHole: real, kShear: real)
    requires nHole > 0.0 && kShear > 0.0 && F > 0.0 && sigma1 < sigma2
    requires Solvable(t, sigma1, nHole, kShear)
    ensures Solvable(t, sigma2, nHole, kShear)
    ensures RequiredEngagementForDesignLoad(t, F, sigma2, nHole, kShear).value
          < RequiredEngagementForDesignLoad(t, F, sigma1, nHole, kShear).value
  {
    var a := AsFactor(t);
    var tau1, tau2 := TauAllow(kShear, sigma1, nHole), TauAllow(kShear, sigma2, nHole);
    TauIncreasing(kShear, sigma1, sigma2, nHole);
    var c1, c2 := a * tau1, a * tau2;
    RealArith.ProductPos(a, tau1, c1);
    RealArith.MulStrictMono(tau1, tau2, a);
    assert tau1 * a == c1 && tau2 * a == c2;
    var L1 := RequiredEngagementForDesignLoad(t, F, sigma1, nHole, kShear).value;
    var L2 := RequiredEngagementForDesignLoad(t, F, sigma2, nHole, kShear).value;
    QuotientDecreasing(F, c1, c2, L1, L2);
  }

  lemma TauIncreasing(k: real, s1: real, s2: real, n: real)
    requires n > 0.0 && k > 0.0 && s1 < s2
    ensures TauAllow(k, s1, n) < TauAllow(k, s2, n)
  {
  }

  lemma QuotientDecreasing(F: real, c1: real, c2: real, L1: real, L2: real)
    requires F > 0.0 && 0.0 < c1 < c2 && L1 * c1 == F && L2 * c2 == F
    ensures L2 < L1
  {
  }
}
