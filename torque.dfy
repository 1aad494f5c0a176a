/** calculate_assembly_torque: preload from the proof load and the
    installation torque band T = K D F_preload. */
module Torque {
  import opened Thread
  import RealArith

  const K_DRY: real := 0.20

  /** The torque record; torques are in N·m, forces in N. */
  datatype AssemblyTorque = AssemblyTorque(
    preload: real,
    proofLoad: real,
    torqueDry: real,
    torqueLubricated: real,
    torqueMin: real,
    torqueMax: real,
    torqueRecommended: real,
    frictionCoefficient: real)

  /** T = K D F / 1000, converting N·mm to N·m. */
  function TorqueFor(K: real, D: real, preload: real): real
  {
    K * D * preload / 1000.0
  }

  /** The proof strength is 90% of yield; the lubricated coefficient is the
      friction coefficient itself. nBolt is accepted and never used. */
  function CalculateAssemblyTorque(t: MetricThread, sigmaBolt: real, nBolt: real, friction: real, preloadFraction: real)
    : (r: AssemblyTorque)
    ensures r.proofLoad == t.At * (0.9 * sigmaBolt)
    ensures r.preload == preloadFraction * r.proofLoad
    ensures r.torqueDry == TorqueFor(K_DRY, t.D, r.preload)
    ensures r.torqueLubricated == TorqueFor(friction, t.D, r.preload)
    ensures r.torqueRecommended == r.torqueLubricated
    ensures r.torqueMin == 0.9 * r.torqueLubricated && r.torqueMax == 1.1 * r.torqueDry
    ensures r.frictionCoefficient == friction
  {
    var proof := t.At * (0.9 * sigmaBolt);
    var preload := preloadFraction * proof;
    var dry := TorqueFor(K_DRY, t.D, preload);
    var lubricated := TorqueFor(friction, t.D, preload);
    AssemblyTorque(preload, proof, dry, lubricated, lubricated * 0.9, dry * 1.1, lubricated, friction)
  }

  /** Torque is linear in the coefficient: T(K) = K X with X = D F / 1000. */
  lemma TorqueLinear(K: real, D: real, preload: real)
    ensures TorqueFor(K, D, preload) == K * (D * preload / 1000.0)
  {
  }

  /** With a positive diameter and preload, the recommended torque lies in
      the [min, max] band exactly when the friction coefficient is between
      0 and 0.22 (the dry coefficient with its 10% allowance); above 0.22
      the recommendation exceeds the reported maximum. */
  lemma RecommendedWithinBand(t: MetricThread, sigmaBolt: real, nBolt: real, friction: real, preloadFraction: real)
    requires t.D > 0.0
    requires CalculateAssemblyTorque(t, sigmaBolt, nBolt, friction, preloadFraction).preload > 0.0
    ensures var r := CalculateAssemblyTorque(t, sigmaBolt, nBolt, friction, preloadFraction);
      (r.torqueMin <= r.torqueRecommended <= r.torqueMax) <==> 0.0 <= friction <= 0.22
  {
    var r := CalculateAssemblyTorque(t, sigmaBolt, nBolt, friction, preloadFraction);
    var x := t.D * r.preload / 1000.0;
    RealArith.ProductPos(t.D, r.preload, t.D * r.preload);
    TorqueLinear(friction, t.D, r.preload);
    TorqueLinear(K_DRY, t.D, r.preload);
    assert r.torqueRecommended == friction * x;
    assert r.torqueMax == 0.22 * x;
    assert r.torqueMin == 0.9 * (friction * x);
    BandOrder(friction, x);
  }

  lemma BandOrder(f: real, x: real)
    requires x > 0.0
    ensures (0.9 * (f * x) <= f * x <= 0.22 * x) <==> 0.0 <= f <= 0.22
  {
  }

  /** The bolt safety factor plays no part in the torque. */
  lemma SafetyFactorUnused(t: MetricThread, sigmaBolt: real, n1: real, n2: real, friction: real, preloadFraction: real)
    ensures CalculateAssemblyTorque(t, sigmaBolt, n1, friction, preloadFraction)
         == CalculateAssemblyTorque(t, sigmaBolt, n2, friction, preloadFraction)
  {
  }
}
