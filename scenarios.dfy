/** Worked examples on an M10 coarse thread and on a degenerate thread. */
module Scenarios {
  import opened Base
  import opened Thread
  import opened Engagement
  import opened Fatigue
  import opened LoadCases

  /** M10 (D = 10, p = 1.5, as parsed from "M10") in 276 MPa material
      under 15 kN with n_hole = 2: the formula gives L_e ≈ 22.61 mm. */
  lemma M10DesignLoadEngagement()
    ensures var r := RequiredEngagementForDesignLoad(MakeThread(10.0, 1.5), 15000.0, 276.0, 2.0, DEFAULT_K_SHEAR);
      r.Success? && 22.6 < r.value < 22.7
  {
  }

  /** M10 grade-900 bolt under 15 kN mean and 5 kN amplitude, machined:
      σ_mean ≈ 258.7 MPa, σ_alt ≈ 86.2 MPa, S_e ≈ 241.7 MPa, and the
      Goodman factor is about 1.552, so the bolt has infinite life. */
  lemma M10Fatigue()
    ensures var r := FatigueAnalysis(MakeThread(10.0, 1.5), 15000.0, 5000.0, 900.0, 10000000.0, "machined");
      r.status == InfiniteLife && 1.55 < r.safetyFactor < 1.56 &&
      r.estimatedCycles == PosInf && r.safeForCycles
  {
  }

  /** The thread parsed from "M0.9382x1" (D = 0.9382, p = 1) has a zero
      stress area; the design-load solver still accepts it, and the
      equal-strength solver reports a zero bolt capacity and a zero
      engagement. */
  lemma DegenerateThreadAccepted()
    ensures var t := MakeThread(0.9382, 1.0);
      t.At == 0.0 &&
      RequiredEngagementForDesignLoad(t, 1000.0, 276.0, 2.0, DEFAULT_K_SHEAR).Success? &&
      RequiredEngagementForEqualStrength(t, 900.0, 276.0, 2.0, 2.0, DEFAULT_K_SHEAR) == Success(EqualStrength(0.0, 0.0))
  {
  }

  /** A case built with 0.5 in the shear position adds 0.3 · 0.5 N. */
  lemma AssemblyCaseEquivalentForce()
    ensures EquivalentForce(LoadCase("Assembly", 5000.0, 0.5, 0.0), 100.0) == 5000.15
  {
  }
}
