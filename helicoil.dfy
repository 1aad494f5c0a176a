/** helicoil_design: the engagement a thread insert needs, compared with
    the bare tapped hole. */
module Helicoil {
  import opened Base
  import opened Thread
  import opened Engagement
  import RealArith

  const INSERT_YIELDS: map<string, real> := map[
    "stainless" := 520.0, "phosphor_bronze" := 380.0, "inconel" := 1000.0
  ]

  /** Insert yield strength in MPa; an unknown insert material is taken as
      stainless (520 MPa). */
  function InsertYield(material: string): (sigma: real)
    ensures material in INSERT_YIELDS ==> sigma == INSERT_YIELDS[material]
    ensures material !in INSERT_YIELDS ==> sigma == INSERT_YIELDS["stainless"]
    ensures 380.0 <= sigma <= 1000.0
  {
    if material in INSERT_YIELDS then INSERT_YIELDS[material] else 520.0
  }

  /** Both solves use the solvers' default shear factor. */
  const K_SHEAR: real := DEFAULT_K_SHEAR

  /** Below 300 MPa the hole material is soft enough to call for an insert. */
  const SOFT_HOLE_YIELD: real := 300.0

  datatype InsertRecommendation = HighlyRecommended | Optional

  datatype HelicoilDesign = HelicoilDesign(
    insertMaterial: string,
    insertYield: real,
    engagementWithInsert: real,
    engagementWithoutInsert: real,
    reductionPercent: real,
    drillSize: real,
    threadsEngaged: real,
    recommendation: InsertRecommendation)

  /** Whether both solves succeed (the insert solve runs first). */
  predicate BothSolvable(t: MetricThread, sigmaHole: real, nHole: real, material: string)
    requires nHole != 0.0
  {
    Solvable(t, InsertYield(material), nHole, K_SHEAR) && Solvable(t, sigmaHole, nHole, K_SHEAR)
  }

  /** helicoil_design. The reduction divides by the bare-hole length, so a
      zero design load (which makes that length zero) is excluded. */
  function HelicoilDesignFor(t: MetricThread, sigmaHole: real, F: real, nHole: real, material: string)
    : (r: Result<HelicoilDesign, EngineError>)
    requires nHole != 0.0
    requires BothSolvable(t, sigmaHole, nHole, material) ==> F != 0.0
    ensures r.Failure? <==> !BothSolvable(t, sigmaHole, nHole, material)
    ensures r.Failure? ==> r.error == InvalidGeometryOrMaterial
    ensures r.Success? ==>
      var d := r.value;
      d.insertMaterial == material && d.insertYield == InsertYield(material) &&
      RequiredEngagementForDesignLoad(t, F, d.insertYield, nHole, K_SHEAR) == Success(d.engagementWithInsert) &&
      RequiredEngagementForDesignLoad(t, F, sigmaHole, nHole, K_SHEAR) == Success(d.engagementWithoutInsert) &&
      d.engagementWithoutInsert != 0.0 &&
      d.reductionPercent * d.engagementWithoutInsert == (d.engagementWithoutInsert - d.engagementWithInsert) * 100.0 &&
      d.drillSize == 1.085 * t.D &&
      d.threadsEngaged * t.p == d.engagementWithInsert &&
      (d.recommendation == HighlyRecommended <==> sigmaHole < SOFT_HOLE_YIELD)
  {
    var sigmaInsert := InsertYield(material);
    match RequiredEngagementForDesignLoad(t, F, sigmaInsert, nHole, K_SHEAR)
    case Failure(e) => Failure(e)
    case Success(withInsert) =>
      match RequiredEngagementForDesignLoad(t, F, sigmaHole, nHole, K_SHEAR)
      case Failure(e) => Failure(e)
      case Success(withoutInsert) =>
        assert t.p != 0.0;
        assert withoutInsert != 0.0;
        var reduction := ((withoutInsert - withInsert) / withoutInsert) * 100.0;
        assert reduction * withoutInsert == (withoutInsert - withInsert) * 100.0 by {
          RealArith.Swap((withoutInsert - withInsert) / withoutInsert, 100.0, withoutInsert);
        }
        Success(HelicoilDesign(
          material, sigmaInsert, withInsert, withoutInsert, reduction,
          t.D * 1.085, withInsert / t.p,
          if sigmaHole < SOFT_HOLE_YIELD then HighlyRecommended else Optional))
  }

  /** Both lengths come from the same linear solver, so the reduction is
      (1 - σ_hole / σ_insert) · 100 whatever the load, thread and safety
      factor. */
  lemma ReductionIsYieldRatio(t: MetricThread, sigmaHole: real, F: real, nHole: real, material: string)
    requires nHole != 0.0 && BothSolvable(t, sigmaHole, nHole, material) && F != 0.0
    ensures var d := HelicoilDesignFor(t, sigmaHole, F, nHole, material).value;
      d.reductionPercent == (1.0 - sigmaHole / InsertYield(material)) * 100.0
  {
    var d := HelicoilDesignFor(t, sigmaHole, F, nHole, material).value;
    var sw := InsertYield(material);
    var lw, lo := d.engagementWithInsert, d.engagementWithoutInsert;
    LengthsTimesYield(lw, lo, AsFactor(t), TauAllow(K_SHEAR, sw, nHole), TauAllow(K_SHEAR, sigmaHole, nHole),
                      sw, sigmaHole, nHole, F);
    RatioEqual(lw, lo, sw, sigmaHole);
    ReductionFromRatio(d.reductionPercent, lw, lo, lw / lo);
  }

  lemma ReductionFromRatio(reduction: real, lw: real, lo: real, q: real)
    requires lo != 0.0 && reduction * lo == (lo - lw) * 100.0 && q * lo == lw
    ensures reduction == (1.0 - q) * 100.0
  {
    assert (1.0 - q) * lo == lo - lw;
    RealArith.Swap(1.0 - q, 100.0, lo);
    assert ((1.0 - q) * 100.0) * lo == (lo - lw) * 100.0;
    RealArith.SameFactor(reduction, (1.0 - q) * 100.0, lo);
  }

  /** Equal loads at two allowable stresses: L_w σ_w = L_o σ_o. */
  lemma LengthsTimesYield(lw: real, lo: real, a: real, tw: real, to: real, sw: real, so: real, n: real, F: real)
    requires a > 0.0 && n != 0.0
    requires lw * (a * tw) == F && lo * (a * to) == F
    requires tw * n == K_SHEAR * sw && to * n == K_SHEAR * so
    ensures lw * sw == lo * so
  {
  }

  lemma RatioEqual(lw: real, lo: real, sw: real, so: real)
    requires lo != 0.0 && sw != 0.0 && lw * sw == lo * so
    ensures lw / lo == so / sw
  {
  }

  /** The insert shortens the engagement exactly when it is stronger than
      the hole material. */
  lemma ReductionPositiveIffStrongerInsert(t: MetricThread, sigmaHole: real, F: real, nHole: real, material: string)
    requires nHole != 0.0 && BothSolvable(t, sigmaHole, nHole, material) && F != 0.0
    ensures HelicoilDesignFor(t, sigmaHole, F, nHole, material).value.reductionPercent > 0.0
        <==> InsertYield(material) > sigmaHole
  {
    ReductionIsYieldRatio(t, sigmaHole, F, nHole, material);
    var sw := InsertYield(material);
    var q := sigmaHole / sw;
    assert q * sw == sigmaHole;
    if sigmaHole < sw {
      assert q * sw < 1.0 * sw;
      RealArith.FactorOrder(q, 1.0, sw);
    } else {
      assert 1.0 * sw <= q * sw;
      RealArith.FactorOrderWeak(1.0, q, sw);
    }
  }
}
