/** analyze_load_cases: the engagement each load case needs, and the
    critical case, the one needing the longest engagement. */
module LoadCases {
  import opened Base
  import opened Thread
  import opened Engagement
  import RealArith

  /** A load case: axial and shear force in N, bending moment in N·mm. */
  datatype LoadCase = LoadCase(name: string, axial: real, shear: real, bending: real)

  /** One row of the analysis. */
  datatype CaseResult = CaseResult(
    loadCase: string,
    equivalentForce: real,
    axial: real,
    shear: real,
    bending: real,
    engagement: real,
    threadsEngaged: real,
    boltCapacity: real,
    margin: real)

  datatype LoadCaseAnalysis = LoadCaseAnalysis(
    allCases: seq<CaseResult>,
    criticalCase: CaseResult,
    designFor: string,
    designEngagement: real,
    numCasesAnalyzed: nat)

  /** The equivalent axial load: the axial force, plus 2M / spacing for a
      positive moment and spacing, plus 0.3 of a positive shear force. It
      is never below the axial force, and exceeds it exactly when one of
      those two contributions is present. */
  function EquivalentForce(c: LoadCase, spacing: real): (r: real)
    ensures r >= c.axial
    ensures r > c.axial <==> c.shear > 0.0 || (c.bending > 0.0 && spacing > 0.0)
  {
    var moment := if c.bending > 0.0 && spacing > 0.0 then 2.0 * c.bending / spacing else 0.0;
    var shear := if c.shear > 0.0 then 0.3 * c.shear else 0.0;
    c.axial + moment + shear
  }

  /** The row for one load case, once the solver is known to succeed. */
  function CaseResultFor(t: MetricThread, c: LoadCase, sigmaBolt: real, sigmaHole: real,
                         nBolt: real, nHole: real, spacing: real): (r: CaseResult)
    requires nHole != 0.0 && nBolt != 0.0 && Solvable(t, sigmaHole, nHole, DEFAULT_K_SHEAR)
    ensures r.loadCase == c.name && r.equivalentForce == EquivalentForce(c, spacing)
    ensures r.axial == c.axial && r.shear == c.shear && r.bending == c.bending
    ensures RequiredEngagementForDesignLoad(t, r.equivalentForce, sigmaHole, nHole, DEFAULT_K_SHEAR) == Success(r.engagement)
    ensures r.threadsEngaged * t.p == r.engagement
    ensures r.boltCapacity == BoltTensileCapacity(t, sigmaBolt, nBolt)
    ensures r.equivalentForce > 0.0 ==> r.margin * r.equivalentForce == r.boltCapacity
    ensures r.equivalentForce <= 0.0 ==> r.margin == 999.0
  {
    var F := EquivalentForce(c, spacing);
    var L := RequiredEngagementForDesignLoad(t, F, sigmaHole, nHole, DEFAULT_K_SHEAR).value;
    assert t.p != 0.0;
    var cap := BoltTensileCapacity(t, sigmaBolt, nBolt);
    CaseResult(c.name, F, c.axial, c.shear, c.bending, L, L / t.p, cap, if F > 0.0 then cap / F else 999.0)
  }

  /** k is the first index of a maximal engagement. */
  predicate IsFirstMax(rows: seq<CaseResult>, k: int)
  {
    0 <= k < |rows| &&
    (forall j :: 0 <= j < |rows| ==> rows[j].engagement <= rows[k].engagement) &&
    (forall j :: 0 <= j < k ==> rows[j].engagement < rows[k].engagement)
  }

  /** analyze_load_cases. The solver runs for the first case before
      anything else, so n_hole must be non-zero when there is a case, and
      n_bolt when the solver succeeds; an empty list is an error (the max
      of nothing). */
  method AnalyzeLoadCases(t: MetricThread, cases: seq<LoadCase>, sigmaBolt: real, sigmaHole: real,
                          nBolt: real, nHole: real, spacing: real)
    returns (r: Result<LoadCaseAnalysis, EngineError>)
    requires cases != [] ==> nHole != 0.0
    requires cases != [] && Solvable(t, sigmaHole, nHole, DEFAULT_K_SHEAR) ==> nBolt != 0.0
    ensures cases == [] ==> r == Failure(NoLoadCases)
    ensures cases != [] && !Solvable(t, sigmaHole, nHole, DEFAULT_K_SHEAR) ==> r == Failure(InvalidGeometryOrMaterial)
    ensures cases != [] && Solvable(t, sigmaHole, nHole, DEFAULT_K_SHEAR) ==> r.Success?
    ensures r.Success? ==>
      var a := r.value;
      a.numCasesAnalyzed == |cases| == |a.allCases| &&
      (forall i :: 0 <= i < |cases| ==>
        a.allCases[i] == CaseResultFor(t, cases[i], sigmaBolt, sigmaHole, nBolt, nHole, spacing)) &&
      (exists k :: IsFirstMax(a.allCases, k) && IsFirstMaxForce(a.allCases, k) && a.criticalCase == a.allCases[k]) &&
      a.designFor == a.criticalCase.loadCase && a.designEngagement == a.criticalCase.engagement
  {
    if cases == [] {
      return Failure(NoLoadCases);
    }
    var rows: seq<CaseResult> := [];
    for i := 0 to |cases|
      invariant i > 0 ==> Solvable(t, sigmaHole, nHole, DEFAULT_K_SHEAR) && nBolt != 0.0
      invariant |rows| == i
      invariant forall j :: 0 <= j < i ==> rows[j] == CaseResultFor(t, cases[j], sigmaBolt, sigmaHole, nBolt, nHole, spacing)
    {
      var c := cases[i];
      var F := c.axial;
      if c.bending > 0.0 && spacing > 0.0 {
        F := F + 2.0 * c.bending / spacing;
      }
      if c.shear > 0.0 {
        F := F + c.shear * 0.3;
      }
      var design := RequiredEngagementForDesignLoad(t, F, sigmaHole, nHole, DEFAULT_K_SHEAR);
      if design.Failure? {
        return Failure(design.error);
      }
      var L := design.value;
      var cap := BoltTensileCapacity(t, sigmaBolt, nBolt);
      var row := CaseResult(c.name, F, c.axial, c.shear, c.bending, L, L / t.p, cap,
                            if F > 0.0 then cap / F else 999.0);
      rows := rows + [row];
    }

    // max(results_list, key=L_e): the first row with the largest engagement
    var best := 0;
    for i := 1 to |rows|
      invariant 0 <= best < i
      invariant forall j :: 0 <= j < i ==> rows[j].engagement <= rows[best].engagement
      invariant forall j :: 0 <= j < best ==> rows[j].engagement < rows[best].engagement
    {
      if rows[i].engagement > rows[best].engagement {
        best := i;
      }
    }
    AnalysisRowsSameSetting(rows, t, cases, sigmaBolt, sigmaHole, nBolt, nHole, spacing);
    CriticalCaseIsLargestLoad(rows, t, sigmaBolt, sigmaHole, nBolt, nHole, best);
    var critical := rows[best];
    r := Success(LoadCaseAnalysis(rows, critical, critical.loadCase, critical.engagement, |cases|));
  }

  // ---------------------------------------------------------------------
  // The critical case
  // ---------------------------------------------------------------------

  /** k is the first index of a maximal equivalent force. */
  predicate IsFirstMaxForce(rows: seq<CaseResult>, k: int)
  {
    0 <= k < |rows| &&
    (forall j :: 0 <= j < |rows| ==> rows[j].equivalentForce <= rows[k].equivalentForce) &&
    (forall j :: 0 <= j < k ==> rows[j].equivalentForce < rows[k].equivalentForce)
  }

  /** Rows computed for the same thread, materials and safety factors. */
  predicate SameSetting(rows: seq<CaseResult>, t: MetricThread, sigmaBolt: real, sigmaHole: real, nBolt: real, nHole: real)
  {
    nHole != 0.0 && nBolt != 0.0 && Solvable(t, sigmaHole, nHole, DEFAULT_K_SHEAR) &&
    forall i :: 0 <= i < |rows| ==>
      RequiredEngagementForDesignLoad(t, rows[i].equivalentForce, sigmaHole, nHole, DEFAULT_K_SHEAR)
        == Success(rows[i].engagement) &&
      rows[i].boltCapacity == BoltTensileCapacity(t, sigmaBolt, nBolt)
  }

  /** Engagement orders the rows exactly as the equivalent force does. */
  lemma EngagementOrdersLikeForce(rows: seq<CaseResult>, t: MetricThread, sigmaBolt: real, sigmaHole: real,
                                  nBolt: real, nHole: real, i: int, j: int)
    requires SameSetting(rows, t, sigmaBolt, sigmaHole, nBolt, nHole)
    requires 0 <= i < |rows| && 0 <= j < |rows|
    ensures rows[i].engagement < rows[j].engagement <==> rows[i].equivalentForce < rows[j].equivalentForce
    ensures rows[i].engagement <= rows[j].engagement <==> rows[i].equivalentForce <= rows[j].equivalentForce
  {
    var Fi, Fj := rows[i].equivalentForce, rows[j].equivalentForce;
    if Fi < Fj {
      DesignLoadIncreasingInLoad(t, Fi, Fj, sigmaHole, nHole, DEFAULT_K_SHEAR);
    } else if Fj < Fi {
      DesignLoadIncreasingInLoad(t, Fj, Fi, sigmaHole, nHole, DEFAULT_K_SHEAR);
    }
  }

  /** The critical case (first row of largest engagement) is the first row
      of largest equivalent force, and every row reports the same bolt
      capacity. */
  lemma CriticalCaseIsLargestLoad(rows: seq<CaseResult>, t: MetricThread, sigmaBolt: real, sigmaHole: real,
                                  nBolt: real, nHole: real, k: int)
    requires SameSetting(rows, t, sigmaBolt, sigmaHole, nBolt, nHole)
    ensures IsFirstMax(rows, k) <==> IsFirstMaxForce(rows, k)
    ensures forall i, j :: 0 <= i < |rows| && 0 <= j < |rows| ==> rows[i].boltCapacity == rows[j].boltCapacity
  {
    if 0 <= k < |rows| {
      forall j | 0 <= j < |rows|
        ensures rows[j].engagement <= rows[k].engagement <==> rows[j].equivalentForce <= rows[k].equivalentForce
        ensures rows[j].engagement < rows[k].engagement <==> rows[j].equivalentForce < rows[k].equivalentForce
      {
        EngagementOrdersLikeForce(rows, t, sigmaBolt, sigmaHole, nBolt, nHole, j, k);
      }
    }
  }

  /** The rows the analysis returns are computed in the same setting. */
  lemma AnalysisRowsSameSetting(rows: seq<CaseResult>, t: MetricThread, cases: seq<LoadCase>, sigmaBolt: real,
                                sigmaHole: real, nBolt: real, nHole: real, spacing: real)
    requires nHole != 0.0 && nBolt != 0.0 && Solvable(t, sigmaHole, nHole, DEFAULT_K_SHEAR)
    requires |rows| == |cases|
    requires forall i :: 0 <= i < |cases| ==> rows[i] == CaseResultFor(t, cases[i], sigmaBolt, sigmaHole, nBolt, nHole, spacing)
    ensures SameSetting(rows, t, sigmaBolt, sigmaHole, nBolt, nHole)
  {
  }
}
