/** check_standards_compliance: a safety-factor check, a thread-count
    check and, for VDI 2230 only, an engagement-ratio check, each against
    the thresholds of the chosen standard. */
module Standards {
  import opened Base
  import opened Thread
  import opened Results

  datatype StandardSpec = StandardSpec(
    name: string,
    minSafetyFactor: real,
    minThreadsEngaged: real,
    maxEngagementRatio: Option<real>)

  const VDI2230: StandardSpec :=
    StandardSpec("VDI 2230 (Systematic calculation of bolted joints)", 1.5, 6.0, Some(2.5))

  const STANDARDS: map<string, StandardSpec> := map[
    "VDI2230" := VDI2230,
    "ISO898" := StandardSpec("ISO 898-1 (Mechanical properties of fasteners)", 1.5, 5.0, None),
    "ASME_BPVC" := StandardSpec("ASME Boiler & Pressure Vessel Code", 2.0, 8.0, None),
    "DIN" := StandardSpec("DIN 13 (ISO metric screw threads)", 1.5, 5.0, None)
  ]

  /** The thresholds of a standard; an unknown name gets VDI 2230's. */
  function LookupStandard(standard: string): (s: StandardSpec)
    ensures standard in STANDARDS ==> s == STANDARDS[standard]
    ensures standard !in STANDARDS ==> s == STANDARDS["VDI2230"]
    ensures s.maxEngagementRatio.Some? <==> s == VDI2230
  {
    if standard in STANDARDS then STANDARDS[standard] else VDI2230
  }

  /** 1/x for a positive utilization, 999 otherwise (1/inf is 0). */
  function InverseOr999(x: Ext): (y: real)
    ensures x.Finite? && x.r > 0.0 ==> y * x.r == 1.0
    ensures x == PosInf ==> y == 0.0
    ensures !Above(x, 0.0) ==> y == 999.0
  {
    match x
    case Finite(v) => if v > 0.0 then 1.0 / v else 999.0
    case PosInf => 0.0
    case NegInf => 999.0
  }

  /** The effective safety factor: the smaller inverse utilization when a
      stress analysis is present, else the margin, else 2.0. */
  function EffectiveSafetyFactor(results: EngagementResults): (n: real)
    ensures results.stress.Some? ==>
      n == Min(InverseOr999(Finite(results.stress.value.boltUtilization)),
               InverseOr999(results.stress.value.threadUtilization))
    ensures results.stress.None? && results.margin.Some? ==> n == results.margin.value
    ensures results.stress.None? && results.margin.None? ==> n == 2.0
  {
    match results.stress
    case Some(s) => Min(InverseOr999(Finite(s.boltUtilization)), InverseOr999(s.threadUtilization))
    case None => if results.margin.Some? then results.margin.value else 2.0
  }

  datatype CheckKind = SafetyFactorCheck(value: real) | ThreadsEngagedCheck(count: real) | EngagementRatioCheck(ratio: real)

  /** A failed ratio check is only advisory: it counts as neither. */
  datatype Outcome = Pass | Fail | Advisory

  datatype Check = Check(kind: CheckKind, outcome: Outcome)

  datatype ComplianceReport = ComplianceReport(
    standardName: string,
    checks: seq<Check>,
    passes: nat,
    fails: nat,
    compliant: bool)

  /** How many checks have the given outcome. */
  function Count(checks: seq<Check>, o: Outcome): (c: nat)
    ensures c <= |checks|
  {
    if checks == [] then 0
    else Count(checks[..|checks| - 1], o) + (if checks[|checks| - 1].outcome == o then 1 else 0)
  }

  lemma CountAppend(checks: seq<Check>, c: Check, o: Outcome)
    ensures Count(checks + [c], o) == Count(checks, o) + (if c.outcome == o then 1 else 0)
  {
  }

  /** check_standards_compliance, appending check records and counting
      passes and fails as it goes. The ratio divides by the diameter, which
      must be non-zero for VDI 2230 (and only then). */
  method CheckStandardsCompliance(results: EngagementResults, t: MetricThread, standard: string)
    returns (r: ComplianceReport)
    requires LookupStandard(standard).maxEngagementRatio.Some? ==> t.D != 0.0
    ensures var std := LookupStandard(standard);
      r.standardName == std.name &&
      |r.checks| == (if std.maxEngagementRatio.Some? then 3 else 2)
    ensures var std := LookupStandard(standard); var n := EffectiveSafetyFactor(results);
      r.checks[0] == Check(SafetyFactorCheck(n), if n >= std.minSafetyFactor then Pass else Fail)
    ensures var std := LookupStandard(standard);
      r.checks[1] == Check(ThreadsEngagedCheck(results.nThreads),
                           if results.nThreads >= std.minThreadsEngaged then Pass else Fail)
    ensures var std := LookupStandard(standard);
      std.maxEngagementRatio.Some? ==>
        var ratio := results.engagementLength / t.D;
        r.checks[2] == Check(EngagementRatioCheck(ratio),
                             if ratio <= std.maxEngagementRatio.value then Pass else Advisory)
    ensures r.passes == Count(r.checks, Pass) && r.fails == Count(r.checks, Fail)
    ensures r.compliant <==> r.fails == 0
    ensures var std := LookupStandard(standard);
      r.compliant <==>
        EffectiveSafetyFactor(results) >= std.minSafetyFactor && results.nThreads >= std.minThreadsEngaged
    ensures r.fails <= 2 && r.passes + r.fails <= |r.checks|
  {
    var std := LookupStandard(standard);
    var checks: seq<Check> := [];
    var passes: nat := 0;
    var fails: nat := 0;

    var nEffective := EffectiveSafetyFactor(results);
    var c := if nEffective >= std.minSafetyFactor then Check(SafetyFactorCheck(nEffective), Pass)
             else Check(SafetyFactorCheck(nEffective), Fail);
    CountAppend(checks, c, Pass);
    CountAppend(checks, c, Fail);
    checks := checks + [c];
    if c.outcome == Pass { passes := passes + 1; } else { fails := fails + 1; }

    c := if results.nThreads >= std.minThreadsEngaged then Check(ThreadsEngagedCheck(results.nThreads), Pass)
         else Check(ThreadsEngagedCheck(results.nThreads), Fail);
    CountAppend(checks, c, Pass);
    CountAppend(checks, c, Fail);
    checks := checks + [c];
    if c.outcome == Pass { passes := passes + 1; } else { fails := fails + 1; }

    if std.maxEngagementRatio.Some? {
      var ratio := results.engagementLength / t.D;
      c := if ratio <= std.maxEngagementRatio.value then Check(EngagementRatioCheck(ratio), Pass)
           else Check(EngagementRatioCheck(ratio), Advisory);
      CountAppend(checks, c, Pass);
      CountAppend(checks, c, Fail);
      checks := checks + [c];
      if c.outcome == Pass { passes := passes + 1; }
    }

    r := ComplianceReport(std.name, checks, passes, fails, fails == 0);
  }
}
