/** generate_design_recommendations: threshold rules that sort messages
    into critical issues, warnings and suggestions, and the overall status
    they imply. */
module Recommendations {
  import opened Base
  import opened Thread
  import opened Results

  /** One constructor per message the rules can emit (the text is left out). */
  datatype Message =
    | BoltCritical          // bolt utilization > 0.90
    | BoltHigh              // bolt utilization in (0.80, 0.90]
    | BoltModerate          // bolt utilization in (0.60, 0.80]
    | BoltLow               // bolt utilization < 0.30
    | ThreadCritical        // thread utilization > 0.90
    | ThreadHigh            // thread utilization in (0.80, 0.90]
    | ThreadLow             // thread utilization < 0.30
    | ShortEngagement       // L_e < 1 D
    | LongEngagement        // L_e > 3 D
    | FewThreads            // fewer than 5 threads
    | TooFewThreads         // fewer than 3 threads (never emitted)
    | StrengthMismatch      // σ_bolt / σ_hole > 3
    | MarginFails           // margin < 1.0
    | MarginLow             // margin in [1.0, 1.2)
    | MarginMarginal        // margin in [1.2, 1.5)
    | SoftHoleInsert        // σ_hole < 300
    | SoftHoleSafetyFactor  // σ_hole < 300
    | HighLoadLocking       // design load > 5000 N

  datatype OverallStatus = Good | Warning | Fail

  datatype DesignRecommendations = DesignRecommendations(
    critical: seq<Message>,
    warnings: seq<Message>,
    recommendations: seq<Message>,
    overallStatus: OverallStatus)

  /** [m] when the rule fires, nothing otherwise. */
  function Emit(fires: bool, m: Message): seq<Message>
  {
    if fires then [m] else []
  }

  /** The bolt utilization, when a stress analysis is present, lies in (lo, hi]. */
  predicate BoltIn(results: EngagementResults, lo: real, hi: real)
  {
    results.stress.Some? && lo < results.stress.value.boltUtilization <= hi
  }

  predicate BoltAbove(results: EngagementResults, c: real)
  {
    results.stress.Some? && results.stress.value.boltUtilization > c
  }

  predicate BoltBelow(results: EngagementResults, c: real)
  {
    results.stress.Some? && results.stress.value.boltUtilization < c
  }

  predicate ThreadAbove(results: EngagementResults, c: real)
  {
    results.stress.Some? && Above(results.stress.value.threadUtilization, c)
  }

  predicate ThreadBelow(results: EngagementResults, c: real)
  {
    results.stress.Some? && Below(results.stress.value.threadUtilization, c)
  }

  predicate MarginIn(results: EngagementResults, lo: real, hi: real)
  {
    results.margin.Some? && lo <= results.margin.value < hi
  }

  /** The critical issues the rules raise, in rule order. */
  function CriticalMessages(results: EngagementResults): (r: seq<Message>)
    ensures |r| <= 3
    ensures forall i :: 0 <= i < |r| ==> r[i] in {BoltCritical, ThreadCritical, MarginFails}
    ensures r == [] <==>
      !BoltAbove(results, 0.90) && !ThreadAbove(results, 0.90) && !(results.margin.Some? && results.margin.value < 1.0)
  {
    Emit(BoltAbove(results, 0.90), BoltCritical)
    + Emit(ThreadAbove(results, 0.90), ThreadCritical)
    + Emit(results.margin.Some? && results.margin.value < 1.0, MarginFails)
  }

  /** The warnings the rules raise, in rule order. */
  function WarningMessages(results: EngagementResults, t: MetricThread): (r: seq<Message>)
    ensures |r| <= 5
    ensures forall i :: 0 <= i < |r| ==>
      r[i] in {BoltHigh, ThreadHigh, ShortEngagement, FewThreads, MarginLow, MarginMarginal}
    ensures r == [] <==>
      !BoltIn(results, 0.80, 0.90) && !(ThreadAbove(results, 0.80) && !ThreadAbove(results, 0.90))
      && results.engagementLength >= t.D && results.nThreads >= 5.0
      && !MarginIn(results, 1.0, 1.2) && !MarginIn(results, 1.2, 1.5)
  {
    Emit(BoltIn(results, 0.80, 0.90), BoltHigh)
    + Emit(ThreadAbove(results, 0.80) && !ThreadAbove(results, 0.90), ThreadHigh)
    + Emit(results.engagementLength < t.D * 1.0, ShortEngagement)
    + Emit(results.nThreads < 5.0, FewThreads)
    + Emit(MarginIn(results, 1.0, 1.2), MarginLow)
    + Emit(MarginIn(results, 1.2, 1.5), MarginMarginal)
  }

  /** The suggestions of the utilization rules. */
  function UtilizationSuggestions(results: EngagementResults): (r: seq<Message>)
    ensures |r| <= 2
    ensures forall i :: 0 <= i < |r| ==> r[i] in {BoltModerate, BoltLow, ThreadLow}
  {
    Emit(BoltIn(results, 0.60, 0.80), BoltModerate)
    + Emit(BoltBelow(results, 0.30), BoltLow)
    + Emit(ThreadBelow(results, 0.30) && !ThreadAbove(results, 0.80), ThreadLow)
  }

  /** The suggestions the rules make, in rule order. */
  function SuggestionMessages(results: EngagementResults, t: MetricThread, sigmaBolt: real, sigmaHole: real)
    : (r: seq<Message>)
    requires sigmaHole != 0.0
    ensures |r| <= 7
    ensures sigmaHole < 300.0 ==> SoftHoleInsert in r && SoftHoleSafetyFactor in r
  {
    UtilizationSuggestions(results)
    + Emit(results.engagementLength > t.D * 3.0, LongEngagement)
    + Emit(sigmaBolt / sigmaHole > 3.0, StrengthMismatch)
    + Emit(sigmaHole < 300.0, SoftHoleInsert)
    + Emit(sigmaHole < 300.0, SoftHoleSafetyFactor)
    + Emit(results.designLoad.Some? && results.designLoad.value > 5000.0, HighLoadLocking)
  }

  function StatusOf(critical: seq<Message>, warnings: seq<Message>): (s: OverallStatus)
    ensures s == Fail <==> critical != []
    ensures s == Warning <==> critical == [] && warnings != []
    ensures s == Good <==> critical == [] && warnings == []
  {
    if critical != [] then Fail else if warnings != [] then Warning else Good
  }

  /** generate_design_recommendations. The mismatch rule divides by the
      hole yield, which must be non-zero. */
  method GenerateDesignRecommendations(results: EngagementResults, t: MetricThread, sigmaBolt: real, sigmaHole: real)
    returns (r: DesignRecommendations)
    requires sigmaHole != 0.0
    ensures r.critical == CriticalMessages(results)
    ensures r.warnings == WarningMessages(results, t)
    ensures r.recommendations == SuggestionMessages(results, t, sigmaBolt, sigmaHole)
    ensures r.overallStatus == StatusOf(r.critical, r.warnings)
  {
    var critical, warnings, recommendations := UtilizationRules(results);
    warnings, recommendations := EngagementRules(results, t, warnings, recommendations);
    critical, warnings := ThreadCountRules(results, critical, warnings);
    recommendations := MismatchRule(sigmaBolt, sigmaHole, recommendations);
    critical, warnings := MarginRules(results, critical, warnings);
    recommendations := SoftMaterialAndLoadRules(results, sigmaHole, recommendations);

    var status := if critical != [] then Fail else if warnings != [] then Warning else Good;
    r := DesignRecommendations(critical, warnings, recommendations, status);
  }

  /** The bolt- and thread-utilization chains, when a stress analysis is present. */
  method UtilizationRules(results: EngagementResults)
    returns (critical: seq<Message>, warnings: seq<Message>, recommendations: seq<Message>)
    ensures critical == Emit(BoltAbove(results, 0.90), BoltCritical) + Emit(ThreadAbove(results, 0.90), ThreadCritical)
    ensures warnings == Emit(BoltIn(results, 0.80, 0.90), BoltHigh)
      + Emit(ThreadAbove(results, 0.80) && !ThreadAbove(results, 0.90), ThreadHigh)
    ensures recommendations == UtilizationSuggestions(results)
  {
    critical, warnings, recommendations := [], [], [];
    if results.stress.Some? {
      var boltUtil := results.stress.value.boltUtilization;
      var threadUtil := results.stress.value.threadUtilization;

      if boltUtil > 0.90 {
        critical := critical + [BoltCritical];
      } else if boltUtil > 0.80 {
        warnings := warnings + [BoltHigh];
      } else if boltUtil > 0.60 {
        recommendations := recommendations + [BoltModerate];
      } else if boltUtil < 0.30 {
        recommendations := recommendations + [BoltLow];
      }

      if Above(threadUtil, 0.90) {
        critical := critical + [ThreadCritical];
      } else if Above(threadUtil, 0.80) {
        warnings := warnings + [ThreadHigh];
      } else if Below(threadUtil, 0.30) {
        recommendations := recommendations + [ThreadLow];
      }
    }
  }

  /** Engagement shorter than one diameter or longer than three. */
  method EngagementRules(results: EngagementResults, t: MetricThread, warnings: seq<Message>, recommendations: seq<Message>)
    returns (warnings': seq<Message>, recommendations': seq<Message>)
    ensures warnings' == warnings + Emit(results.engagementLength < t.D * 1.0, ShortEngagement)
    ensures recommendations' == recommendations + Emit(results.engagementLength > t.D * 3.0, LongEngagement)
  {
    warnings', recommendations' := warnings, recommendations;
    var L := results.engagementLength;
    var D := t.D;
    if L < D * 1.0 {
      warnings' := warnings' + [ShortEngagement];
    }
    if L > D * 3.0 {
      recommendations' := recommendations' + [LongEngagement];
    }
  }

  /** Fewer than five threads warns; the fewer-than-three branch sits behind
      it and is never taken. */
  method ThreadCountRules(results: EngagementResults, critical: seq<Message>, warnings: seq<Message>)
    returns (critical': seq<Message>, warnings': seq<Message>)
    ensures critical' == critical
    ensures warnings' == warnings + Emit(results.nThreads < 5.0, FewThreads)
  {
    critical', warnings' := critical, warnings;
    if results.nThreads < 5.0 {
      warnings' := warnings' + [FewThreads];
    } else if results.nThreads < 3.0 {
      critical' := critical' + [TooFewThreads];
    }
  }

  method MismatchRule(sigmaBolt: real, sigmaHole: real, recommendations: seq<Message>)
    returns (recommendations': seq<Message>)
    requires sigmaHole != 0.0
    ensures recommendations' == recommendations + Emit(sigmaBolt / sigmaHole > 3.0, StrengthMismatch)
  {
    recommendations' := recommendations;
    if sigmaBolt / sigmaHole > 3.0 {
      recommendations' := recommendations' + [StrengthMismatch];
    }
  }

  /** Only a margin below 1.0 is critical; [1.0, 1.2) and [1.2, 1.5) warn. */
  method MarginRules(results: EngagementResults, critical: seq<Message>, warnings: seq<Message>)
    returns (critical': seq<Message>, warnings': seq<Message>)
    ensures critical' == critical + Emit(results.margin.Some? && results.margin.value < 1.0, MarginFails)
    ensures warnings' == warnings + Emit(MarginIn(results, 1.0, 1.2), MarginLow) + Emit(MarginIn(results, 1.2, 1.5), MarginMarginal)
  {
    critical', warnings' := critical, warnings;
    if results.margin.Some? {
      var margin := results.margin.value;
      if margin < 1.0 {
        critical' := critical' + [MarginFails];
      } else if margin < 1.2 {
        warnings' := warnings' + [MarginLow];
      } else if margin < 1.5 {
        warnings' := warnings' + [MarginMarginal];
      }
    }
  }

  /** Two suggestions for a soft hole material, one for a load over 5000 N. */
  method SoftMaterialAndLoadRules(results: EngagementResults, sigmaHole: real, recommendations: seq<Message>)
    returns (recommendations': seq<Message>)
    ensures recommendations' == recommendations
      + Emit(sigmaHole < 300.0, SoftHoleInsert)
      + Emit(sigmaHole < 300.0, SoftHoleSafetyFactor)
      + Emit(results.designLoad.Some? && results.designLoad.value > 5000.0, HighLoadLocking)
  {
    recommendations' := recommendations;
    if sigmaHole < 300.0 {
      recommendations' := recommendations' + [SoftHoleInsert];
      recommendations' := recommendations' + [SoftHoleSafetyFactor];
    }
    if results.designLoad.Some? && results.designLoad.value > 5000.0 {
      recommendations' := recommendations' + [HighLoadLocking];
    }
  }

  // ---------------------------------------------------------------------
  // Properties of the rules
  // ---------------------------------------------------------------------

  /** Exactly three rules can raise a critical issue; the fewer-than-three
      threads rule never does. */
  lemma CriticalMembers(results: EngagementResults, m: Message)
    ensures m in CriticalMessages(results) <==>
      (m == BoltCritical && BoltAbove(results, 0.90)) ||
      (m == ThreadCritical && ThreadAbove(results, 0.90)) ||
      (m == MarginFails && results.margin.Some? && results.margin.value < 1.0)
    ensures TooFewThreads !in CriticalMessages(results)
  {
  }

  /** Which warnings are raised, and when. */
  lemma WarningMembers(results: EngagementResults, t: MetricThread, m: Message)
    ensures m in WarningMessages(results, t) <==>
      (m == BoltHigh && BoltIn(results, 0.80, 0.90)) ||
      (m == ThreadHigh && ThreadAbove(results, 0.80) && !ThreadAbove(results, 0.90)) ||
      (m == ShortEngagement && results.engagementLength < t.D) ||
      (m == FewThreads && results.nThreads < 5.0) ||
      (m == MarginLow && MarginIn(results, 1.0, 1.2)) ||
      (m == MarginMarginal && MarginIn(results, 1.2, 1.5))
  {
  }

  /** Which utilization suggestions are made, and when. */
  lemma UtilizationMembers(results: EngagementResults, m: Message)
    ensures m in UtilizationSuggestions(results) <==>
      (m == BoltModerate && BoltIn(results, 0.60, 0.80)) ||
      (m == BoltLow && BoltBelow(results, 0.30)) ||
      (m == ThreadLow && ThreadBelow(results, 0.30) && !ThreadAbove(results, 0.80))
  {
  }

  /** Which suggestions are made, and when. */
  lemma SuggestionMembers(results: EngagementResults, t: MetricThread, sigmaBolt: real, sigmaHole: real, m: Message)
    requires sigmaHole != 0.0
    ensures m in SuggestionMessages(results, t, sigmaBolt, sigmaHole) <==>
      (m == BoltModerate && BoltIn(results, 0.60, 0.80)) ||
      (m == BoltLow && BoltBelow(results, 0.30)) ||
      (m == ThreadLow && ThreadBelow(results, 0.30) && !ThreadAbove(results, 0.80)) ||
      (m == LongEngagement && results.engagementLength > t.D * 3.0) ||
      (m == StrengthMismatch && sigmaBolt / sigmaHole > 3.0) ||
      (m == SoftHoleInsert && sigmaHole < 300.0) ||
      (m == SoftHoleSafetyFactor && sigmaHole < 300.0) ||
      (m == HighLoadLocking && results.designLoad.Some? && results.designLoad.value > 5000.0)
  {
    var u := UtilizationSuggestions(results);
    UtilizationMembers(results, m);
    assert SuggestionMessages(results, t, sigmaBolt, sigmaHole) == u
      + Emit(results.engagementLength > t.D * 3.0, LongEngagement)
      + Emit(sigmaBolt / sigmaHole > 3.0, StrengthMismatch)
      + Emit(sigmaHole < 300.0, SoftHoleInsert)
      + Emit(sigmaHole < 300.0, SoftHoleSafetyFactor)
      + Emit(results.designLoad.Some? && results.designLoad.value > 5000.0, HighLoadLocking);
  }

  /** The bolt-utilization chain emits at most one message, and none for a
      utilization in [0.30, 0.60]. */
  lemma BoltChainAtMostOne(results: EngagementResults, t: MetricThread, sigmaBolt: real, sigmaHole: real)
    requires sigmaHole != 0.0
    ensures var c, w, s := CriticalMessages(results), WarningMessages(results, t), SuggestionMessages(results, t, sigmaBolt, sigmaHole);
      (if BoltCritical in c then 1 else 0) + (if BoltHigh in w then 1 else 0)
      + (if BoltModerate in s then 1 else 0) + (if BoltLow in s then 1 else 0) <= 1
    ensures results.stress.Some? && 0.30 <= results.stress.value.boltUtilization <= 0.60 ==>
      BoltCritical !in CriticalMessages(results) && BoltHigh !in WarningMessages(results, t) &&
      BoltModerate !in SuggestionMessages(results, t, sigmaBolt, sigmaHole) &&
      BoltLow !in SuggestionMessages(results, t, sigmaBolt, sigmaHole)
  {
    CriticalMembers(results, BoltCritical);
    WarningMembers(results, t, BoltHigh);
    SuggestionMembers(results, t, sigmaBolt, sigmaHole, BoltModerate);
    SuggestionMembers(results, t, sigmaBolt, sigmaHole, BoltLow);
  }

  /** The thread-utilization chain emits at most one message. */
  lemma ThreadChainAtMostOne(results: EngagementResults, t: MetricThread, sigmaBolt: real, sigmaHole: real)
    requires sigmaHole != 0.0
    ensures var c, w, s := CriticalMessages(results), WarningMessages(results, t), SuggestionMessages(results, t, sigmaBolt, sigmaHole);
      (if ThreadCritical in c then 1 else 0) + (if ThreadHigh in w then 1 else 0)
      + (if ThreadLow in s then 1 else 0) <= 1
  {
    CriticalMembers(results, ThreadCritical);
    WarningMembers(results, t, ThreadHigh);
    SuggestionMembers(results, t, sigmaBolt, sigmaHole, ThreadLow);
  }

  /** A design passes with status GOOD only when no rule raised a critical
      issue or a warning; in particular a design with fewer than five
      threads is never GOOD. */
  lemma FewThreadsNeverGood(results: EngagementResults, t: MetricThread)
    requires results.nThreads < 5.0
    ensures StatusOf(CriticalMessages(results), WarningMessages(results, t)) != Good
  {
  }
}
