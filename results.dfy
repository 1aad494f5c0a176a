/** The results record that the standards checker and the recommendation
    classifier read: the engagement length and thread count, and optionally
    a stress analysis, a bolt margin and the design load. */
module Results {
  import opened Base

  /** The two utilizations read from a stress analysis. */
  datatype StressSummary = StressSummary(boltUtilization: real, threadUtilization: Ext)

  datatype EngagementResults = EngagementResults(
    stress: Option<StressSummary>,
    engagementLength: real,
    nThreads: real,
    margin: Option<real>,
    designLoad: Option<real>)
}
