# Thread engagement calculator — a Dafny model

This project models the calculation engine of `thread_engagement.py`. The
engine sizes the length of thread engagement that a bolt needs in a tapped
ISO metric hole, so that the internal threads do not strip before the bolt
yields. The parts modelled are:

- **Designation parser.** It turns "M8", "m10 x 1.5" or "M10-1.0" into a thread
  record: nominal diameter D, pitch p and tensile stress area
  At = 0.7854·(D − 0.9382p)². A bare diameter takes its pitch from the
  coarse-pitch table.
- **Bolt tensile capacity.**
- **Engagement solvers.** One gives the length for a design load. The other gives
  the length at which the tapped thread is as strong as the bolt.
- **Stress analysis.** Bolt stress, thread shear stress, bearing stress and
  utilizations.
- **Assembly torque.**
- **Goodman fatigue check.** It includes a Basquin-style life estimate.
- **Helicoil (thread insert) comparison.**
- **Standards compliance checker.** It covers VDI 2230, ISO 898-1, ASME BPVC and DIN 13.
- **Recommendation classifier.** It sorts rule messages into critical issues,
  warnings and suggestions.
- **Multi-load-case analysis.** It picks the critical case.
- **Unit converter** and **material catalog lookup.**

The modules follow the components of the source:

| Module | File | Contents |
|---|---|---|
| `Base` | `base.dfy` | option, result and error types; the extended reals for Python's `inf` |
| `RealArith` | `arith.dfy` | small facts about real products and quotients |
| `Thread` | `thread.dfy` | the thread record, the stress area and the parser |
| `Materials` | `materials.dfy` | the material catalog |
| `Engagement` | `engagement.dfy` | bolt capacity and both solvers |
| `Stress` | `stress.dfy` | stress analysis |
| `Torque` | `torque.dfy` | assembly torque |
| `Fatigue` | `fatigue.dfy` | fatigue check |
| `Helicoil` | `helicoil.dfy` | insert comparison |
| `Results` | `results.dfy` | the results record that the checkers read |
| `Standards` | `standards.dfy` | compliance checker |
| `Recommendations` | `recommendations.dfy` | recommendation classifier |
| `LoadCases` | `loadcases.dfy` | load-case analysis |
| `Units` | `units.dfy` | unit converter |
| `Scenarios` | `scenarios.dfy` | worked examples |

Numbers are Dafny `real`s. A Python `float('inf')` is `PosInf` of the type
`Ext = Finite(r) | PosInf | NegInf`. `NegInf` is reachable: an infinite thread
shear stress divided by a negative k·σ_hole gives it.

Every `ValueError` the engine raises is a `Failure` of a `Result`. Every
`ZeroDivisionError` that Python raises is a `requires` clause instead. These
are the crashes, in the order the code evaluates its divisions:

- n_hole ≠ 0 for the solvers;
- n_bolt ≠ 0 for the bolt capacity;
- At ≠ 0, σ_bolt ≠ 0 and k·σ_hole ≠ 0 for the stress analysis;
- σ_hole ≠ 0 for the strength-mismatch rule;
- a non-zero bare-hole length (so a non-zero load) for the helicoil reduction;
- a non-zero Goodman sum when the Goodman branch is taken;
- D ≠ 0 for the VDI 2230 engagement ratio.

An empty list of load cases makes Python's `max` raise `ValueError`, so it is
the error `NoLoadCases`.

Four operations update state step by step in the source. Each is an
imperative method proved against a specification function:

| Method | What the source does | Specification |
|---|---|---|
| `ParseMetricThread` | the for/else loop over the two separators | `ParseThread` |
| `GenerateDesignRecommendations` | appends to three lists | `CriticalMessages`, `WarningMessages`, `SuggestionMessages` |
| `CheckStandardsCompliance` | appends checks and counts passes and fails | its contract states each check; the counts are `Count` |
| `AnalyzeLoadCases` | appends rows, then takes the first maximum | `CaseResultFor` per row, `IsFirstMax` for the choice |

The model follows the code as written, including these points a reader might
not expect:

- **Thread utilization.** It divides the shear stress by k·σ_hole, not by the
  allowable stress τ_allow. At the design-load engagement it is therefore exactly
  1/n_hole, not 1.
- **Stress area is never checked.** The parser never rejects a thread with
  D ≤ 0.9382p, and neither solver checks At. "M0.9382x1" parses to a zero stress
  area, and both solvers accept it.
- **The "fewer than 3 threads" critical rule is unreachable.** It sits behind the
  "fewer than 5" test.
- **Worked example.** For M10 in 276 MPa material at 15 kN with n_hole = 2, the
  design-load formula gives L_e ≈ 22.61 mm.
- **Fatigue example.** For the M10 fatigue case (grade-900 bolt, 15 kN mean,
  5 kN amplitude, machined) the code computes a Goodman factor of about 1.552,
  so the status is infinite life.

## Model

| member | source | states |
|---|---|---|
| `Thread.TensileStressArea` | thread_engagement.py:138-143 | At is never negative and is zero exactly when D = 0.9382p; it equals the ISO 898-1 form 0.7854·((d2 + d3)/2)² with d2 = D − 0.6495p and d3 = D − 1.2269p |
| `Thread.TensileStressAreaIncreasing` | thread_engagement.py:138-143 | beyond the degenerate line the stress area grows strictly with the diameter |
| `Thread.IndexOf` | thread_engagement.py:119 | `split(sep, 1)` splits at the first occurrence: the index holds the separator and nothing before it does |
| `Thread.FromExplicitPitch` | thread_engagement.py:117-122 | an explicit designation succeeds exactly when both sides of the separator are numerals, and then yields a thread with those D and p |
| `Thread.FromCoarsePitch` | thread_engagement.py:123-135 | a bare diameter succeeds exactly when it is a numeral with an integral value whose key "M<int D>" is in the coarse table, and then takes that pitch |
| `Thread.ParseThread` | thread_engagement.py:104-135 | a success needs a normalised designation starting with 'M'; a success is a consistent thread record with At ≥ 0; every failure is one of the three parser errors |
| `Thread.ParseMetricThread` | thread_engagement.py:104-135 | the for/else loop over 'X' then '-' returns exactly what the reference parser does |
| `Thread.ParseRequiresLeadingM` | thread_engagement.py:110-112 | after strip, upper-case and space removal, input not starting with 'M' is refused as an invalid designation |
| `Thread.ParseAfterMAtSeparator` | thread_engagement.py:117-122 | an 'X' (or, when there is no 'X', a '-') splits the rest at its first occurrence |
| `Thread.ParseAfterMBare` | thread_engagement.py:123-132 | with neither separator the rest is read as a bare diameter |
| `Thread.RemoveSpacesIdentity` | thread_engagement.py:110 | removing spaces leaves a text without spaces unchanged |
| `Thread.NormalizeIdentity` | thread_engagement.py:110 | normalisation leaves an already stripped, upper-case, space-free text unchanged |
| `Thread.NormalizeExplicitForm` | thread_engagement.py:110 | "M<a>x<b>" with numerals a and b normalises to "M<a>X<b>" |
| `Thread.ParseExplicitForm` | thread_engagement.py:104-122 | "M<a>x<b>" with numerals a and b is split at the 'X' after a |
| `Thread.ParseExplicitRoundTrip` | thread_engagement.py:104-135 | any two accepted numerals written as "M<a>x<b>" parse back to the thread with exactly those D and p |
| `Thread.NatStringValue` | thread_engagement.py:126 | the decimal text of a natural number reads back as that number |
| `Thread.NatStringParses` | thread_engagement.py:125-126 | the decimal text of a natural number is accepted as a numeral of that value and is integral |
| `Thread.CoarseKeyNormal` | thread_engagement.py:126 | a coarse-table key "M<n>" is already normalised |
| `Thread.ParseCoarseRoundTrip` | thread_engagement.py:123-135 | every coarse-table key parses to its diameter with the table's pitch |
| `Thread.M10Area` | thread_engagement.py:138-143 | M10×1.5 has At between 57.98 and 57.99 mm² |
| `Thread.ParseM10` | test_features.py:6 | "M10" parses to D = 10, p = 1.5 and At ≈ 57.99 mm² |
| `Thread.ParseAcceptsZeroStressArea` | thread_engagement.py:134-135 | "M0.9382x1" is accepted although its stress area is zero |
| `Thread.NumeralChars` | thread_engagement.py:120-121 | an accepted numeral is non-empty, consists of digits, '.' and signs, and has a sign only in its first position |
| `Thread.ParseDecimal` | thread_engagement.py:120-125 | `float()` on a plain numeral: the empty text is refused; a negative value needs a leading '-', and a leading '-' never gives a positive value; a digit string reads as its decimal value |
| `Thread.ParseFraction` | thread_engagement.py:120-125 | `float()` of "w.f", for digit strings w and f that are not both empty, is w + f/10ⁿ, with n the number of digits of f |
| `Thread.ParseNegation` | thread_engagement.py:120-125 | a leading '-' negates: for a non-empty x without a leading sign, "-x" reads as −v exactly when x reads as v, and is refused exactly when x is |
| `Thread.ParseFractionalPitch` | thread_engagement.py:104-122 | "M<w>x<pw>.<pf>" parses to D = w and p = pw + pf/10ⁿ, with n the number of digits of pf |
| `Thread.ParseAfterM` | thread_engagement.py:114-132 | after the 'M', a success is a consistent thread record with At ≥ 0; a failure is a bad numeral or a missing coarse pitch, and a missing coarse pitch only arises when neither 'X' nor '-' occurs |
| `Thread.NormalizeForm` | thread_engagement.py:110 | the normalised designation is no longer than the input, has no spaces and no lower-case letters, and has no whitespace at either end |
| `Thread.NormalizeIdempotent` | thread_engagement.py:110 | normalising twice is normalising once |
| `Materials.GetMaterialYieldStrength` | thread_engagement.py:80-84 | succeeds exactly for catalog keys, with that entry's yield strength; any other key is the not-found error naming it |
| `Materials.CatalogYieldBounds` | thread_engagement.py:47-69 | every catalog yield strength lies in [125, 1080] MPa |
| `Materials.CatalogYieldExtremes` | thread_engagement.py:47-69 | brass (125 MPa) and grade 12.9 steel (1080 MPa) attain the two ends |
| `Engagement.AsFactor` | thread_engagement.py:178 | for a positive pitch the shear-area factor is positive exactly when D > 0.54127p; it is zero for a zero pitch |
| `Engagement.TauAllow` | thread_engagement.py:174 | τ_allow·n_hole = k·σ_hole |
| `Engagement.BoltTensileCapacity` | thread_engagement.py:146-156 | F = At·(σ_bolt/n_bolt), so F·n_bolt = At·σ_bolt |
| `Engagement.RequiredEngagementForDesignLoad` | thread_engagement.py:159-184 | fails, with the invalid-geometry error, exactly when As_factor ≤ 0 or τ_allow ≤ 0; otherwise L_e·As_factor·τ_allow = F, and L_e > 0 exactly when F > 0 |
| `Engagement.RequiredEngagementForEqualStrength` | thread_engagement.py:187-214 | fails exactly when the design-load solver fails at the bolt capacity; otherwise the capacity satisfies F·n_bolt = At·σ_bolt and L·As_factor·τ_allow = F |
| `Engagement.EqualStrengthIsDesignLoadAtCapacity` | thread_engagement.py:187-214 | the equal-strength result is (design-load L_e for the bolt capacity, bolt capacity) and fails exactly when that solve fails |
| `Engagement.DesignLoadUnique` | thread_engagement.py:183 | the solver's length is the only L with L·As_factor·τ_allow = F |
| `Engagement.DesignLoadIncreasingInLoad` | thread_engagement.py:183 | a larger design load needs strictly more engagement |
| `Engagement.DesignLoadDecreasingInHoleStrength` | thread_engagement.py:174-183 | for F, k, n_hole > 0, a stronger hole stays solvable and needs strictly less engagement |
| `Engagement.TauIncreasing` | thread_engagement.py:174 | τ_allow grows strictly with σ_hole for positive k and n_hole |
| `Base.DivBy` | thread_engagement.py:238 | Python's division of a float that may be infinite by a non-zero finite divisor: finite stays finite with q·d = x, and an infinity keeps or flips its sign with the divisor's |
| `Stress.StressOver` | thread_engagement.py:236 | F/area for a positive area, infinity otherwise |
| `Stress.CalculateStressAnalysis` | thread_engagement.py:217-251 | bolt stress·At = F; bolt utilization·σ_bolt = bolt stress; shear area = As_factor·L; shear and bearing stress are F over their areas or infinite; thread utilization is the shear stress over k·σ_hole |
| `Stress.ThreadUtilizationAtDesignEngagement` | thread_engagement.py:234-238 | at the design-load solver's engagement for a positive load the thread utilization is exactly 1/n_hole |
| `Stress.BoltUtilizationAtCapacity` | thread_engagement.py:230-231 | at the bolt's allowable capacity the bolt utilization is 1/n_bolt |
| `Stress.NoShearAreaIsInfinite` | thread_engagement.py:235-238 | a non-positive shear area gives infinite shear stress rather than an error |
| `Torque.CalculateAssemblyTorque` | thread_engagement.py:369-406 | proof = At·0.9σ, preload = fraction·proof, dry torque uses K = 0.20 and lubricated the friction coefficient, min = 0.9·lubricated, max = 1.1·dry, recommended = lubricated |
| `Torque.RecommendedWithinBand` | thread_engagement.py:400-404 | for D > 0 and a positive preload the recommended torque lies in [min, max] exactly when 0 ≤ friction ≤ 0.22 |
| `Torque.SafetyFactorUnused` | thread_engagement.py:369-375 | the result does not depend on n_bolt |
| `Fatigue.EnduranceLimitBase` | thread_engagement.py:505-508 | S_e' = min(0.5σ, 700) |
| `Fatigue.EnduranceLimitBaseContinuous` | thread_engagement.py:505-508 | the two branches agree at 1400 MPa |
| `Fatigue.SurfaceFactor` | thread_engagement.py:511-518 | the table factor, 0.78 (as machined) for an unknown finish, always in [0.39, 1] |
| `Fatigue.NominalStress` | thread_engagement.py:530-531 | s·At = F for positive At, 0 otherwise |
| `Fatigue.FatigueAnalysis` | thread_engagement.py:493-559 | n·(Goodman sum) = 1 when S_e > 0 and σ > 0, else n = 0; INFINITE_LIFE exactly when n ≥ 1; cycles are infinite exactly when n ≥ 1 or σ_alt ≤ 0, otherwise (S_e/σ_alt)⁹; safe exactly when cycles are infinite or exceed the expected count |
| `Fatigue.GoodmanAppliesIffPositiveYield` | thread_engagement.py:527-537 | the Goodman branch is taken exactly when σ_bolt > 0 |
| `Fatigue.GoodmanCriterion` | thread_engagement.py:534-543 | for a positive Goodman sum, infinite life exactly when σ_alt/S_e + σ_mean/σ_y ≤ 1; a negative sum gives a negative factor and finite life |
| `Fatigue.NoAlternatingLoadIsSafe` | thread_engagement.py:539-558 | with no alternating load the cycles are infinite and the bolt is safe, whatever the status |
| `Fatigue.FiniteEstimatePositive` | thread_engagement.py:545-547 | a finite estimate with σ_bolt > 0 is a positive cycle count |
| `Scenarios.M10Fatigue` | test_features.py:64-66 | the smoke script's M10 fatigue case has infinite life with a factor between 1.55 and 1.56 |
| `Helicoil.InsertYield` | thread_engagement.py:572-578 | the table yield, 520 MPa (stainless) for an unknown insert, always in [380, 1000] |
| `Helicoil.HelicoilDesignFor` | thread_engagement.py:562-613 | fails exactly when one of the two solves fails; both lengths come from the design-load solver; reduction·L_without = (L_without − L_with)·100; drill = 1.085D; threads·p = L_with; HIGHLY RECOMMENDED exactly when σ_orig < 300 |
| `Helicoil.ReductionIsYieldRatio` | thread_engagement.py:580-600 | reduction% = (1 − σ_orig/σ_insert)·100, independent of load and n_hole |
| `Helicoil.ReductionPositiveIffStrongerInsert` | thread_engagement.py:600 | the reduction is positive exactly when the insert is stronger than the hole |
| `Standards.LookupStandard` | thread_engagement.py:624-650 | the table entry, VDI 2230's for an unknown name; only VDI 2230 has an engagement-ratio limit |
| `Standards.InverseOr999` | thread_engagement.py:660-661 | 1/x for a positive utilization (0 for infinity), 999 otherwise |
| `Standards.EffectiveSafetyFactor` | thread_engagement.py:657-665 | the smaller inverse utilization with a stress record, else the margin, else 2.0 |
| `Standards.CountAppend` | thread_engagement.py:668-692 | appending a check adds one to the count of its outcome and nothing to the others |
| `Standards.CheckStandardsCompliance` | thread_engagement.py:616-700 | three checks for VDI 2230 and two otherwise, each with its outcome; passes and fails count the outcomes; the ratio check never fails; compliant exactly when no check fails, exactly when both the safety factor and the thread count meet the standard |
| `Recommendations.StatusOf` | thread_engagement.py:489 | FAIL exactly when there are critical issues, else WARNING exactly when there are warnings, else GOOD |
| `Recommendations.GenerateDesignRecommendations` | thread_engagement.py:409-490 | the three lists appended by the rules equal the rule-order specifications, and the status is derived from them |
| `Recommendations.UtilizationRules` | thread_engagement.py:423-444 | the two utilization chains, when a stress record is present |
| `Recommendations.EngagementRules` | thread_engagement.py:447-453 | a warning for L_e < D and a suggestion for L_e > 3D |
| `Recommendations.ThreadCountRules` | thread_engagement.py:456-460 | fewer than 5 threads warns, and the critical list is left unchanged |
| `Recommendations.MismatchRule` | thread_engagement.py:463-464 | a suggestion when σ_bolt/σ_hole > 3 |
| `Recommendations.MarginRules` | thread_engagement.py:467-474 | margin < 1.0 is critical; [1.0, 1.2) and [1.2, 1.5) warn |
| `Recommendations.SoftMaterialAndLoadRules` | thread_engagement.py:477-483 | two suggestions for σ_hole < 300 and one for a design load over 5000 N |
| `Recommendations.CriticalMessages` | thread_engagement.py:428-474 | at most three critical issues, each a bolt, thread or margin issue; none exactly when bolt and thread utilization are at most 0.9 (or absent) and the margin is not below 1.0 |
| `Recommendations.WarningMessages` | thread_engagement.py:428-474 | at most five warnings, each from the warning rules; none exactly when no warning condition holds |
| `Recommendations.UtilizationSuggestions` | thread_engagement.py:429-444 | the utilization chains make at most two suggestions, each a moderate-bolt, low-bolt or low-thread one |
| `Recommendations.SuggestionMessages` | thread_engagement.py:428-483 | at most seven suggestions; a hole softer than 300 MPa always gets both soft-material suggestions |
| `Recommendations.CriticalMembers` | thread_engagement.py:428-474 | a critical issue is raised exactly for bolt or thread utilization > 0.9 or margin < 1.0; the fewer-than-3-threads issue never is |
| `Recommendations.WarningMembers` | thread_engagement.py:428-474 | exactly which warnings are raised, and when |
| `Recommendations.SuggestionMembers` | thread_engagement.py:428-483 | exactly which suggestions are made, and when |
| `Recommendations.BoltChainAtMostOne` | thread_engagement.py:429-436 | the bolt-utilization chain emits at most one message, and none for a utilization in [0.30, 0.60] |
| `Recommendations.ThreadChainAtMostOne` | thread_engagement.py:439-444 | the thread-utilization chain emits at most one message |
| `Recommendations.FewThreadsNeverGood` | thread_engagement.py:457-489 | fewer than five threads never yields status GOOD |
| `LoadCases.EquivalentForce` | thread_engagement.py:762-771 | F_equiv ≥ axial, and F_equiv > axial exactly when there is positive shear, or positive bending with positive spacing |
| `LoadCases.CaseResultFor` | thread_engagement.py:760-797 | a row carries the case's forces, its design-load engagement, threads·p = L_e, the common bolt capacity, and margin·F_equiv = capacity (999 for F_equiv ≤ 0) |
| `LoadCases.AnalyzeLoadCases` | thread_engagement.py:746-808 | an empty list is an error, an unsolvable setting is the solver's error; otherwise the rows are in input order with one per case, and the critical case is the first row of maximal engagement, which is also the first of maximal F_equiv |
| `LoadCases.EngagementOrdersLikeForce` | thread_engagement.py:774-779 | two rows compare by engagement exactly as they compare by F_equiv |
| `LoadCases.CriticalCaseIsLargestLoad` | thread_engagement.py:781-800 | the first maximal-engagement row is exactly the first maximal-force row, and all rows share the bolt capacity |
| `LoadCases.AnalysisRowsSameSetting` | thread_engagement.py:760-797 | rows built by the analysis all come from one thread, material pair and pair of safety factors |
| `Scenarios.AssemblyCaseEquivalentForce` | test_features.py:109 | `LoadCase("Assembly", 5000, 0.5)` carries 0.5 N of shear, so F_equiv = 5000.15 N |
| `Scenarios.M10DesignLoadEngagement` | test_features.py:6-18 | M10, 15 kN, 276 MPa, n_hole = 2 gives 22.6 < L_e < 22.7 mm |
| `Scenarios.DegenerateThreadAccepted` | thread_engagement.py:180-214 | a zero-stress-area thread passes the solvers' check, and the equal-strength solve returns (0, 0) |
| `Units.ConvertUnits` | thread_engagement.py:707-730 | value times the table factor, the value unchanged for a pair not in the table |
| `Units.FactorsNearlyInverse` | thread_engagement.py:711-724 | every pair has its reverse, and the two factors multiply to within 3·10⁻⁶ of 1 |
| `Units.RoundTripNearlyIdentity` | thread_engagement.py:707-730 | converting there and back returns the value to within 3·10⁻⁶ of its magnitude |
| `Units.RoundTripNotExact` | thread_engagement.py:711-712 | one newton converted to pound-force and back is not one newton |

## Left out

- app.py is not part of this model. It holds the web front end: routing, the
  HTML/JS template, PDF generation, the diagram and session history. All of
  it is I/O and presentation.
- The printed summaries `engagement_summary_design` and
  `engagement_summary_equal`, `list_available_materials` and the command-line
  interface are left out. They format or print the results of the modelled
  functions.
- The fine-pitch table is left out, because no modelled function reads it.
- The `frequency` and `probability` of a load case are left out. They are only
  copied into the result rows.
- Message texts are left out. Recommendation messages are enumeration
  constructors. Compliance checks carry their kind, the number they show and
  their outcome, not the formatted string.
- The standards' preload range and thread tolerance are left out, because no
  check reads them.
- The insert type and tap size strings of the helicoil result are left out.
  Error messages are left out too: each error carries the value it names, not
  its text.
- `Thread.ParseThread`: the designation string of the result is kept as the pair
  (D, p) rather than Python's float repr (M10 reads "M10.0x1.5").
  Python's `float()` is modelled as a plain decimal numeral: an optional sign,
  digits and at most one '.'. The model refuses "inf", "nan", exponents,
  underscores and non-ASCII digits, which Python accepts. It also refuses
  whitespace other than ' ' next to a number inside the designation, which
  `float()` strips: `"M10\tx1.5"` parses in Python but is an invalid number
  here.
- `Thread.Normalize`: `strip` and `upper` are modelled for ASCII characters only.
- `Thread.FromCoarsePitch`: a non-integral bare diameter goes straight to the
  no-coarse-pitch error. Python first formats the key "M<D>" from the float
  repr, but such a key never names a table entry, because every key is "M"
  followed by digits.
- Floating point is not modelled: rounding, NaN and overflow. All arithmetic is
  exact real arithmetic. For example, the unit round trip is stated with
  exact products of the table's decimal factors.
- The Basquin estimate `(S_e/σ_alt) ** 9` is exact, so a huge ratio does not
  overflow.
- `Recommendations.GenerateDesignRecommendations`: the single Python function is
  modelled as one method that calls six rule-block methods, each of which
  appends to the lists it is given.
- An empty stress record would make the source raise `KeyError`. The model
  instead takes the stress record as an `Option` that, when present, has both
  utilizations.
