/** convert_units: a fixed table of metric/imperial conversion factors. */
module Units {
  import RealArith

  type Unit = string

  const CONVERSIONS: map<(Unit, Unit), real> := map[
    ("N", "lbf") := 0.224809,
    ("lbf", "N") := 4.44822,
    ("mm", "inch") := 0.0393701,
    ("inch", "mm") := 25.4,
    ("MPa", "ksi") := 0.145038,
    ("ksi", "MPa") := 6.89476,
    ("Nm", "ft-lbf") := 0.737562,
    ("ft-lbf", "Nm") := 1.35582,
    ("Nm", "in-lbf") := 8.85075,
    ("in-lbf", "Nm") := 0.112985,
    ("kg", "lb") := 2.20462,
    ("lb", "kg") := 0.453592
  ]

  /** value times the table factor; an unknown pair (including a unit to
      itself) returns the value unchanged. */
  function ConvertUnits(value: real, from: Unit, to: Unit): (r: real)
    ensures (from, to) in CONVERSIONS ==> r == value * CONVERSIONS[(from, to)]
    ensures (from, to) !in CONVERSIONS ==> r == value
  {
    if (from, to) in CONVERSIONS then value * CONVERSIONS[(from, to)] else value
  }

  /** Every pair in the table has its reverse, and the two factors multiply
      to within 3·10⁻⁶ of 1. */
  lemma FactorsNearlyInverse(from: Unit, to: Unit)
    requires (from, to) in CONVERSIONS
    ensures (to, from) in CONVERSIONS
    ensures var p := CONVERSIONS[(from, to)] * CONVERSIONS[(to, from)];
      0.999997 <= p <= 1.000003
  {
  }

  /** |x p - x| <= eps |x| when |p - 1| <= eps. */
  lemma ScaleNear(x: real, p: real, eps: real)
    requires -eps <= p - 1.0 <= eps
    ensures -eps * Abs(x) <= x * p - x <= eps * Abs(x)
  {
    var d := p - 1.0;
    assert x * p - x == x * d;
    var ax := Abs(x);
    // x d lies between -eps |x| and eps |x|
    RealArith.ProductNonneg(ax, eps - d, ax * (eps - d));
    RealArith.ProductNonneg(ax, eps + d, ax * (eps + d));
    if x < 0.0 {
      assert x * d == -(ax * d);
    }
  }

  function Abs(x: real): real { if x < 0.0 then -x else x }

  /** Converting there and back returns the value to within 3·10⁻⁶ of its
      magnitude, for every pair in the table. */
  lemma RoundTripNearlyIdentity(x: real, from: Unit, to: Unit)
    requires (from, to) in CONVERSIONS
    ensures var y := ConvertUnits(ConvertUnits(x, from, to), to, from);
      -0.000003 * Abs(x) <= y - x <= 0.000003 * Abs(x)
  {
  }

  /** ... but not exactly: one newton to pound-force and back is not one newton. */
  lemma RoundTripNotExact()
    ensures ConvertUnits(ConvertUnits(1.0, "N", "lbf"), "lbf", "N") != 1.0
  {
  }
}
