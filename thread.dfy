/** ISO metric thread designations ("M8", "M8x1.25", "M10-1.0"): the
    coarse-pitch table, the tensile stress area and the designation
    parser. */
module Thread {
  import opened Base
  import RealArith

  // ---------------------------------------------------------------------
  // The thread record
  // ---------------------------------------------------------------------

  /** The canonical designation "M<D>x<p>", written with the float repr
      of D and p (so M10 reads "M10.0x1.5"); only the two numbers are kept. */
  datatype Designation = Designation(diameter: real, pitch: real)

  /** Nominal diameter D and pitch p in mm, tensile stress area At in mm². */
  datatype MetricThread = MetricThread(designation: Designation, D: real, p: real, At: real)

  function MakeThread(D: real, p: real): (t: MetricThread)
    ensures t.D == D && t.p == p && t.designation == Designation(D, p)
    ensures t.At == TensileStressArea(D, p)
  {
    MetricThread(Designation(D, p), D, p, TensileStressArea(D, p))
  }

  // ---------------------------------------------------------------------
  // Tensile stress area
  // ---------------------------------------------------------------------

  function Square(x: real): real { x * x }

  lemma SquareSign(x: real)
    ensures Square(x) >= 0.0
    ensures Square(x) == 0.0 <==> x == 0.0
  {
    RealArith.SquareNonneg(x, Square(x));
    if x != 0.0 { RealArith.SquarePos(x, Square(x)); }
  }

  /** Basic pitch diameter d2 and minor diameter d3 of the external thread
      (ISO 898-1), with their coefficients rounded to four places. */
  function PitchDiameter(D: real, p: real): real { D - 0.6495 * p }
  function MinorDiameter(D: real, p: real): real { D - 1.2269 * p }

  /** At = 0.7854 (D - 0.9382 p)². It is never negative and vanishes exactly
      on the degenerate line D = 0.9382 p; it agrees with the ISO 898-1
      definition At = (π/4) ((d2 + d3) / 2)² with π/4 taken as 0.7854. */
  function TensileStressArea(D: real, p: real): (At: real)
    ensures At >= 0.0
    ensures At == 0.0 <==> D == 0.9382 * p
    ensures At == 0.7854 * Square((PitchDiameter(D, p) + MinorDiameter(D, p)) / 2.0)
  {
    SquareSign(D - 0.9382 * p);
    assert (PitchDiameter(D, p) + MinorDiameter(D, p)) / 2.0 == D - 0.9382 * p;
    0.7854 * Square(D - 0.9382 * p)
  }

  /** Beyond the degenerate line the stress area grows with the diameter. */
  lemma TensileStressAreaIncreasing(D1: real, D2: real, p: real)
    requires 0.9382 * p <= D1 < D2
    ensures TensileStressArea(D1, p) < TensileStressArea(D2, p)
  {
    var a, b := D1 - 0.9382 * p, D2 - 0.9382 * p;
    RealArith.ProductPos(b - a, b + a, Square(b) - Square(a));
  }

  // ---------------------------------------------------------------------
  // Coarse pitch table
  // ---------------------------------------------------------------------

  const COARSE_PITCH: map<string, real> := map[
    "M3" := 0.5, "M4" := 0.7, "M5" := 0.8, "M6" := 1.0, "M8" := 1.25,
    "M10" := 1.5, "M12" := 1.75, "M14" := 2.0, "M16" := 2.0, "M18" := 2.5,
    "M20" := 2.5, "M24" := 3.0, "M27" := 3.0, "M30" := 3.5, "M33" := 3.5,
    "M36" := 4.0, "M39" := 4.0, "M42" := 4.5, "M48" := 5.0, "M56" := 5.5,
    "M64" := 6.0
  ]

  // ---------------------------------------------------------------------
  // Text normalisation: strip, upper-case, drop spaces (ASCII only)
  // ---------------------------------------------------------------------

  /** The ASCII characters Python's str.strip() removes. */
  predicate IsWhitespace(c: char)
  {
    c == ' ' || c == '\t' || c == '\n' || c == '\r' || c == '\U{B}' || c == '\U{C}'
    || ('\U{1C}' <= c <= '\U{1F}')
  }

  function StripLeading(s: string): (r: string)
    ensures |r| <= |s| && r == s[|s| - |r|..]
    ensures |r| > 0 ==> !IsWhitespace(r[0])
  {
    if |s| > 0 && IsWhitespace(s[0]) then StripLeading(s[1..]) else s
  }

  function StripTrailing(s: string): (r: string)
    ensures |r| <= |s| && r == s[..|r|]
    ensures |r| > 0 ==> !IsWhitespace(r[|r| - 1])
  {
    if |s| > 0 && IsWhitespace(s[|s| - 1]) then StripTrailing(s[..|s| - 1]) else s
  }

  /** `str.strip()`: no whitespace is left at either end. */
  function Strip(s: string): string
  {
    StripTrailing(StripLeading(s))
  }

  function UpperChar(c: char): char
  {
    if 'a' <= c <= 'z' then (c as int - 32) as char else c
  }

  /** `str.upper()` on ASCII letters. */
  function Upper(s: string): (r: string)
    ensures |r| == |s|
  {
    seq(|s|, i requires 0 <= i < |s| => UpperChar(s[i]))
  }

  /** `str.replace(' ', '')` */
  function RemoveSpaces(s: string): (r: string)
    ensures ' ' !in r
  {
    if s == [] then []
    else (if s[0] == ' ' then [] else [s[0]]) + RemoveSpaces(s[1..])
  }

  /** `designation.strip().upper().replace(' ', '')` */
  function Normalize(s: string): (r: string)
  {
    RemoveSpaces(Upper(Strip(s)))
  }

  /** Removing spaces keeps every other character in order, so it never
      lengthens the text, adds no character, and keeps an end that is not
      a space. */
  lemma {:induction false} RemoveSpacesForm(s: string)
    ensures var r := RemoveSpaces(s);
      |r| <= |s|
      && (forall c :: c in r ==> c in s)
      && (|s| > 0 && s[0] != ' ' ==> |r| > 0 && r[0] == s[0])
      && (|s| > 0 && s[|s| - 1] != ' ' ==> |r| > 0 && r[|r| - 1] == s[|s| - 1])
  {
    if s != [] {
      RemoveSpacesForm(s[1..]);
      if |s| > 1 {
        assert s[1..][|s| - 2] == s[|s| - 1];
      }
    }
  }

  /** `str.strip()` leaves no whitespace at either end. */
  lemma StripForm(s: string)
    ensures var r := Strip(s); |r| <= |s| && (r == [] || (!IsWhitespace(r[0]) && !IsWhitespace(r[|r| - 1])))
  {
    var t := StripLeading(s);
    assert StripTrailing(t) != [] ==> StripTrailing(t)[0] == t[0];
  }

  /** `str.upper()` leaves no lower-case letter and keeps whitespace where it is. */
  lemma UpperForm(s: string)
    ensures var r := Upper(s);
      (forall i :: 0 <= i < |r| ==> !('a' <= r[i] <= 'z'))
      && (forall i :: 0 <= i < |s| ==> (IsWhitespace(r[i]) <==> IsWhitespace(s[i])))
  {
  }

  /** A normalised designation is no longer than the input and has no
      spaces, no lower-case letters and no whitespace at either end. */
  lemma NormalizeForm(s: string)
    ensures var r := Normalize(s);
      |r| <= |s|
      && ' ' !in r
      && (forall i :: 0 <= i < |r| ==> !('a' <= r[i] <= 'z'))
      && (r == [] || (!IsWhitespace(r[0]) && !IsWhitespace(r[|r| - 1])))
  {
    var st := Strip(s);
    StripForm(s);
    var u := Upper(st);
    UpperForm(st);
    var r := RemoveSpaces(u);
    RemoveSpacesForm(u);
    assert forall i :: 0 <= i < |r| ==> r[i] in u;
  }

  /** Index of the first occurrence of c in s (what str.split(c, 1) splits at). */
  function IndexOf(s: string, c: char): (k: nat)
    requires c in s
    ensures k < |s| && s[k] == c && c !in s[..k]
  {
    if s[0] == c then 0
    else
      assert c in s[1..] by { var j :| 0 <= j < |s| && s[j] == c; assert s[1..][j - 1] == c; }
      var k := 1 + IndexOf(s[1..], c);
      assert s[..k] == [s[0]] + s[1..][..k - 1];
      k
  }

  // ---------------------------------------------------------------------
  // Decimal numerals (the part of float() the designations use)
  // ---------------------------------------------------------------------

  predicate IsDigit(c: char) { '0' <= c <= '9' }

  predicate AllDigits(s: string) { forall i :: 0 <= i < |s| ==> IsDigit(s[i]) }

  function DigitValue(c: char): nat
    requires IsDigit(c)
  {
    c as int - '0' as int
  }

  function DigitsValue(s: string): nat
    requires AllDigits(s)
  {
    if s == [] then 0 else 10 * DigitsValue(s[..|s| - 1]) + DigitValue(s[|s| - 1])
  }

  function Pow10(n: nat): (r: nat)
    ensures r > 0
  {
    if n == 0 then 1 else 10 * Pow10(n - 1)
  }

  /** The value of the numeral w '.' f: the whole part plus f over 10^|f|. */
  function FracValue(w: string, f: string): real
    requires AllDigits(w) && AllDigits(f)
  {
    DigitsValue(w) as real + DigitsValue(f) as real / Pow10(|f|) as real
  }

  /** digits, digits '.' digits, '.' digits or digits '.', at least one digit */
  function ParseUnsigned(s: string): (r: Option<real>)
    ensures r.Some? ==> s != [] && r.value >= 0.0
    ensures s != [] && AllDigits(s) ==> r == Some(DigitsValue(s) as real)
  {
    if '.' in s then
      var k := IndexOf(s, '.');
      var whole, frac := s[..k], s[k + 1..];
      if AllDigits(whole) && AllDigits(frac) && |whole| + |frac| > 0
      then Some(FracValue(whole, frac))
      else None
    else if s != [] && AllDigits(s) then Some(DigitsValue(s) as real)
    else None
  }

  /** Python's float() on a plain decimal numeral with an optional sign;
      None where float() raises. */
  function ParseDecimal(s: string): (r: Option<real>)
    ensures r.Some? ==> s != []
    ensures r.Some? && r.value < 0.0 ==> s[0] == '-'
    ensures r.Some? && s[0] == '-' ==> r.value <= 0.0
    ensures s != [] && AllDigits(s) ==> r == Some(DigitsValue(s) as real)
  {
    if |s| > 0 && s[0] == '-' then
      match ParseUnsigned(s[1..])
      case Some(v) => Some(-v)
      case None => None
    else if |s| > 0 && s[0] == '+' then ParseUnsigned(s[1..])
    else ParseUnsigned(s)
  }

  /** float() of "w.f" for digit strings w and f, not both empty, is w + f/10^|f|. */
  lemma ParseFraction(w: string, f: string)
    requires AllDigits(w) && AllDigits(f) && |w| + |f| > 0
    ensures ParseDecimal(w + ['.'] + f) == Some(FracValue(w, f))
  {
    var s := w + ['.'] + f;
    assert '.' !in w by {
      forall i | 0 <= i < |w| ensures w[i] != '.' { assert IsDigit(w[i]); }
    }
    IndexOfAfterPrefix(w, '.', f);
    assert s[..|w|] == w;
    assert s[|w| + 1..] == f;
    if |w| > 0 {
      assert s[0] == w[0] && IsDigit(w[0]);
    }
  }

  /** A leading '-' negates: float("-x") is -float(x), and fails exactly when
      float(x) does, for x not itself starting with a sign. */
  lemma ParseNegation(x: string)
    requires x != [] && x[0] != '-' && x[0] != '+'
    ensures ParseDecimal(['-'] + x) == (if ParseDecimal(x).Some? then Some(-ParseDecimal(x).value) else None)
  {
    assert (['-'] + x)[1..] == x;
  }

  predicate IsNumeralChar(c: char) { IsDigit(c) || c == '.' || c == '+' || c == '-' }

  lemma ParseUnsignedChars(s: string)
    requires ParseUnsigned(s).Some?
    ensures s != [] && forall i :: 0 <= i < |s| ==> IsDigit(s[i]) || s[i] == '.'
  {
  }

  /** A numeral float() accepts is made of digits, '.', and a leading sign. */
  lemma NumeralChars(s: string)
    requires ParseDecimal(s).Some?
    ensures s != [] && NumeralText(s)
    ensures forall i :: 0 < i < |s| ==> s[i] != '+' && s[i] != '-'
  {
    if |s| > 0 && (s[0] == '-' || s[0] == '+') {
      ParseUnsignedChars(s[1..]);
      forall i | 1 <= i < |s| ensures IsNumeralChar(s[i]) { assert s[1..][i - 1] == s[i]; }
    } else {
      ParseUnsignedChars(s);
    }
  }

  // ---------------------------------------------------------------------
  // Decimal rendering of integers (the coarse-table key)
  // ---------------------------------------------------------------------

  function NatString(n: nat): (s: string)
    ensures s != [] && AllDigits(s)
  {
    var last := ['0' + (n % 10) as char];
    if n < 10 then last else NatString(n / 10) + last
  }

  function IntString(n: int): string
  {
    if n < 0 then "-" + NatString(-n) else NatString(n)
  }

  /** `f'M{int(D)}'` for an integral diameter. */
  function CoarseKey(n: int): string
  {
    "M" + IntString(n)
  }

  lemma {:induction false} NatStringValue(n: nat)
    ensures DigitsValue(NatString(n)) == n
  {
    var s := NatString(n);
    if n >= 10 {
      NatStringValue(n / 10);
      assert s[..|s| - 1] == NatString(n / 10);
    }
  }

  // ---------------------------------------------------------------------
  // The parser
  // ---------------------------------------------------------------------

  /** The explicit-pitch branch: split at index k, both halves through float(). */
  function FromExplicitPitch(rest: string, k: nat): (r: Result<MetricThread, EngineError>)
    requires k < |rest|
    ensures r.Success? <==> ParseDecimal(rest[..k]).Some? && ParseDecimal(rest[k + 1..]).Some?
    ensures r.Success? ==> r.value == MakeThread(ParseDecimal(rest[..k]).value, ParseDecimal(rest[k + 1..]).value)
  {
    match ParseDecimal(rest[..k])
    case None => Failure(InvalidNumber(rest[..k]))
    case Some(d) =>
      match ParseDecimal(rest[k + 1..])
      case None => Failure(InvalidNumber(rest[k + 1..]))
      case Some(p) => Success(MakeThread(d, p))
  }

  /** The bare-diameter branch. A non-integral diameter is looked up under
      its float repr ("M2.5"), which never names a table entry, since every
      key is "M" followed by digits; the model goes straight to the error. */
  function FromCoarsePitch(rest: string): (r: Result<MetricThread, EngineError>)
    ensures r.Success? <==>
      ParseDecimal(rest).Some? && ParseDecimal(rest).value == ParseDecimal(rest).value.Floor as real
      && CoarseKey(ParseDecimal(rest).value.Floor) in COARSE_PITCH
    ensures r.Success? ==>
      r.value == MakeThread(ParseDecimal(rest).value, COARSE_PITCH[CoarseKey(ParseDecimal(rest).value.Floor)])
  {
    match ParseDecimal(rest)
    case None => Failure(InvalidNumber(rest))
    case Some(d) =>
      if d == d.Floor as real && CoarseKey(d.Floor) in COARSE_PITCH
      then Success(MakeThread(d, COARSE_PITCH[CoarseKey(d.Floor)]))
      else Failure(NoCoarsePitch(d))
  }

  /** The reference definition of parse_metric_thread: after normalisation
      a leading 'M' is required; an 'X' (looked for before '-') splits the
      rest at its first occurrence into diameter and pitch; otherwise the
      rest is a bare diameter whose pitch comes from the coarse table.
      Nothing checks that the resulting stress area is positive. */
  function ParseThread(designation: string): (r: Result<MetricThread, EngineError>)
    ensures r.Success? ==> var s := Normalize(designation); |s| > 0 && s[0] == 'M'
    ensures r.Success? ==> r.value == MakeThread(r.value.D, r.value.p) && r.value.At >= 0.0
    ensures r.Failure? ==> r.error.InvalidDesignation? || r.error.InvalidNumber? || r.error.NoCoarsePitch?
  {
    var s := Normalize(designation);
    if |s| == 0 || s[0] != 'M' then Failure(InvalidDesignation(designation))
    else ParseAfterM(s[1..])
  }

  /** What follows the leading 'M': split at the first 'X', else at the
      first '-', else a bare diameter. */
  function ParseAfterM(rest: string): (r: Result<MetricThread, EngineError>)
    ensures r.Success? ==> r.value == MakeThread(r.value.D, r.value.p) && r.value.At >= 0.0
    ensures r.Failure? ==> r.error.InvalidNumber? || r.error.NoCoarsePitch?
    ensures r.Failure? && r.error.NoCoarsePitch? ==> 'X' !in rest && '-' !in rest
  {
    if 'X' in rest then FromExplicitPitch(rest, IndexOf(rest, 'X'))
    else if '-' in rest then FromExplicitPitch(rest, IndexOf(rest, '-'))
    else FromCoarsePitch(rest)
  }

  lemma ParseAfterMAtSeparator(rest: string, sep: char)
    requires sep in rest && (sep == 'X' || (sep == '-' && 'X' !in rest))
    ensures ParseAfterM(rest) == FromExplicitPitch(rest, IndexOf(rest, sep))
  {
  }

  lemma ParseAfterMBare(rest: string)
    requires 'X' !in rest && '-' !in rest
    ensures ParseAfterM(rest) == FromCoarsePitch(rest)
  {
  }

  /** parse_metric_thread, with its for/else loop over the two separators. */
  method ParseMetricThread(designation: string) returns (r: Result<MetricThread, EngineError>)
    ensures r == ParseThread(designation)
  {
    var s := Normalize(designation);
    if |s| == 0 || s[0] != 'M' {
      return Failure(InvalidDesignation(designation));
    }
    var rest := s[1..];
    assert ParseThread(designation) == ParseAfterM(rest);
    var separators := ['X', '-'];
    for i := 0 to |separators|
      invariant forall j :: 0 <= j < i ==> separators[j] !in rest
    {
      var sep := separators[i];
      if sep in rest {
        assert i == 1 ==> separators[0] !in rest;
        assert sep == 'X' || (sep == '-' && 'X' !in rest);
        var k := IndexOf(rest, sep);
        ParseAfterMAtSeparator(rest, sep);
        var dText, pText := rest[..k], rest[k + 1..];
        var d := ParseDecimal(dText);
        if d.None? {
          return Failure(InvalidNumber(dText));
        }
        var p := ParseDecimal(pText);
        if p.None? {
          return Failure(InvalidNumber(pText));
        }
        return Success(MakeThread(d.value, p.value));
      }
    }
    // the loop's else clause: no separator, so a bare diameter
    assert separators[0] !in rest && separators[1] !in rest;
    ParseAfterMBare(rest);
    var d := ParseDecimal(rest);
    if d.None? {
      return Failure(InvalidNumber(rest));
    }
    var D := d.value;
    // a key formatted from a non-integral value never names a table entry
    if D != D.Floor as real {
      return Failure(NoCoarsePitch(D));
    }
    var key := CoarseKey(D.Floor);
    if key !in COARSE_PITCH {
      return Failure(NoCoarsePitch(D));
    }
    r := Success(MakeThread(D, COARSE_PITCH[key]));
  }

  // ---------------------------------------------------------------------
  // Properties of the parser
  // ---------------------------------------------------------------------

  /** A designation whose normalised form does not start with 'M' is refused. */
  lemma ParseRequiresLeadingM(designation: string)
    requires var s := Normalize(designation); |s| == 0 || s[0] != 'M'
    ensures ParseThread(designation) == Failure(InvalidDesignation(designation))
  {
  }

  lemma {:induction false} RemoveSpacesIdentity(s: string)
    requires ' ' !in s
    ensures RemoveSpaces(s) == s
  {
    if s != [] {
      assert ' ' !in s[1..] by {
        forall i | 0 <= i < |s[1..]| ensures s[1..][i] != ' ' { assert s[1..][i] == s[i + 1]; }
      }
      RemoveSpacesIdentity(s[1..]);
      assert s == [s[0]] + s[1..];
    }
  }

  /** Normalisation leaves alone a string that starts and ends with a
      non-blank and holds no lower-case letter and no space. */
  lemma NormalizeIdentity(s: string)
    requires s != [] && !IsWhitespace(s[0]) && !IsWhitespace(s[|s| - 1])
    requires forall i :: 0 <= i < |s| ==> s[i] != ' ' && !('a' <= s[i] <= 'z')
    ensures Normalize(s) == s
  {
    assert StripLeading(s) == s;
    assert StripTrailing(s) == s;
    assert Upper(s) == s;
    RemoveSpacesIdentity(s);
  }

  /** Normalising twice is normalising once. */
  lemma NormalizeIdempotent(s: string)
    ensures Normalize(Normalize(s)) == Normalize(s)
  {
    var n := Normalize(s);
    NormalizeForm(s);
    if n == [] {
      assert Strip(n) == [] && Upper([]) == [] && RemoveSpaces([]) == [];
    } else {
      NormalizeIdentity(n);
    }
  }

  lemma IndexOfAfterPrefix(a: string, c: char, b: string)
    requires c !in a
    ensures c in a + [c] + b && IndexOf(a + [c] + b, c) == |a|
  {
    var w := a + [c] + b;
    assert w[|a|] == c;
    assert w[..|a|] == a;
  }

  /** The characters a decimal numeral may contain. */
  predicate NumeralText(s: string)
  {
    forall i :: 0 <= i < |s| ==> IsNumeralChar(s[i])
  }

  lemma UpperExplicitForm(a: string, b: string)
    requires NumeralText(a) && NumeralText(b)
    ensures Upper("M" + a + "x" + b) == "M" + a + "X" + b
  {
  }

  lemma NoSpaceExplicitForm(a: string, b: string)
    requires NumeralText(a) && NumeralText(b)
    ensures ' ' !in "M" + a + "X" + b
  {
  }

  /** "M<a>x<b>" normalises to "M<a>X<b>" for numeral texts a and b. */
  lemma NormalizeExplicitForm(a: string, b: string)
    requires NumeralText(a) && NumeralText(b) && b != []
    ensures Normalize("M" + a + "x" + b) == "M" + a + "X" + b
  {
    var w := "M" + a + "x" + b;
    assert StripLeading(w) == w;
    assert w[|w| - 1] == b[|b| - 1] && IsNumeralChar(b[|b| - 1]);
    assert StripTrailing(w) == w;
    UpperExplicitForm(a, b);
    NoSpaceExplicitForm(a, b);
    RemoveSpacesIdentity("M" + a + "X" + b);
  }

  lemma SplitExplicitForm(a: string, b: string)
    requires NumeralText(a)
    ensures ParseAfterM(a + "X" + b) == FromExplicitPitch(a + "X" + b, |a|)
  {
    assert 'X' !in a by {
      forall i | 0 <= i < |a| ensures a[i] != 'X' { assert IsNumeralChar(a[i]); }
    }
    IndexOfAfterPrefix(a, 'X', b);
    assert a + "X" + b == a + ['X'] + b;
  }

  lemma ParseAfterLeadingM(designation: string, n: string)
    requires Normalize(designation) == n && |n| > 0 && n[0] == 'M'
    ensures ParseThread(designation) == ParseAfterM(n[1..])
  {
  }

  lemma ParseNormalM(designation: string, rest: string)
    requires Normalize(designation) == "M" + rest
    ensures ParseThread(designation) == ParseAfterM(rest)
  {
    assert ("M" + rest)[1..] == rest;
    ParseAfterLeadingM(designation, "M" + rest);
  }

  lemma ParseExplicitPrefix(a: string, b: string)
    requires NumeralText(a) && NumeralText(b) && b != []
    ensures ParseThread("M" + a + "x" + b) == ParseAfterM(a + "X" + b)
  {
    NormalizeExplicitForm(a, b);
    assert "M" + a + "X" + b == "M" + (a + "X" + b);
    ParseNormalM("M" + a + "x" + b, a + "X" + b);
  }

  lemma ParseExplicitForm(a: string, b: string)
    requires NumeralText(a) && NumeralText(b) && b != []
    ensures ParseThread("M" + a + "x" + b) == FromExplicitPitch(a + "X" + b, |a|)
  {
    ParseExplicitPrefix(a, b);
    SplitExplicitForm(a, b);
  }

  /** Round trip of an explicit designation: parsing "M<a>x<b>" for two
      numerals a and b yields exactly the diameter and pitch they denote. */
  lemma ParseExplicitRoundTrip(a: string, b: string)
    requires ParseDecimal(a).Some? && ParseDecimal(b).Some?
    ensures ParseThread("M" + a + "x" + b) == Success(MakeThread(ParseDecimal(a).value, ParseDecimal(b).value))
  {
    NumeralChars(a);
    NumeralChars(b);
    ParseExplicitForm(a, b);
    var rest := a + "X" + b;
    assert rest[..|a|] == a;
    assert rest[|a| + 1..] == b;
  }

  /** An integral diameter with a fractional pitch, "M<w>x<pw>.<pf>", parses
      to D = w and p = pw + pf/10^|pf|. */
  lemma ParseFractionalPitch(w: string, pw: string, pf: string)
    requires w != [] && AllDigits(w) && AllDigits(pw) && AllDigits(pf) && |pw| + |pf| > 0
    ensures ParseThread("M" + w + "x" + (pw + ['.'] + pf))
      == Success(MakeThread(DigitsValue(w) as real, FracValue(pw, pf)))
  {
    ParseFraction(pw, pf);
    ParseExplicitRoundTrip(w, pw + ['.'] + pf);
  }

  /** The decimal rendering of a natural number is a plain numeral. */
  lemma NatStringParses(n: nat)
    ensures var digits := NatString(n);
      'X' !in digits && '-' !in digits && ParseDecimal(digits) == Some(n as real)
  {
    var digits := NatString(n);
    assert forall i :: 0 <= i < |digits| ==> IsDigit(digits[i]);
    assert '.' !in digits;
    NatStringValue(n);
  }

  /** A coarse-table key is already in normal form. */
  lemma CoarseKeyNormal(n: nat)
    ensures Normalize(CoarseKey(n)) == CoarseKey(n)
    ensures CoarseKey(n)[0] == 'M' && CoarseKey(n)[1..] == NatString(n)
  {
    var digits := NatString(n);
    var w := CoarseKey(n);
    assert w == "M" + digits;
    assert forall i :: 1 <= i < |w| ==> w[i] == digits[i - 1];
    NormalizeIdentity(w);
  }

  /** A bare table diameter parses to that diameter and its coarse pitch. */
  lemma ParseCoarseDigits(n: nat)
    requires CoarseKey(n) in COARSE_PITCH
    ensures ParseAfterM(NatString(n)) == Success(MakeThread(n as real, COARSE_PITCH[CoarseKey(n)]))
  {
    NatStringParses(n);
    ParseAfterMBare(NatString(n));
    assert (n as real).Floor == n;
  }

  lemma ParseCoarseRoundTrip(n: nat)
    requires CoarseKey(n) in COARSE_PITCH
    ensures ParseThread(CoarseKey(n)) == Success(MakeThread(n as real, COARSE_PITCH[CoarseKey(n)]))
  {
    var w := CoarseKey(n);
    CoarseKeyNormal(n);
    ParseAfterLeadingM(w, w);
    ParseCoarseDigits(n);
  }

  lemma M10Key()
    ensures CoarseKey(10) == "M10" && COARSE_PITCH["M10"] == 1.5
  {
  }

  lemma M10Area()
    ensures 57.98 < MakeThread(10.0, 1.5).At < 57.99
  {
  }

  /** parse_metric_thread("M10"): D = 10, the coarse pitch 1.5, At ≈ 58.0 mm². */
  lemma ParseM10()
    ensures ParseThread("M10").Success?
    ensures var t := ParseThread("M10").value; t.D == 10.0 && t.p == 1.5 && 57.98 < t.At < 57.99
  {
    M10Key();
    ParseCoarseRoundTrip(10);
    M10Area();
  }

  lemma Digits9382()
    ensures AllDigits("9382") && DigitsValue("9382") == 9382
  {
    assert DigitsValue("9") == 9;
    assert DigitsValue("93") == 93 by { assert "93"[..1] == "9"; }
    assert DigitsValue("938") == 938 by { assert "938"[..2] == "93"; }
    assert "9382"[..3] == "938";
  }

  lemma Numeral09382()
    ensures ParseDecimal("0.9382") == Some(0.9382)
  {
    var a := "0.9382";
    assert IndexOf(a, '.') == 1;
    assert a[..1] == "0" && a[2..] == "9382";
    assert DigitsValue("0") == 0;
    Digits9382();
    assert Pow10(4) == 10000;
  }

  lemma Numeral1()
    ensures ParseDecimal("1") == Some(1.0)
  {
  }

  /** The parser never refuses a thread on the degenerate line: "M0.9382x1"
      parses to a thread whose tensile stress area is zero. */
  lemma ParseAcceptsZeroStressArea()
    ensures ParseThread("M0.9382x1").Success?
    ensures ParseThread("M0.9382x1").value.At == 0.0
  {
    var a, b := "0.9382", "1";
    assert "M" + a + "x" + b == "M0.9382x1";
    Numeral09382();
    Numeral1();
    ParseExplicitRoundTrip(a, b);
    assert MakeThread(0.9382, 1.0).At == 0.0 by { assert Square(0.0) == 0.0; }
  }
}
