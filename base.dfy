/** Shared value types of the thread-engagement engine: optional and
    fallible results, the engine's error taxonomy, and the extended reals
    that stand for Python's float('inf'). */
module Base {

  datatype Option<+T> = None | Some(value: T)

  datatype Result<+T, +E> = Success(value: T) | Failure(error: E)

  /** Every error the engine raises is a Python ValueError; the variants
      record which guard raised it and with what. */
  datatype EngineError =
    | InvalidDesignation(designation: string)  // no leading 'M'
    | InvalidNumber(text: string)              // float() refused the text
    | NoCoarsePitch(diameter: real)            // bare diameter not in the coarse table
    | InvalidGeometryOrMaterial                // As_factor <= 0 or tau_allow <= 0
    | MaterialNotFound(key: string)            // unknown catalog key
    | NoLoadCases                              // max() over an empty list

  /** A float that is finite or one of the two IEEE infinities. */
  datatype Ext = Finite(r: real) | PosInf | NegInf

  /** Python's `x / d` for a non-zero finite divisor d. */
  function DivBy(x: Ext, d: real): (q: Ext)
    requires d != 0.0
    ensures x.Finite? <==> q.Finite?
    ensures x.Finite? ==> q.r * d == x.r
    ensures !x.Finite? ==> (q.PosInf? <==> (x.PosInf? == (d > 0.0)))
  {
    match x
    case Finite(v) => Finite(v / d)
    case PosInf => if d > 0.0 then PosInf else NegInf
    case NegInf => if d > 0.0 then NegInf else PosInf
  }

  /** Python's `x > c` for a finite c. */
  predicate Above(x: Ext, c: real)
  {
    match x
    case Finite(v) => v > c
    case PosInf => true
    case NegInf => false
  }

  /** Python's `x < c` for a finite c. */
  predicate Below(x: Ext, c: real)
  {
    match x
    case Finite(v) => v < c
    case PosInf => false
    case NegInf => true
  }

  function Min(a: real, b: real): (m: real)
    ensures m <= a && m <= b
    ensures m == a || m == b
  {
    if a <= b then a else b
  }
}
