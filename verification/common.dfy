// Small value types and numeric helpers shared by every module of the model.
// Kotlin `Float` is modelled as `real`, `Int` as unbounded `int`.

module Common {

  datatype Option<T> = None | Some(value: T)

  /** The exceptions the modelled Kotlin code can raise on its own. */
  datatype Error =
    | IllegalState          // `throw IllegalStateException(...)`
    | Arithmetic            // integer division by zero
    | NullPointer           // `!!` applied to null
    | IndexOutOfBounds      // a MuPDF page index outside the document
    | IllegalArgument       // `Bitmap.createBitmap` with a side that is not positive

  datatype Result<T> = Ok(value: T) | Err(error: Error)

  function Min(a: int, b: int): (m: int)
    ensures m <= a && m <= b && (m == a || m == b)
  {
    if a <= b then a else b
  }

  function Max(a: int, b: int): (m: int)
    ensures m >= a && m >= b && (m == a || m == b)
  {
    if a >= b then a else b
  }

  function MinR(a: real, b: real): real { if a <= b then a else b }

  function MaxR(a: real, b: real): real { if a >= b then a else b }

  function AbsR(r: real): real { if r >= 0.0 then r else -r }

  /** `kotlin.math.floor`, followed by `toInt()` where the source converts. */
  function Floor(r: real): (f: int)
    ensures f as real <= r < f as real + 1.0
  {
    r.Floor
  }

  /** `kotlin.math.ceil`. */
  function Ceil(r: real): (c: int)
    ensures c as real - 1.0 < r <= c as real
  {
    -((-r).Floor)
  }

  /** `Float.toInt()`: truncation toward zero. */
  function Trunc(r: real): (t: int)
    ensures r >= 0.0 ==> 0 <= t && t as real <= r < t as real + 1.0
    ensures r < 0.0 ==> t <= 0 && t as real - 1.0 < r <= t as real
  {
    if r >= 0.0 then r.Floor else -((-r).Floor)
  }

  /** Kotlin `Int / Int`: the quotient truncated toward zero; division by zero throws. */
  function KotlinDiv(a: int, b: int): (q: Result<int>)
    ensures b == 0 <==> q.Err?
    ensures b > 0 && a >= 0 ==> q == Ok(a / b)
  {
    if b == 0 then Err(Arithmetic)
    else
      var m := (if a < 0 then -a else a) / (if b < 0 then -b else b);
      Ok(if (a < 0) != (b < 0) then -m else m)
  }

  /** Kotlin `coerceIn(lo, hi)`. */
  function Clamp(v: real, lo: real, hi: real): (c: real)
    requires lo <= hi
    ensures lo <= c <= hi
    ensures lo <= v <= hi ==> c == v
  {
    if v < lo then lo else if v > hi then hi else v
  }
}
