/** Small helpers shared by the whole model: the nullable-result wrapper and the
    C#/Unity arithmetic whose semantics differ from Dafny's built-ins. */
module Common {

  /** A reference that may be null, or a lookup that may fail. */
  datatype Option<T> = None | Some(value: T)

  /** C#'s `/` on int truncates toward zero (Dafny's `/` is Euclidean). */
  function CsDiv(a: int, b: int): (q: int)
    requires b > 0
    ensures a >= 0 ==> q * b <= a < q * b + b
    ensures a < 0 ==> q * b - b < a <= q * b
  {
    if a >= 0 then a / b else -((-a) / b)
  }

  /** C#'s `%` on int: the remainder takes the sign of the dividend. */
  function CsRem(a: int, b: int): (r: int)
    requires b > 0
    ensures a == CsDiv(a, b) * b + r
    ensures a >= 0 ==> 0 <= r < b
    ensures a < 0 ==> -b < r <= 0
  {
    a - CsDiv(a, b) * b
  }

  /** The C# cast `(int)x` of a float: truncation toward zero. */
  function Truncate(x: real): (n: int)
    ensures x >= 0.0 ==> n as real <= x < n as real + 1.0
    ensures x < 0.0 ==> n as real - 1.0 < x <= n as real
  {
    if x >= 0.0 then x.Floor else -((-x).Floor)
  }

  /** Unity's Mathf.Clamp: raise to `lo`, else lower to `hi`. */
  function Clamp(v: real, lo: real, hi: real): (r: real)
    ensures lo <= hi ==> lo <= r <= hi
    ensures lo <= v <= hi ==> r == v
    ensures v < lo ==> r == lo
    ensures lo <= v && hi < v ==> r == hi
  {
    if v < lo then lo else if v > hi then hi else v
  }

  // Monotonicity of multiplication, stated as implications so that callers can
  // use them without case splits.

  lemma MulMonotone(x: int, y: int, n: int)
    ensures x <= y && n >= 0 ==> x * n <= y * n
  {
  }

  lemma MulStep(x: int, n: int)
    ensures (x + 1) * n == x * n + n
  {
  }

  /** `x * size`, kept behind a name so that comparisons of two multiples of the
      same length stay linear for the solver. */
  function Scale(x: real, size: real): real
  {
    x * size
  }

  lemma ScaleMonotone(x: real, y: real, size: real)
    ensures x <= y && size >= 0.0 ==> Scale(x, size) <= Scale(y, size)
    ensures x < y && size > 0.0 ==> Scale(x, size) < Scale(y, size)
  {
  }

  /** Dividing by a positive length and scaling back is the identity. */
  lemma DivThenScale(d: real, size: real)
    requires size > 0.0
    ensures Scale(d / size, size) == d
  {
  }
}
