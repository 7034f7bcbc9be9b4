/** Small helpers shared by every module of the model. */
module Base {

  /** Python's `None`-or-value, used for optional fields and lookups that may fail. */
  datatype Option<+T> = None | Some(value: T)

  /** A value or the message of the `ValueError` the source raises instead. */
  datatype Result<+T> = Success(value: T) | Failure(error: string)

  /** Python's built-in `min` on two floats. */
  function Min(x: real, y: real): (r: real)
    ensures r <= x && r <= y
    ensures r == x || r == y
  {
    if x <= y then x else y
  }

  /** Python's built-in `max` on two floats. */
  function Max(x: real, y: real): (r: real)
    ensures x <= r && y <= r
    ensures r == x || r == y
  {
    if x >= y then x else y
  }

  /** Python's `int(x)` on a float: truncation toward zero. */
  function Trunc(x: real): (n: int)
    ensures x >= 0.0 ==> n as real <= x < n as real + 1.0
    ensures x < 0.0 ==> n as real - 1.0 < x <= n as real
  {
    if x >= 0.0 then x.Floor else -((-x).Floor)
  }

  /** Multiplication distributes over addition. */
  lemma Distribute(t: real, a: real, b: real)
    ensures t * (a + b) == t * a + t * b
  {
  }

  /** A quotient on a positive denominator compared with a bound. */
  lemma QuotientBounds(num: real, den: real, low: real, high: real)
    requires den > 0.0
    requires low * den <= num <= high * den
    ensures low <= num / den <= high
  {
    var q := num / den;
    assert q * den == num;
  }

  /** Multiplying by a non-negative weight keeps the order, when the weight is positive. */
  lemma ProductOrder(w: real, x: real, y: real)
    requires w >= 0.0
    requires w > 0.0 ==> x <= y
    ensures x * w <= y * w
  {
    if w > 0.0 {
      assert (y - x) * w >= 0.0;
    }
  }

  /** Dividing by a positive denominator keeps the order. */
  lemma QuotientOrder(a: real, b: real, den: real)
    requires den > 0.0 && a <= b
    ensures a / den <= b / den
  {
    assert b / den - a / den == (b - a) / den;
  }
}
