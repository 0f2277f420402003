/** The JavaScript number operations the model needs, on exact reals and
    integers: rounding, the truncating `%` operator, `Math.min`/`Math.max`
    and the typed-array byte conversions ToUint8 (ECMA-262 section 7.1.11)
    and ToUint8Clamp (ECMA-262 section 7.1.12). */
module Numbers {

  /** `Math.floor` */
  function Floor(x: real): (r: int)
    ensures r as real <= x < r as real + 1.0
  {
    x.Floor
  }

  /** `Math.ceil` */
  function Ceil(x: real): (r: int)
    ensures r as real - 1.0 < x <= r as real
  {
    -((-x).Floor)
  }

  /** `Math.trunc`: rounds toward zero. */
  function Trunc(x: real): (r: int)
    ensures x >= 0.0 ==> r == Floor(x)
    ensures x < 0.0 ==> r == Ceil(x)
  {
    if x >= 0.0 then Floor(x) else Ceil(x)
  }

  function Abs(x: int): nat { if x < 0 then -x else x }

  function Min(a: int, b: int): int { if a <= b then a else b }

  function Max(a: int, b: int): int { if a >= b then a else b }

  function MinReal(a: real, b: real): real { if a <= b then a else b }

  function MaxReal(a: real, b: real): real { if a >= b then a else b }

  /** JavaScript `a % b` on integers, for a positive divisor: the remainder of
      the division truncated toward zero, so it takes the sign of the
      dividend. */
  function JsRem(a: int, b: int): (r: int)
    requires b > 0
    ensures -b < r < b
    ensures a >= 0 ==> r == a % b
    ensures a <= 0 ==> r <= 0
  {
    if a >= 0 then a % b else -((-a) % b)
  }

  lemma ScaleBelowOne(d: real, b: real)
    requires -1.0 < d < 1.0 && b > 0.0
    ensures -b < d * b < b
  {
    assert (1.0 - d) * b > 0.0;
    assert (1.0 + d) * b > 0.0;
  }

  lemma ScaleSign(d: real, b: real)
    requires b > 0.0
    ensures d >= 0.0 ==> d * b >= 0.0
    ensures d <= 0.0 ==> d * b <= 0.0
  {
    if d < 0.0 {
      assert (-d) * b >= 0.0;
    }
  }

  /** What is left of `a` once `t` whole multiples of `b` are taken away,
      for `t` within one of the quotient `q` of `a` by `b`: below `b` in
      size. */
  lemma RemainderBelow(a: real, b: real, q: real, t: real)
    requires b > 0.0 && q * b == a
    requires -1.0 < q - t < 1.0
    ensures -b < a - t * b < b
  {
    var d := q - t;
    ScaleBelowOne(d, b);
    var p := d * b;
    Distribute(q, t, b);
    var tb := t * b;
    assert p == a - tb;
  }

  /** ... and of the sign of `q` when `t` lies between 0 and `q`. */
  lemma RemainderSign(a: real, b: real, q: real, t: real)
    requires b > 0.0 && q * b == a
    requires q >= 0.0 ==> q - t >= 0.0
    requires q <= 0.0 ==> q - t <= 0.0
    ensures q >= 0.0 ==> 0.0 <= a - t * b
    ensures q <= 0.0 ==> a - t * b <= 0.0
  {
    var d := q - t;
    ScaleSign(d, b);
    var p := d * b;
    Distribute(q, t, b);
    var tb := t * b;
    assert p == a - tb;
  }

  /** Dividing by a positive number keeps the sign. */
  lemma QuotientSign(a: real, b: real)
    requires b > 0.0
    ensures a >= 0.0 ==> a / b >= 0.0
    ensures a <= 0.0 ==> a / b <= 0.0
  {
  }

  lemma Distribute(x: real, y: real, b: real)
    ensures (x - y) * b == x * b - y * b
  {
  }

  lemma DivMul(a: real, b: real)
    requires b != 0.0
    ensures (a / b) * b == a
  {
  }

  /** JavaScript `a % b` on numbers, for a positive divisor. */
  function JsRemReal(a: real, b: real): (r: real)
    requires b > 0.0
    ensures -b < r < b
    ensures a >= 0.0 ==> 0.0 <= r
    ensures a <= 0.0 ==> r <= 0.0
    ensures a - r == (Trunc(a / b) as real) * b
  {
    var t := Trunc(a / b) as real;
    DivMul(a, b);
    QuotientSign(a, b);
    RemainderBelow(a, b, a / b, t);
    RemainderSign(a, b, a / b, t);
    a - t * b
  }

  /** An element of a `Uint8Array` or `Uint8ClampedArray`. */
  newtype Byte = x: int | 0 <= x < 256

  /** ToUint8: truncate toward zero, then reduce modulo 2^8. */
  function ToUint8(x: real): (r: int)
    ensures 0 <= r < 256
    ensures 0.0 <= x < 256.0 ==> r == Floor(x)
  {
    Trunc(x) % 256
  }

  /** ToUint8Clamp: clamp into [0, 255], then round half to even. */
  function ToUint8Clamp(x: real): (r: int)
    ensures 0 <= r < 256
    ensures x == Floor(x) as real && 0.0 <= x <= 255.0 ==> r == Floor(x)
    ensures x <= 0.0 ==> r == 0
    ensures x >= 255.0 ==> r == 255
  {
    if x <= 0.0 then 0
    else if x >= 255.0 then 255
    else
      var f := Floor(x);
      if x < f as real + 0.5 then f
      else if x > f as real + 0.5 then f + 1
      else if f % 2 == 0 then f else f + 1
  }

  /** Multiplying by a natural number keeps order. */
  lemma MulMono(a: int, b: int, w: int)
    requires a <= b && 0 <= w
    ensures a * w <= b * w
  {
  }

  /** One more row of `w`. */
  lemma MulSucc(x: int, w: int)
    ensures (x + 1) * w == x * w + w
  {
  }

  /** The quotient and remainder of a row-major index. */
  lemma DivModOf(x: int, y: int, w: int)
    requires 0 <= x && 0 <= y < w
    ensures (x * w + y) / w == x && (x * w + y) % w == y
  {
    var n := x * w + y;
    var q := n / w;
    var r := n % w;
    assert n == q * w + r;
    if q > x {
      MulMono(x + 1, q, w);
      MulSucc(x, w);
    } else if q < x {
      MulMono(q + 1, x, w);
      MulSucc(q, w);
    }
  }

  /** The cells of a `w`×`w` grid are below w·w. */
  lemma CellInRange(x: int, y: int, w: int)
    requires 0 <= x < w && 0 <= y < w
    ensures 0 <= x * w + y < w * w
  {
    MulMono(x + 1, w, w);
    MulSucc(x, w);
  }
}
