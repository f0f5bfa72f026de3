/** Kotlin's integer `/` and `%`, which truncate toward zero (Dafny's
    are Euclidean). */
module KotlinInt {

  /** `a / b` on Kotlin integers: the quotient rounded toward zero. */
  function TDiv(a: int, b: int): (q: int)
    requires b != 0
    ensures a >= 0 && b > 0 ==> q == a / b
    ensures (a >= 0) == (b > 0) ==> q >= 0
    ensures (a >= 0) != (b > 0) ==> q <= 0
  {
    if a >= 0 then (if b > 0 then a / b else -(a / -b))
    else (if b > 0 then -((-a) / b) else (-a) / (-b))
  }

  /** `a % b` on Kotlin integers: the remainder takes the sign of `a`. */
  function TRem(a: int, b: int): (r: int)
    requires b != 0
    ensures a == TDiv(a, b) * b + r
    ensures a >= 0 ==> 0 <= r
    ensures a < 0 ==> r <= 0
    ensures -b < r < b || b < r < -b
  {
    a - TDiv(a, b) * b
  }

  /** The Euclidean quotient is the unique one with a remainder in range. */
  lemma DivUnique(a: int, d: int, q: int, r: int)
    requires d > 0 && 0 <= r < d && a == q * d + r
    ensures a / d == q && a % d == r
  {
    var q0, r0 := a / d, a % d;
    assert q0 * d + r0 == q * d + r;
    if q0 != q {
      var k := if q0 > q then q0 - q else q - q0;
      assert k * d == (if q0 > q then r - r0 else r0 - r);
      MulAtLeast(k, d);
    }
  }

  /** A positive multiple of `d` is at least `d`. */
  lemma MulAtLeast(k: int, d: int)
    requires k >= 1 && d > 0
    ensures k * d >= d
  {
    assert k * d == (k - 1) * d + d;
    assert (k - 1) * d >= 0;
  }

  /** Multiplying by a non-negative factor keeps order. */
  lemma MulMono(x: int, y: int, s: int)
    requires x <= y && s >= 0
    ensures x * s <= y * s
  {
    assert y * s - x * s == (y - x) * s;
  }

  lemma RegroupProduct(q: int, c: int, r: int, b: int)
    ensures (q * c + r) * b == q * (b * c) + r * b
  {
  }

  /** For a non-negative dividend, `(n / b) / c == n / (b * c)`. */
  lemma DivDiv(n: int, b: int, c: int)
    requires n >= 0 && b > 0 && c > 0
    ensures (n / b) / c == n / (b * c)
  {
    var q1, r1 := n / b, n % b;
    var q2, r2 := q1 / c, q1 % c;
    RegroupProduct(q2, c, r2, b);
    assert n == q2 * (b * c) + (r2 * b + r1);
    MulMono(r2, c - 1, b);
    assert (c - 1) * b == b * c - b;
    MulMono(0, r2, b);
    DivUnique(n, b * c, q2, r2 * b + r1);
  }

  /** Dividing twice, by `b` then by `c`, is dividing once by `b * c`, for
      any sign of the dividend. */
  lemma NestedTDiv(a: int, b: int, c: int)
    requires b > 0 && c > 0
    ensures TDiv(TDiv(a, b), c) == TDiv(a, b * c)
  {
    if a >= 0 {
      DivDiv(a, b, c);
    } else {
      DivDiv(-a, b, c);
      assert TDiv(a, b) == -((-a) / b);
      assert TDiv(a, b * c) == -((-a) / (b * c));
    }
  }
}
