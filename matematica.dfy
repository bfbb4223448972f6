/** The few facts about the floating-point math library (sin, cos, acos, sqrt)
    that the calculation core relies on. The library itself is outside the
    model: every operation that calls it takes a `Biblioteca` value and
    requires `Lei(m)`, the laws below, over exact real arithmetic. */
module Matematica {

  /** pi as written in the C++ header (Python uses the nearest double). */
  const PI: real := 3.14159265358979323846

  /** The four library functions the core calls. */
  datatype Biblioteca = Biblioteca(
    sin: real -> real,
    cos: real -> real,
    acos: real -> real,
    sqrt: real -> real)

  /** sqrt is the non-negative square root at x (when x is non-negative). */
  ghost predicate RaizEm(m: Biblioteca, x: real)
  {
    0.0 <= x ==> 0.0 <= m.sqrt(x) && m.sqrt(x) * m.sqrt(x) == x
  }

  /** cos is even and sin is odd at x. */
  ghost predicate ParidadeEm(m: Biblioteca, x: real)
  {
    m.cos(-x) == m.cos(x) && m.sin(-x) == -m.sin(x)
  }

  /** The Pythagorean identity at x. */
  ghost predicate PitagorasEm(m: Biblioteca, x: real)
  {
    m.sin(x) * m.sin(x) + m.cos(x) * m.cos(x) == 1.0
  }

  /** acos maps c into [0, PI] when c is in [-1, 1]. */
  ghost predicate ArcoEm(m: Biblioteca, c: real)
  {
    -1.0 <= c <= 1.0 ==> 0.0 <= m.acos(c) <= PI
  }

  /** The laws an exact math library satisfies, with the constant PI standing
      for π itself (the literal's tiny gap to π is not modelled).
      Each law is a predicate at one point, so that a proof uses it only
      where it names that point. */
  ghost predicate Lei(m: Biblioteca)
  {
    && (forall x :: RaizEm(m, x))
    && (forall x :: ParidadeEm(m, x))
    && (forall x :: PitagorasEm(m, x))
    && (forall c :: ArcoEm(m, c))
    // the special values the core's boundary cases meet
    && m.cos(0.0) == 1.0 && m.cos(PI) == -1.0 && m.cos(PI / 2.0) == 0.0
    && m.acos(1.0) == 0.0 && m.acos(-1.0) == PI
  }

  function Abs(x: real): real
  {
    if x < 0.0 then -x else x
  }

  /** On two non-negative reals, comparing squares compares the values. */
  lemma QuadradoMonotono(a: real, b: real)
    requires 0.0 <= a && 0.0 <= b
    ensures a * a <= b * b <==> a <= b
  {
    if a <= b {
      assert b * b - a * a == (b - a) * (b + a) >= 0.0;
    } else {
      var d, e := a - b, a + b;
      assert d > 0.0 && e > 0.0;
      assert d * e > 0.0;
      assert a * a - b * b == d * e;
    }
  }

  /** A product with a factor in [-1, 1] is bounded by the other factor's magnitude. */
  lemma LimiteProduto(p: real, c: real)
    requires -1.0 <= c <= 1.0
    ensures -Abs(p) <= p * c <= Abs(p)
  {
    var q, a, b := Abs(p), 1.0 - c, c + 1.0;
    assert q >= 0.0 && a >= 0.0 && b >= 0.0;
    assert q * a >= 0.0 && q * b >= 0.0;
    assert q * a == q - q * c && q * b == q * c + q;
  }

  /** d1^2 + d2^2 - 2 d1 d2 c, for c in [-1, 1], lies between (|d1| - |d2|)^2 and (|d1| + |d2|)^2. */
  lemma LeiCossenosLimitada(d1: real, d2: real, c: real)
    requires -1.0 <= c <= 1.0
    ensures (Abs(d1) - Abs(d2)) * (Abs(d1) - Abs(d2)) <= d1 * d1 + d2 * d2 - 2.0 * d1 * d2 * c
    ensures d1 * d1 + d2 * d2 - 2.0 * d1 * d2 * c <= (Abs(d1) + Abs(d2)) * (Abs(d1) + Abs(d2))
  {
    var p := d1 * d2;
    LimiteProduto(p, c);
    var a1, a2 := Abs(d1), Abs(d2);
    assert a1 * a2 == Abs(p);
    assert a1 * a1 == d1 * d1 && a2 * a2 == d2 * d2;
    assert 2.0 * d1 * d2 * c == 2.0 * (p * c);
    assert (a1 - a2) * (a1 - a2) == a1 * a1 + a2 * a2 - 2.0 * (a1 * a2);
    assert (a1 + a2) * (a1 + a2) == a1 * a1 + a2 * a2 + 2.0 * (a1 * a2);
  }

  /** The square root of a square is the absolute value. */
  lemma RaizDoQuadrado(m: Biblioteca, x: real, y: real)
    requires Lei(m)
    requires x == y * y
    ensures m.sqrt(x) == Abs(y)
  {
    var a := Abs(y);
    assert a * a == x;
    var s := m.sqrt(x);
    assert RaizEm(m, x);
    QuadradoMonotono(s, a);
    QuadradoMonotono(a, s);
  }

  /** cos never leaves [-1, 1]. */
  lemma CossenoLimitado(m: Biblioteca, x: real)
    requires Lei(m)
    ensures -1.0 <= m.cos(x) <= 1.0
  {
    var c := m.cos(x);
    var a := Abs(c);
    assert PitagorasEm(m, x);
    assert m.sin(x) * m.sin(x) >= 0.0;
    assert a * a == c * c <= 1.0 * 1.0;
    QuadradoMonotono(a, 1.0);
  }
}
