/** The static methods of CalculadoraGeometrica that compute one quantity each:
    parallax distance, angular separation (spherical law of cosines), real
    distance (planar law of cosines) and the parsec/light-year conversions.
    The Python and C++ versions are the same formulas. */
module Geometria {
  import opened Matematica
  import opened Coordenadas

  /** Distance in parsecs from a parallax in milliarcseconds; 0 is the
      sentinel for a parallax that is zero or negative. */
  function CalcularDistanciaParalaxe(paralaxeMas: real): (d: real)
    ensures paralaxeMas <= 0.0 ==> d == 0.0
    ensures paralaxeMas > 0.0 ==> d > 0.0 && d * paralaxeMas == 1000.0
  {
    if paralaxeMas <= 0.0 then 0.0 else 1000.0 / paralaxeMas
  }

  /** A larger parallax means a nearer star. */
  lemma ParalaxeDecrescente(p1: real, p2: real)
    requires 0.0 < p1 < p2
    ensures CalcularDistanciaParalaxe(p2) < CalcularDistanciaParalaxe(p1)
  {
    var d1, d2 := CalcularDistanciaParalaxe(p1), CalcularDistanciaParalaxe(p2);
    assert d1 == 1000.0 / p1 && d2 == 1000.0 / p2;
    assert d1 - d2 == 1000.0 * (p2 - p1) / (p1 * p2);
    assert p1 * p2 > 0.0 && p2 - p1 > 0.0;
  }

  /** max(-1, min(1, c)): the cosine forced into the domain of acos. */
  function Limitar(c: real): (r: real)
    ensures -1.0 <= r <= 1.0
    ensures -1.0 <= c <= 1.0 ==> r == c
    ensures c > 1.0 ==> r == 1.0
    ensures c < -1.0 ==> r == -1.0
  {
    var menor := if 1.0 < c then 1.0 else c;
    if -1.0 > menor then -1.0 else menor
  }

  /** Clamping twice is clamping once. */
  lemma LimitarIdempotente(c: real)
    ensures Limitar(Limitar(c)) == Limitar(c)
  {
  }

  /** The cosine of the separation, by the spherical law of cosines, before clamping. */
  function CosSeparacao(m: Biblioteca, alfa1: real, delta1: real, alfa2: real, delta2: real): real
  {
    m.sin(delta1) * m.sin(delta2) + m.cos(delta1) * m.cos(delta2) * m.cos(alfa1 - alfa2)
  }

  /** Angular separation in radians between (alfa1, delta1) and (alfa2, delta2). */
  function CalcularSeparacaoAngular(m: Biblioteca, alfa1: real, delta1: real, alfa2: real, delta2: real): (theta: real)
    requires Lei(m)
    ensures 0.0 <= theta <= PI
  {
    var cosTeta := CosSeparacao(m, alfa1, delta1, alfa2, delta2);
    assert ArcoEm(m, Limitar(cosTeta));
    m.acos(Limitar(cosTeta))
  }

  /** Swapping the two stars does not change their separation. */
  lemma SeparacaoSimetrica(m: Biblioteca, alfa1: real, delta1: real, alfa2: real, delta2: real)
    requires Lei(m)
    ensures CalcularSeparacaoAngular(m, alfa1, delta1, alfa2, delta2)
         == CalcularSeparacaoAngular(m, alfa2, delta2, alfa1, delta1)
  {
    assert ParidadeEm(m, alfa1 - alfa2);
    assert alfa2 - alfa1 == -(alfa1 - alfa2);
    var s1, s2, c1, c2 := m.sin(delta1), m.sin(delta2), m.cos(delta1), m.cos(delta2);
    var k := m.cos(alfa1 - alfa2);
    assert m.cos(alfa2 - alfa1) == k;
    assert CosSeparacao(m, alfa1, delta1, alfa2, delta2) == s1 * s2 + c1 * c2 * k;
    assert CosSeparacao(m, alfa2, delta2, alfa1, delta1) == s2 * s1 + c2 * c1 * k;
    assert s1 * s2 + c1 * c2 * k == s2 * s1 + c2 * c1 * k;
  }

  /** A star is at separation 0 from itself. */
  lemma SeparacaoDeSiMesma(m: Biblioteca, alfa: real, delta: real)
    requires Lei(m)
    ensures CalcularSeparacaoAngular(m, alfa, delta, alfa, delta) == 0.0
  {
    assert PitagorasEm(m, delta);
    assert m.cos(alfa - alfa) == 1.0;
    assert CosSeparacao(m, alfa, delta, alfa, delta) == 1.0;
  }

  /** The antipode (right ascension moved by PI, declination mirrored) is at separation PI. */
  lemma SeparacaoAntipoda(m: Biblioteca, alfa: real, delta: real)
    requires Lei(m)
    ensures CalcularSeparacaoAngular(m, alfa, delta, alfa + PI, -delta) == PI
  {
    assert ParidadeEm(m, PI) && ParidadeEm(m, delta) && PitagorasEm(m, delta);
    assert alfa - (alfa + PI) == -PI;
    assert m.cos(alfa - (alfa + PI)) == -1.0;
    assert CosSeparacao(m, alfa, delta, alfa + PI, -delta) == -1.0;
  }

  /** The radicand of the planar law of cosines. */
  function Radicando(m: Biblioteca, d1: real, d2: real, theta: real): real
  {
    d1 * d1 + d2 * d2 - 2.0 * d1 * d2 * m.cos(theta)
  }

  /** Under exact arithmetic the radicand is never negative: it lies between
      (|d1| - |d2|)^2 and (|d1| + |d2|)^2, which is why the source can take the
      square root without clamping. */
  lemma RadicandoLimitado(m: Biblioteca, d1: real, d2: real, theta: real)
    requires Lei(m)
    ensures Radicando(m, d1, d2, theta) >= 0.0
    ensures (Abs(d1) - Abs(d2)) * (Abs(d1) - Abs(d2)) <= Radicando(m, d1, d2, theta)
    ensures Radicando(m, d1, d2, theta) <= (Abs(d1) + Abs(d2)) * (Abs(d1) + Abs(d2))
  {
    CossenoLimitado(m, theta);
    LeiCossenosLimitada(d1, d2, m.cos(theta));
    var e := Abs(d1) - Abs(d2);
    assert e * e >= 0.0;
  }

  /** Real distance in parsecs between two stars at distances d1 and d2 seen at
      angular separation theta: sqrt(d1^2 + d2^2 - 2 d1 d2 cos theta). */
  function CalcularDistanciaReal(m: Biblioteca, distancia1: real, distancia2: real, separacaoAngular: real): (d: real)
    requires Lei(m)
    ensures d >= 0.0
    ensures d * d == distancia1 * distancia1 + distancia2 * distancia2
                     - 2.0 * distancia1 * distancia2 * m.cos(separacaoAngular)
  {
    RadicandoLimitado(m, distancia1, distancia2, separacaoAngular);
    var d1sq := distancia1 * distancia1;
    var d2sq := distancia2 * distancia2;
    var produto := 2.0 * distancia1 * distancia2 * m.cos(separacaoAngular);
    assert RaizEm(m, d1sq + d2sq - produto);
    m.sqrt(d1sq + d2sq - produto)
  }

  /** The real distance is symmetric in the two distances. */
  lemma DistanciaRealSimetrica(m: Biblioteca, d1: real, d2: real, theta: real)
    requires Lei(m)
    ensures CalcularDistanciaReal(m, d1, d2, theta) == CalcularDistanciaReal(m, d2, d1, theta)
  {
    assert Radicando(m, d1, d2, theta) == Radicando(m, d2, d1, theta);
  }

  /** Triangle inequality: | |d1| - |d2| | <= D <= |d1| + |d2|. */
  lemma DesigualdadeTriangular(m: Biblioteca, d1: real, d2: real, theta: real)
    requires Lei(m)
    ensures Abs(Abs(d1) - Abs(d2)) <= CalcularDistanciaReal(m, d1, d2, theta) <= Abs(d1) + Abs(d2)
  {
    RadicandoLimitado(m, d1, d2, theta);
    var d := CalcularDistanciaReal(m, d1, d2, theta);
    var a1, a2 := Abs(d1), Abs(d2);
    var lo := Abs(a1 - a2);
    assert lo * lo == (a1 - a2) * (a1 - a2);
    QuadradoMonotono(lo, d);
    QuadradoMonotono(d, a1 + a2);
  }

  /** With cos theta = 1 (separation 0) the distance is |d1 - d2|. */
  lemma DistanciaRealAlinhadas(m: Biblioteca, d1: real, d2: real, theta: real)
    requires Lei(m) && m.cos(theta) == 1.0
    ensures CalcularDistanciaReal(m, d1, d2, theta) == Abs(d1 - d2)
  {
    assert Radicando(m, d1, d2, theta) == (d1 - d2) * (d1 - d2);
    RaizDoQuadrado(m, Radicando(m, d1, d2, theta), d1 - d2);
  }

  /** With cos theta = -1 (separation PI) the distance of non-negative d1, d2 is d1 + d2. */
  lemma DistanciaRealOpostas(m: Biblioteca, d1: real, d2: real, theta: real)
    requires Lei(m) && m.cos(theta) == -1.0
    requires d1 >= 0.0 && d2 >= 0.0
    ensures CalcularDistanciaReal(m, d1, d2, theta) == d1 + d2
  {
    assert Radicando(m, d1, d2, theta) == (d1 + d2) * (d1 + d2);
    RaizDoQuadrado(m, Radicando(m, d1, d2, theta), d1 + d2);
  }

  /** The three boundary separations 0, PI and PI/2. */
  lemma DistanciaRealCasosLimite(m: Biblioteca, d: real, d1: real, d2: real)
    requires Lei(m)
    ensures CalcularDistanciaReal(m, d, d, 0.0) == 0.0
    ensures d1 >= 0.0 && d2 >= 0.0 ==> CalcularDistanciaReal(m, d1, d2, PI) == d1 + d2
    ensures CalcularDistanciaReal(m, d1, d2, PI / 2.0) == m.sqrt(d1 * d1 + d2 * d2)
  {
    DistanciaRealAlinhadas(m, d, d, 0.0);
    if d1 >= 0.0 && d2 >= 0.0 {
      DistanciaRealOpostas(m, d1, d2, PI);
    }
  }

  /** Parsecs to light-years. */
  function ParsecsParaAnosLuz(parsecs: real): (anosLuz: real)
    ensures anosLuz / 3.26156 == parsecs
  {
    parsecs * PARSEC_PARA_ANOS_LUZ
  }

  /** Light-years to parsecs. */
  function AnosLuzParaParsecs(anosLuz: real): (parsecs: real)
    ensures parsecs * 3.26156 == anosLuz
  {
    anosLuz / PARSEC_PARA_ANOS_LUZ
  }

  /** The two conversions are inverse to each other, in both orders. */
  lemma ConversaoIdaEVolta(x: real)
    ensures AnosLuzParaParsecs(ParsecsParaAnosLuz(x)) == x
    ensures ParsecsParaAnosLuz(AnosLuzParaParsecs(x)) == x
  {
  }
}
