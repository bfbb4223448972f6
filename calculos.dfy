/** The Python module: the Estrela dataclass with its derived properties, the
    ResultadoCalculo record and the aggregator that fills it from two stars. */
module Calculos {
  import opened Matematica
  import opened Coordenadas
  import opened Geometria

  datatype Option<T> = None | Some(value: T)

  /** A star: name, right ascension, declination and parallax in milliarcseconds.
      The distances and the angles in radians are derived on demand. */
  datatype Estrela = Estrela(
    nome: string,
    ascensaoReta: CoordenadaHMS,
    declinacao: CoordenadaDMS,
    paralaxeMas: real)
  {
    /** Distance in parsecs; 0 when the parallax is not positive. */
    function DistanciaParsecs(): (d: real)
      ensures paralaxeMas > 0.0 ==> d > 0.0 && d * paralaxeMas == 1000.0
      ensures paralaxeMas <= 0.0 ==> d == 0.0
    {
      if paralaxeMas > 0.0 then 1000.0 / paralaxeMas else 0.0
    }

    /** Distance in light-years; 0 as well when the parallax is not positive. */
    function DistanciaAnosLuz(): (l: real)
      ensures paralaxeMas > 0.0 ==> l > 0.0 && l * paralaxeMas == 1000.0 * PARSEC_PARA_ANOS_LUZ
      ensures paralaxeMas <= 0.0 ==> l == 0.0
      ensures l / PARSEC_PARA_ANOS_LUZ == DistanciaParsecs()
    {
      DistanciaParsecs() * PARSEC_PARA_ANOS_LUZ
    }

    /** Right ascension in radians: hours times PI / 12. */
    function AlfaRad(): (a: real)
      ensures a == (ascensaoReta.horas as real + ascensaoReta.minutos as real / 60.0
                    + ascensaoReta.segundos / 3600.0) * PI / 12.0
    {
      ascensaoReta.ParaRadianos()
    }

    /** Declination in radians, signed by the hemisphere flag alone. */
    function DeltaRad(): (d: real)
      ensures d == declinacao.ParaGraus() * PI / 180.0
      ensures declinacao.minutos >= 0 && declinacao.segundos >= 0.0 ==>
                (if declinacao.positivo then d >= 0.0 else d <= 0.0)
    {
      declinacao.ParaRadianos()
    }
  }

  /** Construction with the dataclass defaults; a missing coordinate becomes
      0h 0m 0s or +0 0' 0" after construction. */
  function NovaEstrela(nome: string := "Estrela",
                       ascensaoReta: Option<CoordenadaHMS> := None,
                       declinacao: Option<CoordenadaDMS> := None,
                       paralaxeMas: real := 0.0): (e: Estrela)
    ensures e.nome == nome && e.paralaxeMas == paralaxeMas
    ensures e.ascensaoReta == if ascensaoReta.Some? then ascensaoReta.value else CoordenadaHMS(0, 0, 0.0)
    ensures e.declinacao == if declinacao.Some? then declinacao.value else CoordenadaDMS(0, 0, 0.0, true)
  {
    var ar := if ascensaoReta.None? then CoordenadaHMS(0, 0, 0.0) else ascensaoReta.value;
    var dec := if declinacao.None? then CoordenadaDMS(0, 0, 0.0, true) else declinacao.value;
    Estrela(nome, ar, dec, paralaxeMas)
  }

  /** A default star sits at the origin of both coordinates and has the sentinel distance. */
  lemma EstrelaPadrao()
    ensures var e := NovaEstrela();
      e.nome == "Estrela" && e.AlfaRad() == 0.0 && e.DeltaRad() == 0.0
      && e.DistanciaParsecs() == 0.0 && e.DistanciaAnosLuz() == 0.0
  {
  }

  /** The property and the static method compute the same distance. */
  lemma PropriedadeConcordaComMetodo(e: Estrela)
    ensures e.DistanciaParsecs() == CalcularDistanciaParalaxe(e.paralaxeMas)
    ensures e.DistanciaAnosLuz() == ParsecsParaAnosLuz(CalcularDistanciaParalaxe(e.paralaxeMas))
  {
  }

  /** Result of comparing two stars. */
  datatype ResultadoCalculo = ResultadoCalculo(
    nomeEstrela1: string,
    nomeEstrela2: string,
    separacaoAngularRad: real,
    separacaoAngularGraus: real,
    distancia1Parsecs: real,
    distancia2Parsecs: real,
    distanciaRealParsecs: real,
    distanciaRealAnosLuz: real,
    metodoUsado: string,
    equacaoUsada: string)

  /** The record as the dataclass defaults leave it. */
  const RESULTADO_VAZIO: ResultadoCalculo :=
    ResultadoCalculo("", "", 0.0, 0.0, 0.0, 0.0, 0.0, 0.0, "", "")

  const METODO_USADO: string := "Lei dos Cossenos Esférica + Distância 3D"

  /** How the aggregator wires `r` from the two stars: names copied, each
      distance from its own star's parallax, the separation from
      (alfa1, delta1, alfa2, delta2) in that order, the real distance from the
      record's own two distances and separation, the fixed method name, and the
      derivation text generated from the record before the text is stored. */
  ghost predicate Preenchido(m: Biblioteca, e1: Estrela, e2: Estrela,
                             gerarTexto: ResultadoCalculo -> string, r: ResultadoCalculo)
    requires Lei(m)
  {
    && r.nomeEstrela1 == e1.nome
    && r.nomeEstrela2 == e2.nome
    && r.distancia1Parsecs == CalcularDistanciaParalaxe(e1.paralaxeMas)
    && r.distancia2Parsecs == CalcularDistanciaParalaxe(e2.paralaxeMas)
    && r.separacaoAngularRad == CalcularSeparacaoAngular(m, e1.AlfaRad(), e1.DeltaRad(), e2.AlfaRad(), e2.DeltaRad())
    && r.separacaoAngularGraus == r.separacaoAngularRad * GRAUS_POR_RADIANO
    && r.distanciaRealParsecs == CalcularDistanciaReal(m, r.distancia1Parsecs, r.distancia2Parsecs, r.separacaoAngularRad)
    && r.distanciaRealAnosLuz == r.distanciaRealParsecs * PARSEC_PARA_ANOS_LUZ
    && r.metodoUsado == METODO_USADO
    && r.equacaoUsada == gerarTexto(r.(equacaoUsada := ""))
  }

  /** Fills a fresh record field by field from the two stars. The text
      formatter is a parameter (its float formatting is not modelled). */
  method CalcularDistanciaEntreEstrelas(m: Biblioteca, estrela1: Estrela, estrela2: Estrela,
                                        gerarTexto: ResultadoCalculo -> string)
    returns (resultado: ResultadoCalculo)
    requires Lei(m)
    ensures Preenchido(m, estrela1, estrela2, gerarTexto, resultado)
  {
    resultado := RESULTADO_VAZIO;

    resultado := resultado.(nomeEstrela1 := estrela1.nome);
    resultado := resultado.(nomeEstrela2 := estrela2.nome);

    var alfa1 := estrela1.AlfaRad();
    var delta1 := estrela1.DeltaRad();
    var alfa2 := estrela2.AlfaRad();
    var delta2 := estrela2.DeltaRad();

    resultado := resultado.(distancia1Parsecs := CalcularDistanciaParalaxe(estrela1.paralaxeMas));
    resultado := resultado.(distancia2Parsecs := CalcularDistanciaParalaxe(estrela2.paralaxeMas));

    resultado := resultado.(separacaoAngularRad := CalcularSeparacaoAngular(m, alfa1, delta1, alfa2, delta2));
    resultado := resultado.(separacaoAngularGraus := resultado.separacaoAngularRad * GRAUS_POR_RADIANO);

    resultado := resultado.(distanciaRealParsecs := CalcularDistanciaReal(m,
      resultado.distancia1Parsecs, resultado.distancia2Parsecs, resultado.separacaoAngularRad));
    resultado := resultado.(distanciaRealAnosLuz := resultado.distanciaRealParsecs * PARSEC_PARA_ANOS_LUZ);

    resultado := resultado.(metodoUsado := METODO_USADO);

    resultado := resultado.(equacaoUsada := gerarTexto(resultado));
  }

  /** The wiring fixes every field: two records wired from the same stars are equal. */
  lemma PreenchidoDeterminado(m: Biblioteca, e1: Estrela, e2: Estrela,
                              gerarTexto: ResultadoCalculo -> string, r: ResultadoCalculo, s: ResultadoCalculo)
    requires Lei(m)
    requires Preenchido(m, e1, e2, gerarTexto, r) && Preenchido(m, e1, e2, gerarTexto, s)
    ensures r == s
  {
    assert r.(equacaoUsada := "") == s.(equacaoUsada := "");
  }

  /** Swapping the stars swaps the names and the individual distances and
      leaves the separation and the real distance unchanged. */
  lemma ResultadoSimetrico(m: Biblioteca, e1: Estrela, e2: Estrela,
                           gerarTexto: ResultadoCalculo -> string, r: ResultadoCalculo, s: ResultadoCalculo)
    requires Lei(m)
    requires Preenchido(m, e1, e2, gerarTexto, r) && Preenchido(m, e2, e1, gerarTexto, s)
    ensures s.nomeEstrela1 == r.nomeEstrela2 && s.nomeEstrela2 == r.nomeEstrela1
    ensures s.distancia1Parsecs == r.distancia2Parsecs && s.distancia2Parsecs == r.distancia1Parsecs
    ensures s.separacaoAngularRad == r.separacaoAngularRad && s.separacaoAngularGraus == r.separacaoAngularGraus
    ensures s.distanciaRealParsecs == r.distanciaRealParsecs && s.distanciaRealAnosLuz == r.distanciaRealAnosLuz
  {
    SeparacaoSimetrica(m, e1.AlfaRad(), e1.DeltaRad(), e2.AlfaRad(), e2.DeltaRad());
    DistanciaRealSimetrica(m, r.distancia1Parsecs, r.distancia2Parsecs, r.separacaoAngularRad);
  }

  /** The record's angles and individual distances: separation in [0, PI]
      radians and [0, 180] degrees, each distance equal to its star's property. */
  lemma ResultadoAngulos(m: Biblioteca, e1: Estrela, e2: Estrela,
                         gerarTexto: ResultadoCalculo -> string, r: ResultadoCalculo)
    requires Lei(m)
    requires Preenchido(m, e1, e2, gerarTexto, r)
    ensures 0.0 <= r.separacaoAngularRad <= PI && 0.0 <= r.separacaoAngularGraus <= 180.0
    ensures r.distancia1Parsecs == e1.DistanciaParsecs() && r.distancia2Parsecs == e2.DistanciaParsecs()
  {
    var t := r.separacaoAngularRad;
    assert t * GRAUS_POR_RADIANO == t * 180.0 / PI;
  }

  /** The record's real distance lies within the triangle bounds of the two
      individual distances, and its light-year figure converts back to it. */
  lemma ResultadoDistanciaReal(m: Biblioteca, e1: Estrela, e2: Estrela,
                               gerarTexto: ResultadoCalculo -> string, r: ResultadoCalculo)
    requires Lei(m)
    requires Preenchido(m, e1, e2, gerarTexto, r)
    ensures Abs(r.distancia1Parsecs - r.distancia2Parsecs) <= r.distanciaRealParsecs
    ensures r.distanciaRealParsecs <= r.distancia1Parsecs + r.distancia2Parsecs
    ensures AnosLuzParaParsecs(r.distanciaRealAnosLuz) == r.distanciaRealParsecs
  {
    var d1, d2 := r.distancia1Parsecs, r.distancia2Parsecs;
    DesigualdadeTriangular(m, d1, d2, r.separacaoAngularRad);
    assert Abs(d1) == d1 && Abs(d2) == d2;
  }

  /** Two stars in the same direction: separation 0 and real distance |d1 - d2|. */
  lemma MesmaDirecao(m: Biblioteca, e1: Estrela, e2: Estrela,
                     gerarTexto: ResultadoCalculo -> string, r: ResultadoCalculo)
    requires Lei(m)
    requires e1.ascensaoReta == e2.ascensaoReta && e1.declinacao == e2.declinacao
    requires Preenchido(m, e1, e2, gerarTexto, r)
    ensures r.separacaoAngularRad == 0.0 && r.separacaoAngularGraus == 0.0
    ensures r.distanciaRealParsecs == Abs(r.distancia1Parsecs - r.distancia2Parsecs)
  {
    SeparacaoDeSiMesma(m, e1.AlfaRad(), e1.DeltaRad());
    DistanciaRealAlinhadas(m, r.distancia1Parsecs, r.distancia2Parsecs, 0.0);
  }

  /** A non-positive parallax on either star is not an error: that star's
      distance is the sentinel 0 and the real distance collapses to the other's. */
  lemma ParalaxeNulaNaoFalha(m: Biblioteca, e1: Estrela, e2: Estrela,
                             gerarTexto: ResultadoCalculo -> string, r: ResultadoCalculo)
    requires Lei(m)
    requires Preenchido(m, e1, e2, gerarTexto, r)
    ensures e1.paralaxeMas <= 0.0 ==> r.distancia1Parsecs == 0.0 && r.distanciaRealParsecs == r.distancia2Parsecs
    ensures e2.paralaxeMas <= 0.0 ==> r.distancia2Parsecs == 0.0 && r.distanciaRealParsecs == r.distancia1Parsecs
  {
    var d1, d2, theta := r.distancia1Parsecs, r.distancia2Parsecs, r.separacaoAngularRad;
    assert r.distanciaRealParsecs == m.sqrt(Radicando(m, d1, d2, theta));
    if e1.paralaxeMas <= 0.0 {
      assert Radicando(m, 0.0, d2, theta) == d2 * d2;
      RaizDoQuadrado(m, Radicando(m, d1, d2, theta), d2);
    }
    if e2.paralaxeMas <= 0.0 {
      assert Radicando(m, d1, 0.0, theta) == d1 * d1;
      RaizDoQuadrado(m, Radicando(m, d1, d2, theta), d1);
    }
  }

  /** The fixture stars of the module's own self-test. */
  const SIRIUS: Estrela := Estrela("Sirius", CoordenadaHMS(6, 45, 8.9), CoordenadaDMS(16, 42, 58.0, false), 379.21)
  const BETELGEUSE: Estrela := Estrela("Betelgeuse", CoordenadaHMS(5, 55, 10.3), CoordenadaDMS(7, 24, 25.0, true), 4.51)

  /** Their coordinates and distances, exactly and to four decimals. */
  lemma ExemploSiriusBetelgeuse()
    ensures SIRIUS.ascensaoReta.ParaGraus() == 24308.9 / 240.0
    ensures SIRIUS.declinacao.ParaGraus() == -(16.0 + 42.0 / 60.0 + 58.0 / 3600.0)
    ensures 2.63705 <= SIRIUS.DistanciaParsecs() < 2.63715
    ensures 221.72945 <= BETELGEUSE.DistanciaParsecs() < 221.72955
  {
  }
}
