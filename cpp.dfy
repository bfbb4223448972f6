/** The C++ headers: the Estrela struct, whose calcularDistancia updates two
    of its fields in place, and the aggregator of CalculadoraGeometrica, which
    reads two stars and fills a ResultadoCalculo. The shared formulas are those
    of Coordenadas and Geometria, and the record is that of Calculos. */
module Cpp {
  import opened Matematica
  import opened Coordenadas
  import opened Geometria
  import Calculos

  class Estrela {
    var nome: string
    var ascensaoReta: CoordenadaHMS
    var declinacao: CoordenadaDMS
    var paralaxeMas: real
    var distanciaParsecs: real
    var distanciaAnosLuz: real

    /** A value-initialised struct with the four input fields filled in, as
        the window's callback leaves it: the stored distances are 0. */
    constructor (nome: string, ascensaoReta: CoordenadaHMS, declinacao: CoordenadaDMS, paralaxeMas: real)
      ensures this.nome == nome && this.ascensaoReta == ascensaoReta
      ensures this.declinacao == declinacao && this.paralaxeMas == paralaxeMas
      ensures distanciaParsecs == 0.0 && distanciaAnosLuz == 0.0
      ensures paralaxeMas <= 0.0 ==> Coerente()
    {
      this.nome := nome;
      this.ascensaoReta := ascensaoReta;
      this.declinacao := declinacao;
      this.paralaxeMas := paralaxeMas;
      distanciaParsecs := 0.0;
      distanciaAnosLuz := 0.0;
    }

    /** The stored distances are the ones the parallax gives. */
    ghost predicate Coerente()
      reads this
    {
      distanciaParsecs == CalcularDistanciaParalaxe(paralaxeMas)
      && distanciaAnosLuz == distanciaParsecs * PARSEC_PARA_ANOS_LUZ
    }

    /** With a positive parallax, stores 1000 / parallax parsecs and its
        light-year equivalent; otherwise leaves both fields as they were. No
        other field changes. */
    method CalcularDistancia()
      modifies this`distanciaParsecs, this`distanciaAnosLuz
      ensures old(paralaxeMas) > 0.0 ==>
                distanciaParsecs * paralaxeMas == 1000.0
                && distanciaAnosLuz == distanciaParsecs * PARSEC_PARA_ANOS_LUZ
      ensures old(paralaxeMas) <= 0.0 ==>
                distanciaParsecs == old(distanciaParsecs) && distanciaAnosLuz == old(distanciaAnosLuz)
      ensures old(paralaxeMas) > 0.0 ==> Coerente()
      ensures old(Coerente()) ==> Coerente()
    {
      if paralaxeMas > 0.0 {
        distanciaParsecs := 1000.0 / paralaxeMas;
        distanciaAnosLuz := distanciaParsecs * PARSEC_PARA_ANOS_LUZ;
      }
    }

    /** Right ascension in radians: hours times PI / 12. */
    function AlfaRad(): (a: real)
      reads this
      ensures a == (ascensaoReta.horas as real + ascensaoReta.minutos as real / 60.0
                    + ascensaoReta.segundos / 3600.0) * PI / 12.0
      ensures a == Valor().AlfaRad()
    {
      ascensaoReta.ParaRadianos()
    }

    /** Declination in radians, signed by the hemisphere flag alone. */
    function DeltaRad(): (d: real)
      reads this
      ensures d == declinacao.ParaGraus() * PI / 180.0
      ensures d == Valor().DeltaRad()
    {
      declinacao.ParaRadianos()
    }

    /** The four input fields, as the Python dataclass holds them. */
    function Valor(): Calculos.Estrela
      reads this
    {
      Calculos.Estrela(nome, ascensaoReta, declinacao, paralaxeMas)
    }
  }

  /** Fills a record field by field from two stars. The individual distances
      come from each star's parallax, not from its stored distance fields. */
  method CalcularDistanciaEntreEstrelas(m: Biblioteca, estrela1: Estrela, estrela2: Estrela,
                                        gerarTextoEquacao: Calculos.ResultadoCalculo -> string)
    returns (resultado: Calculos.ResultadoCalculo)
    requires Lei(m)
    ensures Calculos.Preenchido(m, estrela1.Valor(), estrela2.Valor(), gerarTextoEquacao, resultado)
    ensures estrela1.Coerente() ==> resultado.distancia1Parsecs == estrela1.distanciaParsecs
    ensures estrela2.Coerente() ==> resultado.distancia2Parsecs == estrela2.distanciaParsecs
  {
    resultado := Calculos.RESULTADO_VAZIO;

    resultado := resultado.(nomeEstrela1 := estrela1.nome);
    resultado := resultado.(nomeEstrela2 := estrela2.nome);

    var alfa1 := estrela1.AlfaRad();
    var delta1 := estrela1.DeltaRad();
    var alfa2 := estrela2.AlfaRad();
    var delta2 := estrela2.DeltaRad();

    resultado := resultado.(distancia1Parsecs := CalcularDistanciaParalaxe(estrela1.paralaxeMas));
    resultado := resultado.(distancia2Parsecs := CalcularDistanciaParalaxe(estrela2.paralaxeMas));

    resultado := resultado.(separacaoAngularRad := CalcularSeparacaoAngular(m, alfa1, delta1, alfa2, delta2));
    resultado := resultado.(separacaoAngularGraus := resultado.separacaoAngularRad * GRAUS_POR_RADIANO);

    resultado := resultado.(distanciaRealParsecs := CalcularDistanciaReal(m,
      resultado.distancia1Parsecs, resultado.distancia2Parsecs, resultado.separacaoAngularRad));
    resultado := resultado.(distanciaRealAnosLuz := resultado.distanciaRealParsecs * PARSEC_PARA_ANOS_LUZ);

    resultado := resultado.(metodoUsado := Calculos.METODO_USADO);

    resultado := resultado.(equacaoUsada := gerarTextoEquacao(resultado));
  }

  /** The C++ and the Python aggregators agree on every field but the
      derivation text, whatever formatter each is given; with the same
      formatter they return the same record. */
  method AgregadoresConcordam(m: Biblioteca, a: Estrela, b: Estrela,
                              gC: Calculos.ResultadoCalculo -> string,
                              gP: Calculos.ResultadoCalculo -> string)
    returns (rc: Calculos.ResultadoCalculo, rp: Calculos.ResultadoCalculo)
    requires Lei(m)
    ensures rc.(equacaoUsada := "") == rp.(equacaoUsada := "")
    ensures gC == gP ==> rc == rp
    ensures Calculos.Preenchido(m, a.Valor(), b.Valor(), gC, rc)
    ensures Calculos.Preenchido(m, a.Valor(), b.Valor(), gP, rp)
  {
    rc := CalcularDistanciaEntreEstrelas(m, a, b, gC);
    rp := Calculos.CalcularDistanciaEntreEstrelas(m, a.Valor(), b.Valor(), gP);
    if gC == gP {
      Calculos.PreenchidoDeterminado(m, a.Valor(), b.Valor(), gC, rc, rp);
    }
  }
}
