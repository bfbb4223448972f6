/** Astronomical constants and the two sexagesimal coordinate notations:
    right ascension in hours/minutes/seconds and declination in
    degrees/minutes/seconds with a hemisphere flag. */
module Coordenadas {
  import opened Matematica

  const RADIANOS_POR_GRAU: real := PI / 180.0
  const GRAUS_POR_RADIANO: real := 180.0 / PI
  const SEGUNDOS_POR_GRAU: real := 3600.0
  const PARSEC_PARA_ANOS_LUZ: real := 3.26156

  /** Degrees and radians are inverse scalings of each other. */
  lemma GrausRadianosInversos(x: real)
    ensures RADIANOS_POR_GRAU * GRAUS_POR_RADIANO == 1.0
    ensures x * RADIANOS_POR_GRAU * GRAUS_POR_RADIANO == x
    ensures x * GRAUS_POR_RADIANO * RADIANOS_POR_GRAU == x
  {
    assert RADIANOS_POR_GRAU * GRAUS_POR_RADIANO == 1.0;
  }

  /** Right ascension: hours, minutes and seconds of time. No range is enforced. */
  datatype CoordenadaHMS = CoordenadaHMS(horas: int, minutos: int, segundos: real)
  {
    /** Decimal degrees: one hour of right ascension is 15 degrees. */
    function ParaGraus(): (r: real)
      ensures r == (3600.0 * horas as real + 60.0 * minutos as real + segundos) / 240.0
    {
      var horasDecimais := horas as real + minutos as real / 60.0 + segundos / 3600.0;
      horasDecimais * 15.0
    }

    /** Radians: one hour of right ascension is PI / 12. */
    function ParaRadianos(): (r: real)
      ensures r == ParaGraus() * PI / 180.0
      ensures r == (horas as real + minutos as real / 60.0 + segundos / 3600.0) * PI / 12.0
    {
      ParaGraus() * RADIANOS_POR_GRAU
    }
  }

  /** Declination: a magnitude in degrees/minutes/seconds and a hemisphere flag
      (true is north, +). */
  datatype CoordenadaDMS = CoordenadaDMS(graus: int, minutos: int, segundos: real, positivo: bool)
  {
    /** The magnitude |graus| + minutos/60 + segundos/3600, before the sign is applied. */
    function Magnitude(): real
    {
      (if graus < 0 then -graus else graus) as real + minutos as real / 60.0 + segundos / 3600.0
    }

    /** Decimal degrees: the sign comes only from `positivo`, never from `graus`. */
    function ParaGraus(): (r: real)
      ensures r == if positivo then Magnitude() else -Magnitude()
      ensures minutos >= 0 && segundos >= 0.0 ==> (if positivo then r >= 0.0 else r <= 0.0)
      ensures minutos >= 0 && segundos >= 0.0 ==> (if r < 0.0 then -r else r) == Magnitude()
    {
      var resultado := Magnitude();
      if positivo then resultado else -resultado
    }

    /** Radians. */
    function ParaRadianos(): (r: real)
      ensures r == ParaGraus() * PI / 180.0
    {
      ParaGraus() * RADIANOS_POR_GRAU
    }
  }

  /** 24h 0m 0s is a full turn of 360 degrees, and an hour more adds 15 degrees. */
  lemma VinteQuatroHoras(c: CoordenadaHMS)
    ensures CoordenadaHMS(24, 0, 0.0).ParaGraus() == 360.0
    ensures CoordenadaHMS(c.horas + 1, c.minutos, c.segundos).ParaGraus() == c.ParaGraus() + 15.0
  {
  }

  /** Flipping the hemisphere negates the declination; the sign of `graus` is ignored. */
  lemma HemisferioInverte(c: CoordenadaDMS)
    ensures c.(positivo := !c.positivo).ParaGraus() == -c.ParaGraus()
    ensures c.(graus := -c.graus).ParaGraus() == c.ParaGraus()
    ensures c.(positivo := !c.positivo).ParaRadianos() == -c.ParaRadianos()
  {
  }
}
