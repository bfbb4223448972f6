# Star-distance calculator core, modelled in Dafny

The modelled program takes two stars and works out how far apart they are in space. Each star has a name, a right ascension in hours/minutes/seconds, and a declination in degrees/minutes/seconds with a hemisphere flag. Each also has a parallax in milliarcseconds. The program:

- converts the sexagesimal coordinates to degrees and radians;
- turns each parallax into a distance in parsecs, with 0 as the sentinel for a parallax that is not positive;
- computes the angular separation by the spherical law of cosines, clamping the cosine into [-1, 1] first;
- computes the real distance by the planar law of cosines;
- converts parsecs to light-years with the factor 3.26156.

The repository has the same core twice: once in Python (`CalculadoraEstrelas/python/calculos.py`) and once as C++ headers (`CalculadoraEstrelas/cpp/include/tipos.hpp`, `geometria.hpp`). The model defines the shared formulas once. Each version keeps its own form:

- In Python, `Estrela` is a dataclass with derived properties, so it is a datatype here.
- In C++, `Estrela` is a struct whose `calcularDistancia` updates two fields in place, so it is a class here.

Modules:

- `Matematica` (matematica.dfy): the library functions sin, cos, acos and sqrt. These come from libm and the Python `math` module, which are not part of this model. They are a parameter `m: Biblioteca`, and `Lei(m)` states the laws they obey over exact reals: sqrt is the non-negative root, cos is even and sin is odd, sin² + cos² = 1, acos maps [-1, 1] into [0, PI], and the values at 0, PI/2 and PI. Each law is stated at one point at a time, so a proof uses it only where it names that point. There is also a little real arithmetic here, such as square roots of squares and cos being bounded.
- `Coordenadas` (coordenadas.dfy): the constants and the `CoordenadaHMS` / `CoordenadaDMS` conversions.
- `Geometria` (geometria.dfy): the pure static methods of `CalculadoraGeometrica`.
- `Calculos` (calculos.dfy): Python's `Estrela`, the `ResultadoCalculo` record and the Python aggregator. The predicate `Preenchido` says how the aggregator wires the record from the two stars:
  - both names are copied;
  - each distance comes from its own star's parallax;
  - the separation comes from (alfa1, delta1, alfa2, delta2), in that order;
  - degrees = radians · 180/PI;
  - the real distance comes from the record's own two distances and separation;
  - light-years = parsecs · 3.26156;
  - the method name is the fixed string;
  - the text is generated from the record before the text field is set.
- `Cpp` (cpp.dfy): the C++ `Estrela` struct as a class, `calcularDistancia` as a method that modifies only the two distance fields, and the C++ aggregator. The aggregator promises the same `Preenchido` wiring over the star's four input fields, so `AgregadoresConcordam` shows the two aggregators agree on every field except the derivation text, for any two formatters, and return the same record when given the same formatter.

Both aggregators fill the record one field at a time, as the source does, starting from the all-empty record.

## Model

| member | source | states |
|---|---|---|
| `Coordenadas.GrausRadianosInversos` | CalculadoraEstrelas/cpp/include/tipos.hpp:18-20 | RADIANOS_POR_GRAU · GRAUS_POR_RADIANO = 1, so degrees → radians → degrees and the reverse are the identity |
| `Coordenadas.CoordenadaHMS.ParaGraus` | CalculadoraEstrelas/cpp/include/tipos.hpp:33-36 | degrees = (3600·h + 60·m + s)/240, i.e. (h + m/60 + s/3600)·15 (one hour is 15°); same as calculos.py:28-31 |
| `Coordenadas.CoordenadaHMS.ParaRadianos` | CalculadoraEstrelas/cpp/include/tipos.hpp:39-41 | radians = degrees·PI/180 = (h + m/60 + s/3600)·PI/12; same as calculos.py:33-35 |
| `Coordenadas.CoordenadaDMS.ParaGraus` | CalculadoraEstrelas/cpp/include/tipos.hpp:54-57 | ±(\|graus\| + m/60 + s/3600), sign from `positivo` only; for m, s ≥ 0 the result is ≥ 0 when north and ≤ 0 when south, and its magnitude is that sum; same as calculos.py:49-52 |
| `Coordenadas.CoordenadaDMS.ParaRadianos` | CalculadoraEstrelas/cpp/include/tipos.hpp:60-62 | radians = degrees·PI/180; same as calculos.py:54-56 |
| `Coordenadas.VinteQuatroHoras` | CalculadoraEstrelas/python/calculos.py:28-31 | 24h 0m 0s is 360°, and one more hour adds 15° |
| `Coordenadas.HemisferioInverte` | CalculadoraEstrelas/python/calculos.py:49-52 | flipping `positivo` negates degrees and radians; negating `graus` changes nothing |
| `Geometria.CalcularDistanciaParalaxe` | CalculadoraEstrelas/cpp/include/geometria.hpp:32-37 | p ≤ 0 gives exactly 0; p > 0 gives a positive d with d·p = 1000; same as calculos.py:127-129 |
| `Geometria.ParalaxeDecrescente` | CalculadoraEstrelas/python/calculos.py:127-129 | for positive parallaxes, a larger parallax gives a strictly smaller distance |
| `Geometria.Limitar` | CalculadoraEstrelas/cpp/include/geometria.hpp:60 | max(-1, min(1, c)) lies in [-1, 1], is c inside it, 1 above it and -1 below it |
| `Geometria.LimitarIdempotente` | CalculadoraEstrelas/python/calculos.py:153 | clamping twice equals clamping once |
| `Geometria.CalcularSeparacaoAngular` | CalculadoraEstrelas/cpp/include/geometria.hpp:51-63 | the separation (acos of the clamped spherical-law cosine) always lies in [0, PI]; same as calculos.py:149-155 |
| `Geometria.SeparacaoSimetrica` | CalculadoraEstrelas/python/calculos.py:149-155 | swapping the two stars leaves the separation unchanged (cos is even) |
| `Geometria.SeparacaoDeSiMesma` | CalculadoraEstrelas/python/calculos.py:149-155 | identical coordinates give separation exactly 0 |
| `Geometria.SeparacaoAntipoda` | CalculadoraEstrelas/cpp/include/geometria.hpp:55-62 | (α, δ) and (α+PI, -δ) are PI apart |
| `Geometria.RadicandoLimitado` | CalculadoraEstrelas/cpp/include/geometria.hpp:81-85 | the unclamped radicand d1² + d2² - 2·d1·d2·cos θ lies in [(\|d1\|-\|d2\|)², (\|d1\|+\|d2\|)²], so it is never negative |
| `Geometria.CalcularDistanciaReal` | CalculadoraEstrelas/cpp/include/geometria.hpp:76-86 | D ≥ 0 and D² = d1² + d2² - 2·d1·d2·cos θ (planar law of cosines); same as calculos.py:174-178 |
| `Geometria.DistanciaRealSimetrica` | CalculadoraEstrelas/python/calculos.py:174-178 | D is symmetric in d1 and d2 |
| `Geometria.DesigualdadeTriangular` | CalculadoraEstrelas/python/calculos.py:174-178 | \|\|d1\| - \|d2\|\| ≤ D ≤ \|d1\| + \|d2\| |
| `Geometria.DistanciaRealAlinhadas` | CalculadoraEstrelas/cpp/include/geometria.hpp:81-85 | cos θ = 1 gives D = \|d1 - d2\| |
| `Geometria.DistanciaRealOpostas` | CalculadoraEstrelas/cpp/include/geometria.hpp:81-85 | cos θ = -1 and d1, d2 ≥ 0 give D = d1 + d2 |
| `Geometria.DistanciaRealCasosLimite` | CalculadoraEstrelas/python/calculos.py:158-178 | D(d, d, 0) = 0; D(d1, d2, PI) = d1 + d2 for non-negative d1, d2; D(d1, d2, PI/2) = sqrt(d1² + d2²) |
| `Geometria.ParsecsParaAnosLuz` | CalculadoraEstrelas/cpp/include/geometria.hpp:164-166 | light-years / 3.26156 gives back the parsecs; same as calculos.py:246-248 |
| `Geometria.AnosLuzParaParsecs` | CalculadoraEstrelas/cpp/include/geometria.hpp:171-173 | parsecs · 3.26156 gives back the light-years; same as calculos.py:251-253 |
| `Geometria.ConversaoIdaEVolta` | CalculadoraEstrelas/python/calculos.py:245-253 | the two conversions are inverse for every real, in both orders |
| `Calculos.Estrela.DistanciaParsecs` | CalculadoraEstrelas/python/calculos.py:77-82 | p > 0 gives a positive d with d·p = 1000; p ≤ 0 gives exactly 0 |
| `Calculos.Estrela.DistanciaAnosLuz` | CalculadoraEstrelas/python/calculos.py:84-87 | 0 for p ≤ 0; otherwise positive with l·p = 1000·3.26156; l / 3.26156 is the parsec distance |
| `Calculos.Estrela.AlfaRad` | CalculadoraEstrelas/python/calculos.py:89-92 | right ascension in radians = (h + m/60 + s/3600)·PI/12 |
| `Calculos.Estrela.DeltaRad` | CalculadoraEstrelas/python/calculos.py:94-97 | declination degrees · PI/180, ≥ 0 north and ≤ 0 south for non-negative m, s |
| `Calculos.NovaEstrela` | CalculadoraEstrelas/python/calculos.py:63-75 | dataclass construction: name and parallax kept; a missing coordinate becomes 0h 0m 0s or +0° 0' 0" (`__post_init__`) |
| `Calculos.EstrelaPadrao` | CalculadoraEstrelas/python/calculos.py:66-75 | the all-defaults star is named "Estrela", lies at α = δ = 0 and has 0 distance in both units |
| `Calculos.PropriedadeConcordaComMetodo` | CalculadoraEstrelas/python/calculos.py:78-87 | the `distancia_parsecs`/`distancia_anos_luz` properties agree with `calcular_distancia_paralaxe` and `parsecs_para_anos_luz` |
| `Calculos.CalcularDistanciaEntreEstrelas` | CalculadoraEstrelas/python/calculos.py:180-219 | the returned record satisfies `Preenchido`: every field is wired as in the list above |
| `Calculos.PreenchidoDeterminado` | CalculadoraEstrelas/python/calculos.py:184-217 | the wiring fixes every field: two records wired from the same stars are equal |
| `Calculos.ResultadoSimetrico` | CalculadoraEstrelas/python/calculos.py:184-217 | swapping the stars swaps names and individual distances and keeps the separation (rad and deg) and the real distance (pc and ly) |
| `Calculos.ResultadoAngulos` | CalculadoraEstrelas/python/calculos.py:196-203 | separation in [0, PI] rad and [0, 180]°; each record distance equals its star's `distancia_parsecs` property |
| `Calculos.ResultadoDistanciaReal` | CalculadoraEstrelas/python/calculos.py:206-211 | \|d1 - d2\| ≤ D ≤ d1 + d2 for the record's own distances; the light-year figure converts back to D |
| `Calculos.MesmaDirecao` | CalculadoraEstrelas/python/calculos.py:190-210 | two stars with the same coordinates: separation 0 and D = \|d1 - d2\| |
| `Calculos.ParalaxeNulaNaoFalha` | CalculadoraEstrelas/python/calculos.py:196-209 | a non-positive parallax on either star gives that star distance 0 and D = the other star's distance, with no error |
| `Calculos.ExemploSiriusBetelgeuse` | CalculadoraEstrelas/python/calculos.py:263-277 | the self-test fixtures: Sirius' α is exactly 24308.9/240°, its δ is -(16 + 42/60 + 58/3600)°, and its distance is 2.6371 pc to four decimals; Betelgeuse is 221.7295 pc |
| `Cpp.Estrela.constructor` | CalculadoraEstrelas/cpp/include/tipos.hpp:68-82 | the four input fields as given, stored distances 0 |
| `Cpp.Estrela.CalcularDistancia` | CalculadoraEstrelas/cpp/include/tipos.hpp:85-90 | p > 0: distanciaParsecs·p = 1000 and distanciaAnosLuz = distanciaParsecs·3.26156; p ≤ 0: both unchanged; only those two fields may change; preserves `Coerente` |
| `Cpp.Estrela.AlfaRad` | CalculadoraEstrelas/cpp/include/tipos.hpp:93-95 | (h + m/60 + s/3600)·PI/12, the same as the Python property on the same data |
| `Cpp.Estrela.DeltaRad` | CalculadoraEstrelas/cpp/include/tipos.hpp:98-100 | declination degrees · PI/180, the same as the Python property on the same data |
| `Cpp.CalcularDistanciaEntreEstrelas` | CalculadoraEstrelas/cpp/include/geometria.hpp:91-131 | the record satisfies the same `Preenchido` wiring over the stars' input fields; it matches a star's stored distance whenever that star is `Coerente` |
| `Cpp.AgregadoresConcordam` | CalculadoraEstrelas/cpp/include/geometria.hpp:91-131 | for the same two stars, the C++ aggregator and the Python one (calculos.py:181-219) agree on every field but `equacaoUsada`, whatever the two formatters; with one and the same formatter the records are equal |

## Left out

- IEEE-754 behaviour: rounding, overshoot of the cosine, NaN from `std::acos` or `std::sqrt` in C++, the `ValueError` that Python's `math.sqrt` raises on a negative argument (calculos.py:178), and negative zero. Everything is over exact `real`, where the radicand is never negative (`RadicandoLimitado`), so that error path is unreachable in the model. The library functions are a parameter constrained by `Lei`, whose laws and special values (cos PI = -1, cos(PI/2) = 0, acos(-1) = PI, acos ranging over [0, PI]) are those of exact math with `PI` standing for π.
- PI is the decimal literal of `tipos.hpp:18`. Python's `math.pi` is the nearest double to it. The model reads that literal as π itself: the literal's gap to π (about 2.6·10⁻²¹) is not modelled, and `SeparacaoAntipoda`, the PI and PI/2 cases of `DistanciaRealCasosLimite`, and the upper bound PI of `CalcularSeparacaoAngular` hold only under that reading.
- The C++ `int` fields are unbounded integers here. `std::abs(INT_MIN)` overflow and 32-bit wrap-around are not modelled.
- `_gerar_texto_equacao` / `gerarTextoEquacao` (calculos.py:221-243, geometria.hpp:136-159): fixed-precision float formatting has no Dafny counterpart. The formatter is a parameter of each aggregator. The model states only that the text comes from the filled record whose text field is still empty.
- Cpp.AgregadoresConcordam: does not make the two records equal. The program's two derivation texts differ: C++ prints light-years to 4 decimals and ends with a newline (geometria.hpp:138, 156), while Python prints them to 2 decimals and has no trailing newline (calculos.py:241, 243). The formatters are parameters, so only the non-text fields are proved equal.
- The `__str__` methods, the `CorRGBA` colour constants and the printing in `teste_calculos` are left out. Its two fixture stars are modelled as constants.
- The desktop windows, plotting and the star catalogue (main.cpp, interface.py, visualizacao.py) are not part of this model. The Python window refuses a non-positive parallax before calling the aggregator (interface.py:433), but the C++ window does not. So the aggregators have no precondition on parallax, and the zero-parallax case is modelled (`ParalaxeNulaNaoFalha`).
- The C++ `ResultadoCalculo resultado;` leaves its doubles uninitialised. The model starts both aggregators from the all-empty record. Every field is then overwritten, so the result is the same.
- The real distance takes the square root without clamping the radicand (calculos.py:178, geometria.hpp:85). The model follows the code; `RadicandoLimitado` shows that over exact reals no clamp is needed.
- The self-test's Sirius has parallax 379.21 mas, so its distance is 1000/379.21 ≈ 2.637061 pc, which the self-test prints to four decimals as 2.6371 (calculos.py:263-283). `ExemploSiriusBetelgeuse` proves that bound.
