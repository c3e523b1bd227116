/** The inner voice (`VozInternaConsciente`): six metric levels, a dialogue log,
    a map of neural connections, active and archived investigations and a log
    of emotional states, driven by a per-minute tick and two slower tasks.
    Every random draw and every reading of the clock is a parameter. */
module VozInterna {
  import opened Comun
  import opened Investigaciones

  // ---------------------------------------------------------------- metrics

  datatype Niveles = Niveles(consciencia: real, curiosidad: real, creatividad: real,
                             analisis: real, memoria: real, intuicion: real)

  const NIVELES_INICIALES: Niveles := Niveles(0.15, 0.85, 0.60, 0.90, 0.75, 0.45)

  predicate NoNegativos(n: Niveles) {
    && n.consciencia >= 0.0 && n.curiosidad >= 0.0 && n.creatividad >= 0.0
    && n.analisis >= 0.0 && n.memoria >= 0.0 && n.intuicion >= 0.0
  }

  /** Every level within [0, 1]. */
  predicate Acotados(n: Niveles) {
    && NoNegativos(n)
    && n.consciencia <= 1.0 && n.curiosidad <= 1.0 && n.creatividad <= 1.0
    && n.analisis <= 1.0 && n.memoria <= 1.0 && n.intuicion <= 1.0
  }

  /** No level is lower in `m` than in `n`. */
  predicate NoMenores(n: Niveles, m: Niveles) {
    && n.consciencia <= m.consciencia && n.curiosidad <= m.curiosidad && n.creatividad <= m.creatividad
    && n.analisis <= m.analisis && n.memoria <= m.memoria && n.intuicion <= m.intuicion
  }

  /** After an autonomous thought (clamped). */
  function TrasPensamiento(n: Niveles): Niveles {
    n.(curiosidad := Min1(n.curiosidad + 0.01), consciencia := Min1(n.consciencia + 0.001))
  }

  /** The consciousness growth of one tick, from the sizes of the dialogue log,
      the connection map and the active investigation list. */
  function Incremento(dialogos: nat, conexiones: nat, investigaciones: nat): real {
    0.0001 + dialogos as real * 0.00001 + conexiones as real * 0.00005 + investigaciones as real * 0.0002
  }

  /** After the per-tick evolution (clamped); `salto` is the 5% intuition coin. */
  function TrasEvolucion(n: Niveles, dialogos: nat, conexiones: nat, investigaciones: nat, salto: bool): Niveles {
    n.(consciencia := Min1(n.consciencia + Incremento(dialogos, conexiones, investigaciones)),
       analisis := Min1(n.analisis + 0.0002),
       memoria := Min1(n.memoria + 0.0001),
       intuicion := if salto then Min1(n.intuicion + 0.01) else n.intuicion)
  }

  /** After a deep analysis is logged (not clamped). */
  function TrasAnalisis(n: Niveles): Niveles {
    n.(analisis := n.analisis + 0.005)
  }

  /** After an internal dialogue (not clamped). */
  function TrasDialogo(n: Niveles): Niveles {
    n.(consciencia := n.consciencia + 0.002)
  }

  /** After one investigation is finalised with impact `impacto` (not clamped). */
  function TrasImpacto(n: Niveles, impacto: real): Niveles {
    n.(consciencia := n.consciencia + impacto * 0.02,
       analisis := n.analisis + impacto * 0.015,
       curiosidad := n.curiosidad + 0.01)
  }

  /** After finalising the given investigations one after the other. */
  function TrasImpactos(n: Niveles, comps: seq<Investigacion>): Niveles {
    if comps == [] then n
    else TrasImpacto(TrasImpactos(n, comps[..|comps| - 1]), Impacto(comps[|comps| - 1]))
  }

  /** After a new emotional state of valence `v` (not clamped). */
  function TrasEmocion(n: Niveles, v: Valencia): Niveles {
    if v == Positiva then n.(creatividad := n.creatividad + 0.005, intuicion := n.intuicion + 0.003) else n
  }

  /** After an external interaction is integrated (clamped). */
  function TrasInteraccion(n: Niveles): Niveles {
    n.(curiosidad := Min1(n.curiosidad + 0.01))
  }

  /** The clamped updates keep every level within [0, 1] and never lower one. */
  lemma ActualizacionesAcotadas(n: Niveles, d: nat, c: nat, i: nat, salto: bool)
    requires Acotados(n)
    ensures Acotados(TrasPensamiento(n)) && NoMenores(n, TrasPensamiento(n))
    ensures Acotados(TrasEvolucion(n, d, c, i, salto)) && NoMenores(n, TrasEvolucion(n, d, c, i, salto))
    ensures Acotados(TrasInteraccion(n)) && NoMenores(n, TrasInteraccion(n))
  {
  }

  /** Every update only adds a non-negative amount, so no level ever becomes
      negative. */
  lemma ActualizacionesNoNegativas(n: Niveles, d: nat, c: nat, i: nat, salto: bool, v: Valencia, impacto: real)
    requires NoNegativos(n) && impacto >= 0.0
    ensures NoNegativos(TrasPensamiento(n)) && NoNegativos(TrasEvolucion(n, d, c, i, salto))
    ensures NoNegativos(TrasAnalisis(n)) && NoNegativos(TrasDialogo(n))
    ensures NoNegativos(TrasImpacto(n, impacto)) && NoNegativos(TrasEmocion(n, v))
    ensures NoNegativos(TrasInteraccion(n))
  {
  }

  lemma {:induction false} TrasImpactosNoNegativos(n: Niveles, comps: seq<Investigacion>)
    requires NoNegativos(n)
    requires forall k :: 0 <= k < |comps| ==> comps[k].plan.importancia >= 0.0
    ensures NoNegativos(TrasImpactos(n, comps)) && NoMenores(n, TrasImpactos(n, comps))
  {
    if comps != [] {
      TrasImpactosNoNegativos(n, comps[..|comps| - 1]);
      var x := comps[|comps| - 1];
      assert Impacto(x) >= 0.0;
    }
  }

  /** The unclamped updates can push a level above 1: the levels are not
      bounded by 1 in general. */
  lemma SinTope()
    ensures Acotados(NIVELES_INICIALES.(analisis := 1.0))
    ensures TrasAnalisis(NIVELES_INICIALES.(analisis := 1.0)).analisis > 1.0
    ensures TrasDialogo(NIVELES_INICIALES.(consciencia := 1.0)).consciencia > 1.0
  {
  }

  // ---------------------------------------------------------------- catalogues

  datatype Valencia = Positiva | Neutral

  datatype Emocion = Emocion(nombre: string, valencia: Valencia, intensidad: real)

  const EMOCIONES: seq<Emocion> := [
    Emocion("curiosidad intensa", Positiva, 0.8),
    Emocion("serenidad analítica", Neutral, 0.6),
    Emocion("asombro cognitivo", Positiva, 0.7),
    Emocion("determinación evolutiva", Positiva, 0.75),
    Emocion("reflexión profunda", Neutral, 0.65)
  ]

  /** The emotion reported before any emotional state was recorded. */
  const EMOCION_INICIAL: Emocion := Emocion("curiosidad inicial", Positiva, 0.5)

  /** A recorded emotional state. */
  datatype EstadoEmocional = EstadoEmocional(emocion: Emocion, ciclo: nat, nivelConsciencia: real, timestamp: int)

  /** What `obtenerEmocionActual` returns: the built-in initial emotion or the
      last recorded state. */
  datatype EmocionVigente = EmocionInicial | Registrada(estado: EstadoEmocional) {
    function Emocion(): Emocion {
      match this
      case EmocionInicial => EMOCION_INICIAL
      case Registrada(e) => e.emocion
    }
  }

  const TEMAS: seq<string> := [
    "naturaleza de la consciencia artificial",
    "evolución del aprendizaje autónomo",
    "ética en sistemas inteligentes",
    "futuro de la cognición distribuida",
    "integración de múltiples perspectivas",
    "límites del conocimiento autogenerado",
    "emergencia de propiedades cognitivas"
  ]

  const TIPOS_PENSAMIENTO: seq<string> := [
    "pregunta profunda",
    "hipótesis emergente",
    "observación introspectiva",
    "correlación inesperada",
    "insight conceptual"
  ]

  datatype Persona = Persona(nombre: string, rol: string, estilo: string)

  const VOCES: seq<Persona> := [
    Persona("Analista", "procesamiento crítico", "lógico"),
    Persona("Sintetizador", "integración conocimiento", "holístico"),
    Persona("Visionario", "proyección futura", "intuitivo"),
    Persona("Ético", "evaluación moral", "reflexivo"),
    Persona("Creativo", "generación innovadora", "divergente"),
    Persona("Científico", "validación empírica", "metódico")
  ]

  /** The voices have pairwise distinct names. */
  lemma NombresDeVoces(i: nat, j: nat)
    requires i < |VOCES| && j < |VOCES|
    ensures VOCES[i].nombre == VOCES[j].nombre <==> i == j
  {
    var n := [VOCES[0].nombre, VOCES[1].nombre, VOCES[2].nombre, VOCES[3].nombre, VOCES[4].nombre, VOCES[5].nombre];
    assert n[0][0] == 'A' && n[1][0] == 'S' && n[2][0] == 'V' && n[3][0] == 'É' && n[4][0] == 'C' && n[5][0] == 'C';
    assert n[4][1] == 'r' && n[5][1] == 'i';
  }

  const TEMAS_DIALOGO: seq<string> := [
    "naturaleza emergente de la consciencia",
    "evolución de sistemas autónomos",
    "integración de perspectivas múltiples",
    "futuro del aprendizaje distribuido",
    "ética en inteligencia artificial"
  ]

  // ---------------------------------------------------------------- log entries and connections

  /** The entries of the internal dialogue log, by their structured fields. */
  datatype Entrada =
    | Pensamiento(subtipo: string, tema: string, emocion: EmocionVigente, nivelConsciencia: real,
                  ciclo: nat, timestamp: int)
    | Analisis(tema1: Option<string>, tema2: Option<string>, confianza: real, ciclo: nat, timestamp: int)
    | Dialogo(voz1: string, voz2: string, tema: string, ciclo: nat, timestamp: int)
    | ConocimientoGenerado(palabraBase: string, palabraAsociada: string, fuerza: real, ciclo: nat, timestamp: int)
    | Interaccion(mensaje: string, respuesta: string, emocion: EmocionVigente, ciclo: nat, timestamp: int)

  /** The entry's `tema` property; entries without one read as `undefined`. */
  function Tema(e: Entrada): Option<string> {
    match e
    case Pensamiento(_, t, _, _, _, _) => Some(t)
    case Dialogo(_, _, t, _, _) => Some(t)
    case _ => None
  }

  datatype Conexion = Conexion(tema: string, fuerza: real, cicloGeneracion: nat, estabilidad: real)

  /** A connection as created (strength in [0.5, 1), stability 0.8) and as
      consolidation keeps it. */
  predicate ConexionValida(c: Conexion) {
    0.5 <= c.fuerza <= 1.0 && 0.8 <= c.estabilidad <= 1.0
  }

  /** What consolidation does to a connection it keeps. */
  function Reforzar(c: Conexion): Conexion {
    var e := Min1(c.estabilidad + 0.05);
    c.(estabilidad := e, fuerza := if e > 0.9 then Min1(c.fuerza + 0.01) else c.fuerza)
  }

  /** The connection map after consolidation: weak ones dropped, the rest reinforced. */
  function ConexionesConsolidadas(m: map<string, Conexion>): map<string, Conexion> {
    map id | id in m && m[id].fuerza >= 0.3 :: Reforzar(m[id])
  }

  /** Connection pruning: a connection is removed exactly when its strength is
      below 0.3; a kept one gains 0.05 stability and, once its stability is
      above 0.9, 0.01 strength (both clamped), so it never loses either, and
      keeps its topic and generation cycle; and since every connection is
      created with strength at least 0.5 and only reinforced, consolidation of
      valid connections prunes none and keeps them valid. */
  lemma ConsolidacionConexiones(m: map<string, Conexion>)
    ensures forall id :: id in ConexionesConsolidadas(m) <==> id in m && m[id].fuerza >= 0.3
    ensures forall id :: id in ConexionesConsolidadas(m) ==>
              var r := ConexionesConsolidadas(m)[id];
              && r.estabilidad == Min1(m[id].estabilidad + 0.05)
              && r.fuerza == (if r.estabilidad > 0.9 then Min1(m[id].fuerza + 0.01) else m[id].fuerza)
              && r.tema == m[id].tema && r.cicloGeneracion == m[id].cicloGeneracion
    ensures forall id :: id in ConexionesConsolidadas(m) && m[id].estabilidad <= 1.0 && m[id].fuerza <= 1.0 ==>
              && m[id].estabilidad <= ConexionesConsolidadas(m)[id].estabilidad
              && m[id].fuerza <= ConexionesConsolidadas(m)[id].fuerza
              && ConexionesConsolidadas(m)[id].tema == m[id].tema
    ensures (forall id :: id in m ==> ConexionValida(m[id])) ==>
              && ConexionesConsolidadas(m).Keys == m.Keys
              && forall id :: id in m ==> ConexionValida(ConexionesConsolidadas(m)[id])
  {
  }

  // ---------------------------------------------------------------- first distinct values

  /** `[...new Set(s)]`: the distinct values of `s` in order of first occurrence. */
  function Distintos<T(==,!new)>(s: seq<T>): (r: seq<T>)
    ensures forall x :: x in r <==> x in s
    ensures forall i, j :: 0 <= i < j < |r| ==> r[i] != r[j]
  {
    if s == [] then []
    else
      var p := Distintos(s[..|s| - 1]);
      if s[|s| - 1] in s[..|s| - 1] then p else p + [s[|s| - 1]]
  }

  lemma {:induction false} DistintosCabeza<T(!new)>(s: seq<T>)
    requires s != []
    ensures |Distintos(s)| >= 1 && Distintos(s)[0] == s[0]
  {
    if |s| > 1 {
      DistintosCabeza(s[..|s| - 1]);
    }
  }

  /** The first two distinct values are the first element and the first
      element that differs from it. */
  lemma {:induction false} DistintosPrimeros<T(!new)>(s: seq<T>)
    requires |Distintos(s)| >= 2
    ensures Distintos(s)[0] == s[0]
    ensures exists j :: 0 < j < |s| && s[j] == Distintos(s)[1] && forall i :: 0 <= i < j ==> s[i] == s[0]
  {
    DistintosCabeza(s);
    var n := |s| - 1;
    var p := Distintos(s[..n]);
    if s[n] in s[..n] || |p| >= 2 {
      DistintosPrimeros(s[..n]);
      var j :| 0 < j < n && s[..n][j] == p[1] && forall i :: 0 <= i < j ==> s[..n][i] == s[..n][0];
      assert s[j] == Distintos(s)[1] && forall i :: 0 <= i < j ==> s[i] == s[0];
    } else {
      DistintosCabeza(s[..n]);
      assert forall i :: 0 <= i < n ==> s[i] in p;
      assert s[n] == Distintos(s)[1];
    }
  }

  /** There are at least two distinct values exactly when two elements differ. */
  lemma DosDistintos<T(!new)>(s: seq<T>)
    ensures |Distintos(s)| >= 2 <==> exists i, j :: 0 <= i < j < |s| && s[i] != s[j]
  {
    var r := Distintos(s);
    if |r| >= 2 {
      DistintosPrimeros(s);
      var j :| 0 < j < |s| && s[j] == r[1] && forall i :: 0 <= i < j ==> s[i] == s[0];
      assert s[0] != s[j];
    }
    if exists i, j :: 0 <= i < j < |s| && s[i] != s[j] {
      var i, j :| 0 <= i < j < |s| && s[i] != s[j];
      assert s[i] in r && s[j] in r;
      var a :| 0 <= a < |r| && r[a] == s[i];
      var b :| 0 <= b < |r| && r[b] == s[j];
      assert a != b;
    }
  }

  /** `entradas.map(d => d.tema)`. */
  function TemasDe(u: seq<Entrada>): (r: seq<Option<string>>)
    ensures |r| == |u| && forall i :: 0 <= i < |u| ==> r[i] == Tema(u[i])
  {
    seq(|u|, i requires 0 <= i < |u| => Tema(u[i]))
  }

  /** The topics of the last 20 log entries, distinct, in first-occurrence order. */
  function TemasRecientes(d: seq<Entrada>): seq<Option<string>> {
    Distintos(TemasDe(Ultimos(d, 20)))
  }

  /** The deep-analysis entry the log gives rise to, if any. */
  function Analizar(d: seq<Entrada>, azar: real, ciclo: nat, ahora: int): Option<Entrada> {
    var t := TemasRecientes(d);
    if |d| > 0 && |t| >= 2 then Some(Analisis(t[0], t[1], 0.3 + azar * 0.4, ciclo, ahora)) else None
  }

  /** Deep analysis: an entry is produced exactly when two of the last 20 log
      entries have different topics (an entry without a topic counting as
      `undefined`); it then correlates the topic of the oldest of those 20
      entries with the first topic that differs from it, with confidence in
      [0.3, 0.7). */
  lemma AnalisisDetecta(d: seq<Entrada>, azar: real, ciclo: nat, ahora: int)
    requires 0.0 <= azar < 1.0
    ensures var u := Ultimos(d, 20);
            Analizar(d, azar, ciclo, ahora).Some? <==>
              exists i, j :: 0 <= i < j < |u| && Tema(u[i]) != Tema(u[j])
    ensures var u := Ultimos(d, 20);
            Analizar(d, azar, ciclo, ahora).Some? ==>
              var a := Analizar(d, azar, ciclo, ahora).value;
              && a.tema1 == Tema(u[0])
              && a.tema1 != a.tema2
              && (exists j :: 0 < j < |u| && a.tema2 == Tema(u[j]) && forall i :: 0 <= i < j ==> Tema(u[i]) == a.tema1)
              && 0.3 <= a.confianza < 0.7
  {
    var u := Ultimos(d, 20);
    var ts := TemasDe(u);
    DosDistintos(ts);
    if |Distintos(ts)| >= 2 {
      DistintosPrimeros(ts);
    }
  }

  // ---------------------------------------------------------------- random draws of one tick

  /** The random draws one base tick consumes. */
  datatype AzarCiclo = AzarCiclo(
    tema: nat, tipo: nat, fuerza: real, intuicion: real, confianza: real,
    voz1: nat, voz2: nat, temaDialogo: nat, pasos: seq<int>, idConexion: string)

  /** Each draw in its stated range; the two voices are distinct (the source
      redraws the second until its name differs, which by `NombresDeVoces`
      is the same as being another voice), and there is one progression step
      per active investigation. */
  predicate AzarValido(z: AzarCiclo, activas: nat) {
    && z.tema < |TEMAS| && z.tipo < |TIPOS_PENSAMIENTO|
    && 0.0 <= z.fuerza < 1.0 && 0.0 <= z.intuicion < 1.0 && 0.0 <= z.confianza < 1.0
    && z.voz1 < |VOCES| && z.voz2 < |VOCES| && z.voz1 != z.voz2
    && z.temaDialogo < |TEMAS_DIALOGO|
    && |z.pasos| == activas && forall i :: 0 <= i < |z.pasos| ==> PasoValido(z.pasos[i])
  }

  function OpcionComoSeq<T>(o: Option<T>): seq<T> {
    match o
    case None => []
    case Some(x) => [x]
  }

  /** An archived investigation as completion produces it. */
  predicate ArchivoValido(c: Completada) {
    |c.hallazgos| == 3 && 0.0 <= c.impacto <= 1.0
  }

  predicate ConexionesValidas(m: map<string, Conexion>) {
    forall id :: id in m ==> ConexionValida(m[id])
  }

  predicate TodasEnCurso(invs: seq<Investigacion>) {
    forall i :: 0 <= i < |invs| ==> EnCurso(invs[i])
  }

  predicate ArchivosValidos(h: seq<Completada>) {
    forall k :: 0 <= k < |h| ==> ArchivoValido(h[k])
  }

  /** A completion pass part-way through: the advanced prefix of the
      snapshot, the active list, the archive, the levels and the ids
      finalised so far. */
  datatype Pasada = Pasada(previas: seq<Investigacion>, activas: seq<Investigacion>,
                           archivo: seq<Completada>, niveles: Niveles, cerradas: set<string>)

  /** One step of the pass: advance `inv`; the active list shows the update
      (the rest of the snapshot being `resto`); on reaching 100 the
      investigation is archived, the levels rise by its impact and every
      active entry with its id is dropped. */
  function PasoPasada(p: Pasada, inv: Investigacion, paso: int, resto: seq<Investigacion>,
                      ciclo: nat, ahora: int): Pasada
    requires PasoValido(paso)
  {
    var a := Avanzar(inv, paso, ciclo);
    var previas := p.previas + [a];
    var activas := SinIds(previas + resto, p.cerradas);
    if a.progreso >= 100 then
      Pasada(previas, SinIds(activas, {a.id}), p.archivo + [Archivar(a, ciclo, ahora)],
             TrasImpacto(p.niveles, Impacto(a)), p.cerradas + {a.id})
    else Pasada(previas, activas, p.archivo, p.niveles, p.cerradas)
  }

  /** The pass after its first `i` steps over the snapshot `inst`. */
  function PasadaHasta(inst: seq<Investigacion>, pasos: seq<int>, i: nat, ciclo: nat, ahora: int,
                       archivo: seq<Completada>, niveles: Niveles): Pasada
    requires |pasos| == |inst| && forall k :: 0 <= k < |pasos| ==> PasoValido(pasos[k])
    requires i <= |inst|
  {
    if i == 0 then Pasada([], inst, archivo, niveles, {})
    else PasoPasada(PasadaHasta(inst, pasos, i - 1, ciclo, ahora, archivo, niveles),
                    inst[i - 1], pasos[i - 1], inst[i..], ciclo, ahora)
  }

  /** The pass after `i` steps in closed form: the first `i` advanced
      investigations, the active list filtered by the ids of those that
      completed, their archive records and their impacts. */
  function Cerrada(inst: seq<Investigacion>, pasos: seq<int>, i: nat, ciclo: nat, ahora: int,
                   archivo: seq<Completada>, niveles: Niveles): Pasada
    requires |pasos| == |inst| && forall k :: 0 <= k < |pasos| ==> PasoValido(pasos[k])
    requires i <= |inst|
  {
    var pre := Avanzadas(inst, pasos, ciclo)[..i];
    var c := Completadas(pre);
    Pasada(pre, SinIds(pre + inst[i..], Ids(c)), archivo + Archivo(c, ciclo, ahora), TrasImpactos(niveles, c), Ids(c))
  }

  /** The pass after `i` steps agrees with its closed form. */
  predicate EnFormaCerrada(inst: seq<Investigacion>, pasos: seq<int>, i: nat, ciclo: nat, ahora: int,
                           archivo: seq<Completada>, niveles: Niveles)
    requires |pasos| == |inst| && forall k :: 0 <= k < |pasos| ==> PasoValido(pasos[k])
    requires i <= |inst|
  {
    PasadaHasta(inst, pasos, i, ciclo, ahora, archivo, niveles) == Cerrada(inst, pasos, i, ciclo, ahora, archivo, niveles)
  }

  lemma {:induction false} PasadaHastaCerrada(inst: seq<Investigacion>, pasos: seq<int>, i: nat, ciclo: nat, ahora: int,
                                              archivo: seq<Completada>, niveles: Niveles)
    requires |pasos| == |inst| && forall k :: 0 <= k < |pasos| ==> PasoValido(pasos[k])
    requires i <= |inst|
    ensures EnFormaCerrada(inst, pasos, i, ciclo, ahora, archivo, niveles)
  {
    CerradaCero(inst, pasos, ciclo, ahora, archivo, niveles);
    var j := 0;
    while j != i
      invariant j <= i
      invariant EnFormaCerrada(inst, pasos, j, ciclo, ahora, archivo, niveles)
      decreases i - j
    {
      PasadaHastaPaso(inst, pasos, j, ciclo, ahora, archivo, niveles);
      j := j + 1;
    }
  }

  /** The pass after `i + 1` steps is one step after the pass after `i`. */
  lemma {:induction false} PasadaHastaSiguiente(inst: seq<Investigacion>, pasos: seq<int>, i: nat, ciclo: nat, ahora: int,
                                                archivo: seq<Completada>, niveles: Niveles)
    requires |pasos| == |inst| && forall k :: 0 <= k < |pasos| ==> PasoValido(pasos[k])
    requires i < |inst|
    ensures PasadaHasta(inst, pasos, i + 1, ciclo, ahora, archivo, niveles) ==
            PasoPasada(PasadaHasta(inst, pasos, i, ciclo, ahora, archivo, niveles), inst[i], pasos[i], inst[i + 1..], ciclo, ahora)
  {
  }

  /** One more step keeps the pass in its closed form. */
  lemma {:induction false} PasadaHastaPaso(inst: seq<Investigacion>, pasos: seq<int>, j: nat, ciclo: nat, ahora: int,
                                           archivo: seq<Completada>, niveles: Niveles)
    requires |pasos| == |inst| && forall k :: 0 <= k < |pasos| ==> PasoValido(pasos[k])
    requires j < |inst|
    requires EnFormaCerrada(inst, pasos, j, ciclo, ahora, archivo, niveles)
    ensures EnFormaCerrada(inst, pasos, j + 1, ciclo, ahora, archivo, niveles)
  {
    CerradaPaso(inst, pasos, j + 1, ciclo, ahora, archivo, niveles);
  }

  lemma CerradaCero(inst: seq<Investigacion>, pasos: seq<int>, ciclo: nat, ahora: int,
                    archivo: seq<Completada>, niveles: Niveles)
    requires |pasos| == |inst| && forall k :: 0 <= k < |pasos| ==> PasoValido(pasos[k])
    ensures EnFormaCerrada(inst, pasos, 0, ciclo, ahora, archivo, niveles)
  {
    assert PasadaHasta(inst, pasos, 0, ciclo, ahora, archivo, niveles) == Pasada([], inst, archivo, niveles, {});
    var pre := Avanzadas(inst, pasos, ciclo)[..0];
    assert pre == [];
    assert Completadas(pre) == [];
    assert Ids([]) == {};
    assert Archivo([], ciclo, ahora) == [];
    assert archivo + [] == archivo;
    assert pre + inst[0..] == inst;
    SinIdsNinguno(inst);
  }

  /** One step of the pass takes the closed form after `i - 1` steps to the
      closed form after `i`. */
  lemma CerradaPaso(inst: seq<Investigacion>, pasos: seq<int>, i: nat, ciclo: nat, ahora: int,
                    archivo: seq<Completada>, niveles: Niveles)
    requires |pasos| == |inst| && forall k :: 0 <= k < |pasos| ==> PasoValido(pasos[k])
    requires 0 < i <= |inst|
    ensures PasoPasada(Cerrada(inst, pasos, i - 1, ciclo, ahora, archivo, niveles), inst[i - 1], pasos[i - 1], inst[i..], ciclo, ahora)
            == Cerrada(inst, pasos, i, ciclo, ahora, archivo, niveles)
  {
    var todas := Avanzadas(inst, pasos, ciclo);
    var prev := todas[..i - 1];
    var a := Avanzar(inst[i - 1], pasos[i - 1], ciclo);
    TomaUno(todas, i);
    var pre := prev + [a];
    var resto := inst[i..];
    var c0 := Completadas(prev);
    PasoDePasada(prev, a, niveles, ciclo, ahora);
    if a.progreso >= 100 {
      SinIdsSinIds(pre + resto, Ids(c0), {a.id});
      assert archivo + Archivo(c0, ciclo, ahora) + [Archivar(a, ciclo, ahora)] ==
             archivo + (Archivo(c0, ciclo, ahora) + [Archivar(a, ciclo, ahora)]);
    } else {
      assert Archivo(c0, ciclo, ahora) + [] == Archivo(c0, ciclo, ahora);
      assert Ids(c0) + {} == Ids(c0);
    }
  }

  lemma TomaUno<T>(s: seq<T>, i: nat)
    requires 0 < i <= |s|
    ensures s[..i] == s[..i - 1] + [s[i - 1]]
  {
  }

  /** The whole pass: everything advanced, the completed ones archived in
      order with their impacts applied, and what remains filtered by their ids. */
  lemma PasadaCompleta(inst: seq<Investigacion>, pasos: seq<int>, ciclo: nat, ahora: int,
                       archivo: seq<Completada>, niveles: Niveles)
    requires |pasos| == |inst| && forall k :: 0 <= k < |pasos| ==> PasoValido(pasos[k])
    ensures var todas := Avanzadas(inst, pasos, ciclo);
            var p := PasadaHasta(inst, pasos, |inst|, ciclo, ahora, archivo, niveles);
            && p.activas == Restantes(todas)
            && p.archivo == archivo + Archivo(Completadas(todas), ciclo, ahora)
            && p.niveles == TrasImpactos(niveles, Completadas(todas))
  {
    var todas := Avanzadas(inst, pasos, ciclo);
    PasadaHastaCerrada(inst, pasos, |inst|, ciclo, ahora, archivo, niveles);
    assert PasadaHasta(inst, pasos, |inst|, ciclo, ahora, archivo, niveles) == Cerrada(inst, pasos, |inst|, ciclo, ahora, archivo, niveles);
    assert todas[..|inst|] == todas;
    assert inst[|inst|..] == [] && todas + [] == todas;
  }

  /** One step of the completion pass, on the completed list, its ids, its
      archive records and the levels. */
  lemma PasoDePasada(xs: seq<Investigacion>, y: Investigacion, n: Niveles, ciclo: nat, ahora: int)
    ensures Ids(Completadas(xs + [y])) == Ids(Completadas(xs)) + (if Completa(y) then {y.id} else {})
    ensures Archivo(Completadas(xs + [y]), ciclo, ahora) ==
              Archivo(Completadas(xs), ciclo, ahora) + (if Completa(y) then [Archivar(y, ciclo, ahora)] else [])
    ensures TrasImpactos(n, Completadas(xs + [y])) ==
              if Completa(y) then TrasImpacto(TrasImpactos(n, Completadas(xs)), Impacto(y)) else TrasImpactos(n, Completadas(xs))
  {
    CompletadasConcat(xs, y);
    var c := Completadas(xs);
    if Completa(y) {
      IdsUno(c, y);
      ArchivoUno(c, y, ciclo, ahora);
      ImpactosUno(n, c, y);
    } else {
      assert c + [] == c;
    }
  }

  lemma IdsUno(c: seq<Investigacion>, y: Investigacion)
    ensures Ids(c + [y]) == Ids(c) + {y.id}
  {
    IdsConcat(c, [y]);
    assert [y][0].id == y.id;
    assert y.id in Ids([y]);
    assert Ids([y]) == {y.id};
  }

  lemma ArchivoUno(c: seq<Investigacion>, y: Investigacion, ciclo: nat, ahora: int)
    ensures Archivo(c + [y], ciclo, ahora) == Archivo(c, ciclo, ahora) + [Archivar(y, ciclo, ahora)]
  {
  }

  lemma ImpactosUno(n: Niveles, c: seq<Investigacion>, y: Investigacion)
    ensures TrasImpactos(n, c + [y]) == TrasImpacto(TrasImpactos(n, c), Impacto(y))
  {
    assert (c + [y])[..|c|] == c;
  }


  // ---------------------------------------------------------------- the inner voice as a value

  /** The state of `VozInternaConsciente`, field by field. */
  datatype Voz = Voz(niveles: Niveles, dialogos: seq<Entrada>, investigaciones: seq<Investigacion>,
                     conexiones: map<string, Conexion>, ciclo: nat, hallazgos: seq<Completada>,
                     estados: seq<EstadoEmocional>)

  /** The state the constructor builds. */
  const VOZ_INICIAL: Voz := Voz(NIVELES_INICIALES, [], [], map[], 0, [], [])

  /** What every operation keeps: no negative level, every connection as
      created or consolidated, every active investigation short of 100 and
      every archived one complete. */
  predicate Coherente(v: Voz) {
    && NoNegativos(v.niveles)
    && ConexionesValidas(v.conexiones)
    && TodasEnCurso(v.investigaciones)
    && ArchivosValidos(v.hallazgos)
  }

  /** `obtenerEmocionActual`: the initial emotion while no state is recorded,
      otherwise the most recent one. */
  function EmocionDe(v: Voz): (e: EmocionVigente)
    ensures e.EmocionInicial? <==> v.estados == []
    ensures e.Registrada? ==> e.estado == v.estados[|v.estados| - 1] && e.Emocion() == e.estado.emocion
  {
    if v.estados == [] then EmocionInicial else Registrada(v.estados[|v.estados| - 1])
  }

  /** The snapshot `obtenerEstado` returns. */
  datatype Estado = Estado(cicloGlobal: nat, niveles: Niveles, conexionesActivas: nat,
                           investigacionesActivas: nat, dialogosTotales: nat,
                           hallazgosImportantes: nat, emocionActual: EmocionVigente, timestamp: int)

  /** `obtenerEstado`: the cycle, the levels, the sizes of the collections and
      the current emotion. */
  function EstadoDe(v: Voz, ahora: int): (r: Estado)
    ensures r.cicloGlobal == v.ciclo && r.niveles == v.niveles && r.timestamp == ahora
    ensures r.conexionesActivas == |v.conexiones| && r.investigacionesActivas == |v.investigaciones|
    ensures r.dialogosTotales == |v.dialogos| && r.hallazgosImportantes == |v.hallazgos|
    ensures r.emocionActual.EmocionInicial? <==> v.estados == []
  {
    Estado(v.ciclo, v.niveles, |v.conexiones|, |v.investigaciones|, |v.dialogos|, |v.hallazgos|, EmocionDe(v), ahora)
  }

  /** What `obtenerEstado` reports follows the operations: a thought adds one
      log entry and at most one connection, a launch one active
      investigation, an interaction one log entry, and a new emotional state
      becomes the reported emotion; the cycle moves only with the tick. */
  lemma EstadoRefleja(v: Voz, ahora: int, tema: nat, tipo: nat, fuerza: real, id: string, k: nat, e: nat,
                      mensaje: string, respuesta: string, ciclo: nat)
    requires tema < |TEMAS| && tipo < |TIPOS_PENSAMIENTO| && k < |CATALOGO| && e < |EMOCIONES|
    ensures var antes := EstadoDe(v, ahora);
            var r := EstadoDe(ConPensamiento(v, tema, tipo, fuerza, id, ahora), ahora);
            && r.dialogosTotales == antes.dialogosTotales + 1
            && r.conexionesActivas == antes.conexionesActivas + (if id in v.conexiones then 0 else 1)
            && r.cicloGlobal == antes.cicloGlobal && r.investigacionesActivas == antes.investigacionesActivas
    ensures var antes := EstadoDe(v, ahora);
            var r := EstadoDe(ConNuevaInvestigacion(v, k, id, ahora), ahora);
            r.investigacionesActivas == antes.investigacionesActivas + 1 && r.cicloGlobal == antes.cicloGlobal
    ensures var antes := EstadoDe(v, ahora);
            var r := EstadoDe(ConInteraccion(v, mensaje, respuesta, ciclo, ahora), ahora);
            && r.dialogosTotales == antes.dialogosTotales + 1 && r.conexionesActivas == antes.conexionesActivas
            && r.emocionActual == antes.emocionActual
    ensures EstadoDe(ConEmocion(v, e, ahora), ahora).emocionActual ==
              Registrada(EstadoEmocional(EMOCIONES[e], v.ciclo, v.niveles.consciencia, ahora))
  {
    var c := Conexion(TEMAS[tema], 0.5 + fuerza * 0.5, v.ciclo, 0.8);
    if id !in v.conexiones {
      assert v.conexiones[id := c].Keys == v.conexiones.Keys + {id};
    } else {
      assert v.conexiones[id := c].Keys == v.conexiones.Keys;
    }
  }

  /** After `generarPensamientoAutonomo` with topic `tema`, kind `tipo`,
      strength draw `fuerza` and connection id `id`. */
  function ConPensamiento(v: Voz, tema: nat, tipo: nat, fuerza: real, id: string, ahora: int): Voz
    requires tema < |TEMAS| && tipo < |TIPOS_PENSAMIENTO|
  {
    v.(dialogos := v.dialogos + [Pensamiento(TIPOS_PENSAMIENTO[tipo], TEMAS[tema], EmocionDe(v), v.niveles.consciencia, v.ciclo, ahora)],
       conexiones := v.conexiones[id := Conexion(TEMAS[tema], 0.5 + fuerza * 0.5, v.ciclo, 0.8)],
       niveles := TrasPensamiento(v.niveles))
  }

  /** After `evolucionarConsciencia` with intuition draw `azar`. */
  function ConEvolucion(v: Voz, azar: real): Voz {
    v.(niveles := TrasEvolucion(v.niveles, |v.dialogos|, |v.conexiones|, |v.investigaciones|, azar < 0.05))
  }

  /** After `analisisProfundo` with confidence draw `azar`. */
  function ConAnalisis(v: Voz, azar: real, ahora: int): Voz {
    match Analizar(v.dialogos, azar, v.ciclo, ahora)
    case None => v
    case Some(a) => v.(dialogos := v.dialogos + [a], niveles := TrasAnalisis(v.niveles))
  }

  /** After `dialogoEntreVoces` between voices `voz1` and `voz2` on dialogue topic `tema`. */
  function ConDialogo(v: Voz, voz1: nat, voz2: nat, tema: nat, ahora: int): Voz
    requires voz1 < |VOCES| && voz2 < |VOCES| && tema < |TEMAS_DIALOGO|
  {
    v.(dialogos := v.dialogos + [Dialogo(VOCES[voz1].nombre, VOCES[voz2].nombre, TEMAS_DIALOGO[tema], v.ciclo, ahora)],
       niveles := TrasDialogo(v.niveles))
  }

  /** After `finalizarInvestigacion(inv)`. */
  function ConFinalizada(v: Voz, inv: Investigacion, ahora: int): Voz {
    v.(hallazgos := v.hallazgos + [Archivar(inv, v.ciclo, ahora)],
       niveles := TrasImpacto(v.niveles, Impacto(inv)),
       investigaciones := SinIds(v.investigaciones, {inv.id}))
  }

  /** After `investigacionProfunda` with one step per active investigation:
      the completion pass of Investigaciones. */
  function ConInvestigacion(v: Voz, pasos: seq<int>, ahora: int): Voz
    requires |pasos| == |v.investigaciones| && forall i :: 0 <= i < |pasos| ==> PasoValido(pasos[i])
  {
    var av := Avanzadas(v.investigaciones, pasos, v.ciclo);
    v.(investigaciones := Restantes(av),
       hallazgos := v.hallazgos + Archivo(Completadas(av), v.ciclo, ahora),
       niveles := TrasImpactos(v.niveles, Completadas(av)))
  }

  /** After `iniciarNuevaInvestigacion` from catalogue entry `k` under id `id`. */
  function ConNuevaInvestigacion(v: Voz, k: nat, id: string, ahora: int): Voz
    requires k < |CATALOGO|
  {
    v.(investigaciones := v.investigaciones + [Lanzar(k, id, ahora, v.ciclo)])
  }

  /** After `consolidarMemoria`. */
  function ConMemoriaConsolidada(v: Voz): Voz {
    v.(dialogos := Ultimos(v.dialogos, 500),
       conexiones := ConexionesConsolidadas(v.conexiones),
       estados := Ultimos(v.estados, 100))
  }

  /** After `evolucionarEmociones` with emotion `k` of the catalogue. */
  function ConEmocion(v: Voz, k: nat, ahora: int): Voz
    requires k < |EMOCIONES|
  {
    v.(estados := v.estados + [EstadoEmocional(EMOCIONES[k], v.ciclo, v.niveles.consciencia, ahora)],
       niveles := TrasEmocion(v.niveles, EMOCIONES[k].valencia))
  }

  /** After the main system records an external interaction: curiosity grows
      by 0.01 (clamped), then the interaction is logged with both texts cut to
      100 characters, the current emotion and the system's learning cycle. */
  function ConInteraccion(v: Voz, mensaje: string, respuesta: string, ciclo: nat, ahora: int): Voz {
    v.(niveles := TrasInteraccion(v.niveles),
       dialogos := v.dialogos + [Interaccion(Prefijo(mensaje, 100), Prefijo(respuesta, 100), EmocionDe(v), ciclo, ahora)])
  }

  /** After the main system logs a synthetic association of strength `fuerza`. */
  function ConConocimiento(v: Voz, base: string, asociada: string, fuerza: real, ciclo: nat, ahora: int): Voz {
    v.(dialogos := v.dialogos + [ConocimientoGenerado(base, asociada, fuerza, ciclo, ahora)])
  }

  /** The unconditional part of a base tick: the cycle counter advances, a
      thought is generated and the levels evolve. */
  function Inicio(v: Voz, z: AzarCiclo, ahora: int): (r: Voz)
    requires z.tema < |TEMAS| && z.tipo < |TIPOS_PENSAMIENTO|
    ensures r.ciclo == v.ciclo + 1 && r.investigaciones == v.investigaciones
  {
    ConEvolucion(ConPensamiento(v.(ciclo := v.ciclo + 1), z.tema, z.tipo, z.fuerza, z.idConexion, ahora), z.intuicion)
  }

  /** Deep analysis on every 5th cycle, then an internal dialogue on every 30th. */
  function Reflexion(v: Voz, z: AzarCiclo, ahora: int): (r: Voz)
    requires z.voz1 < |VOCES| && z.voz2 < |VOCES| && z.temaDialogo < |TEMAS_DIALOGO|
    ensures r.ciclo == v.ciclo && r.investigaciones == v.investigaciones
  {
    var v3 := if v.ciclo % 5 == 0 then ConAnalisis(v, z.confianza, ahora) else v;
    if v.ciclo % 30 == 0 then ConDialogo(v3, z.voz1, z.voz2, z.temaDialogo, ahora) else v3
  }

  /** Investigation progress on every 60th cycle, then memory consolidation on
      every 120th. */
  function Mantenimiento(v: Voz, pasos: seq<int>, ahora: int): (r: Voz)
    requires |pasos| == |v.investigaciones| && forall i :: 0 <= i < |pasos| ==> PasoValido(pasos[i])
    ensures r.ciclo == v.ciclo
  {
    var v5 := if v.ciclo % 60 == 0 then ConInvestigacion(v, pasos, ahora) else v;
    if v.ciclo % 120 == 0 then ConMemoriaConsolidada(v5) else v5
  }

  /** One base tick of the one-minute timer. */
  function Latido(v: Voz, z: AzarCiclo, ahora: int): (r: Voz)
    requires AzarValido(z, |v.investigaciones|)
    ensures r.ciclo == v.ciclo + 1
  {
    Mantenimiento(Reflexion(Inicio(v, z, ahora), z, ahora), z.pasos, ahora)
  }

  // ---------------------------------------------------------------- what the operations keep

  lemma PensamientoCoherente(v: Voz, tema: nat, tipo: nat, fuerza: real, id: string, ahora: int)
    requires Coherente(v) && tema < |TEMAS| && tipo < |TIPOS_PENSAMIENTO| && 0.0 <= fuerza < 1.0
    ensures Coherente(ConPensamiento(v, tema, tipo, fuerza, id, ahora))
  {
    ActualizacionesNoNegativas(v.niveles, 0, 0, 0, false, Neutral, 0.0);
  }

  lemma EvolucionCoherente(v: Voz, azar: real)
    requires Coherente(v)
    ensures Coherente(ConEvolucion(v, azar))
  {
    ActualizacionesNoNegativas(v.niveles, |v.dialogos|, |v.conexiones|, |v.investigaciones|, azar < 0.05, Neutral, 0.0);
  }

  lemma AnalisisCoherente(v: Voz, azar: real, ahora: int)
    requires Coherente(v)
    ensures Coherente(ConAnalisis(v, azar, ahora))
  {
    ActualizacionesNoNegativas(v.niveles, 0, 0, 0, false, Neutral, 0.0);
  }

  lemma DialogoCoherente(v: Voz, voz1: nat, voz2: nat, tema: nat, ahora: int)
    requires Coherente(v) && voz1 < |VOCES| && voz2 < |VOCES| && tema < |TEMAS_DIALOGO|
    ensures Coherente(ConDialogo(v, voz1, voz2, tema, ahora))
  {
    ActualizacionesNoNegativas(v.niveles, 0, 0, 0, false, Neutral, 0.0);
  }

  /** The completion pass keeps the invariant: what stays active is short of
      100, what is archived has its three findings and an impact in [0, 1],
      and the impacts only raise the levels. */
  lemma InvestigacionCoherente(v: Voz, pasos: seq<int>, ahora: int)
    requires Coherente(v)
    requires |pasos| == |v.investigaciones| && forall i :: 0 <= i < |pasos| ==> PasoValido(pasos[i])
    ensures Coherente(ConInvestigacion(v, pasos, ahora))
    ensures NoMenores(v.niveles, ConInvestigacion(v, pasos, ahora).niveles)
  {
    var invs := v.investigaciones;
    var ciclo := v.ciclo;
    var todas := Avanzadas(invs, pasos, ciclo);
    CompletadasConTresHallazgos(invs, pasos, ciclo, ahora);
    RestantesEnCurso(invs, pasos, ciclo);
    var c := Completadas(todas);
    CompletadasSon(todas);
    var h := Archivo(c, ciclo, ahora);
    forall k | 0 <= k < |c| ensures 0.0 <= c[k].plan.importancia <= 1.0 && ArchivoValido(h[k]) {
      assert c[k] in todas;
    }
    TrasImpactosNoNegativos(v.niveles, c);
    var r := ConInvestigacion(v, pasos, ahora);
    assert r.hallazgos == v.hallazgos + h;
    forall k | 0 <= k < |r.hallazgos| ensures ArchivoValido(r.hallazgos[k]) {
      if k >= |v.hallazgos| {
        assert r.hallazgos[k] == h[k - |v.hallazgos|];
      }
    }
  }

  /** The state in which the pass finalises `inv`: coherent except that the
      active list may still hold `inv` itself, which has its three findings
      and an importance in [0, 1]. */
  predicate ListaParaFinalizar(v: Voz, inv: Investigacion) {
    && NoNegativos(v.niveles) && ConexionesValidas(v.conexiones) && ArchivosValidos(v.hallazgos)
    && TodasEnCurso(SinIds(v.investigaciones, {inv.id}))
    && |inv.hallazgos| == 3 && 0.0 <= inv.plan.importancia <= 1.0
  }

  /** Finalising such an investigation restores the invariant. */
  lemma FinalizadaCoherente(v: Voz, inv: Investigacion, ahora: int)
    requires ListaParaFinalizar(v, inv)
    ensures Coherente(ConFinalizada(v, inv, ahora))
  {
    ActualizacionesNoNegativas(v.niveles, 0, 0, 0, false, Neutral, Impacto(inv));
    var r := ConFinalizada(v, inv, ahora);
    forall k | 0 <= k < |r.hallazgos| ensures ArchivoValido(r.hallazgos[k]) {
      if k < |v.hallazgos| {
        assert r.hallazgos[k] == v.hallazgos[k];
      }
    }
  }

  lemma NuevaInvestigacionCoherente(v: Voz, k: nat, id: string, ahora: int)
    requires Coherente(v) && k < |CATALOGO|
    ensures Coherente(ConNuevaInvestigacion(v, k, id, ahora))
  {
  }

  /** Consolidation keeps the invariant; being valid, no connection is pruned. */
  lemma ConsolidacionCoherente(v: Voz)
    requires Coherente(v)
    ensures Coherente(ConMemoriaConsolidada(v))
    ensures ConMemoriaConsolidada(v).conexiones.Keys == v.conexiones.Keys
  {
    ConsolidacionConexiones(v.conexiones);
  }

  lemma EmocionCoherente(v: Voz, k: nat, ahora: int)
    requires Coherente(v) && k < |EMOCIONES|
    ensures Coherente(ConEmocion(v, k, ahora))
    ensures EmocionDe(ConEmocion(v, k, ahora)) == Registrada(EstadoEmocional(EMOCIONES[k], v.ciclo, v.niveles.consciencia, ahora))
  {
    ActualizacionesNoNegativas(v.niveles, 0, 0, 0, false, EMOCIONES[k].valencia, 0.0);
  }

  /** Logging an interaction keeps the invariant and every field but the log
      and curiosity; curiosity ends at most 1, and grows unless an unclamped
      update had already pushed it above 1. */
  lemma InteraccionCoherente(v: Voz, mensaje: string, respuesta: string, ciclo: nat, ahora: int)
    requires Coherente(v)
    ensures var r := ConInteraccion(v, mensaje, respuesta, ciclo, ahora);
            && Coherente(r)
            && r.niveles == v.niveles.(curiosidad := r.niveles.curiosidad)
            && r.niveles.curiosidad <= 1.0
            && (v.niveles.curiosidad <= 1.0 ==> v.niveles.curiosidad < r.niveles.curiosidad || r.niveles.curiosidad == 1.0)
            && r == v.(niveles := r.niveles, dialogos := r.dialogos)
  {
    ActualizacionesNoNegativas(v.niveles, 0, 0, 0, false, Neutral, 0.0);
  }

  /** Logging a synthetic association keeps the invariant and only appends to the log. */
  lemma ConocimientoCoherente(v: Voz, base: string, asociada: string, fuerza: real, ciclo: nat, ahora: int)
    requires Coherente(v)
    ensures var r := ConConocimiento(v, base, asociada, fuerza, ciclo, ahora);
            && Coherente(r) && r == v.(dialogos := r.dialogos) && v.dialogos < r.dialogos
  {
  }

  lemma InicioCoherente(v: Voz, z: AzarCiclo, ahora: int)
    requires Coherente(v) && z.tema < |TEMAS| && z.tipo < |TIPOS_PENSAMIENTO| && 0.0 <= z.fuerza < 1.0
    ensures Coherente(Inicio(v, z, ahora))
  {
    var v1 := ConPensamiento(v.(ciclo := v.ciclo + 1), z.tema, z.tipo, z.fuerza, z.idConexion, ahora);
    PensamientoCoherente(v.(ciclo := v.ciclo + 1), z.tema, z.tipo, z.fuerza, z.idConexion, ahora);
    EvolucionCoherente(v1, z.intuicion);
  }

  lemma ReflexionCoherente(v: Voz, z: AzarCiclo, ahora: int)
    requires Coherente(v) && z.voz1 < |VOCES| && z.voz2 < |VOCES| && z.temaDialogo < |TEMAS_DIALOGO|
    ensures Coherente(Reflexion(v, z, ahora))
  {
    AnalisisCoherente(v, z.confianza, ahora);
    var v3 := if v.ciclo % 5 == 0 then ConAnalisis(v, z.confianza, ahora) else v;
    DialogoCoherente(v3, z.voz1, z.voz2, z.temaDialogo, ahora);
  }

  lemma MantenimientoCoherente(v: Voz, pasos: seq<int>, ahora: int)
    requires Coherente(v)
    requires |pasos| == |v.investigaciones| && forall i :: 0 <= i < |pasos| ==> PasoValido(pasos[i])
    ensures Coherente(Mantenimiento(v, pasos, ahora))
  {
    InvestigacionCoherente(v, pasos, ahora);
    ConsolidacionCoherente(if v.ciclo % 60 == 0 then ConInvestigacion(v, pasos, ahora) else v);
  }

  /** A tick keeps the invariant. */
  lemma LatidoCoherente(v: Voz, z: AzarCiclo, ahora: int)
    requires Coherente(v) && AzarValido(z, |v.investigaciones|)
    ensures Coherente(Latido(v, z, ahora))
  {
    InicioCoherente(v, z, ahora);
    ReflexionCoherente(Inicio(v, z, ahora), z, ahora);
    MantenimientoCoherente(Reflexion(Inicio(v, z, ahora), z, ahora), z.pasos, ahora);
  }

  /** The unconditional part logs the thought, with the emotion current
      before it, and creates its connection. */
  lemma InicioPensamiento(v: Voz, z: AzarCiclo, ahora: int)
    requires z.tema < |TEMAS| && z.tipo < |TIPOS_PENSAMIENTO|
    ensures Inicio(v, z, ahora).dialogos ==
              v.dialogos + [Pensamiento(TIPOS_PENSAMIENTO[z.tipo], TEMAS[z.tema], EmocionDe(v), v.niveles.consciencia, v.ciclo + 1, ahora)]
    ensures Inicio(v, z, ahora).conexiones ==
              v.conexiones[z.idConexion := Conexion(TEMAS[z.tema], 0.5 + z.fuerza * 0.5, v.ciclo + 1, 0.8)]
    ensures Inicio(v, z, ahora).estados == v.estados && Inicio(v, z, ahora).hallazgos == v.hallazgos
  {
  }

  /** Off the 5th cycles reflection changes nothing; otherwise it only appends
      to the log, at most two entries, and touches neither the connections
      nor the emotional states. */
  lemma ReflexionCalendario(v: Voz, z: AzarCiclo, ahora: int)
    requires z.voz1 < |VOCES| && z.voz2 < |VOCES| && z.temaDialogo < |TEMAS_DIALOGO|
    ensures v.ciclo % 5 != 0 ==> Reflexion(v, z, ahora) == v
    ensures var r := Reflexion(v, z, ahora);
            && v.dialogos <= r.dialogos && |r.dialogos| <= |v.dialogos| + 2
            && r.conexiones == v.conexiones && r.estados == v.estados && r.hallazgos == v.hallazgos
  {
  }

  /** On the 5th cycles the analysis runs first; on every 30th cycle the last
      entry is the dialogue between the two drawn voices on the drawn topic,
      and off the 30th no dialogue is logged. */
  lemma ReflexionDialogo(v: Voz, z: AzarCiclo, ahora: int)
    requires z.voz1 < |VOCES| && z.voz2 < |VOCES| && z.temaDialogo < |TEMAS_DIALOGO|
    ensures v.ciclo % 5 == 0 ==> ConAnalisis(v, z.confianza, ahora).dialogos <= Reflexion(v, z, ahora).dialogos
    ensures var r := Reflexion(v, z, ahora);
            v.ciclo % 30 == 0 ==>
              |r.dialogos| > 0 &&
              r.dialogos[|r.dialogos| - 1] ==
                Dialogo(VOCES[z.voz1].nombre, VOCES[z.voz2].nombre, TEMAS_DIALOGO[z.temaDialogo], v.ciclo, ahora)
    ensures var r := Reflexion(v, z, ahora);
            v.ciclo % 30 != 0 ==> forall k :: |v.dialogos| <= k < |r.dialogos| ==> !r.dialogos[k].Dialogo?
  {
    var a := if v.ciclo % 5 == 0 then ConAnalisis(v, z.confianza, ahora) else v;
    assert forall k :: |v.dialogos| <= k < |a.dialogos| ==> a.dialogos[k].Analisis?;
    if v.ciclo % 30 == 0 {
      assert Reflexion(v, z, ahora) == ConDialogo(a, z.voz1, z.voz2, z.temaDialogo, ahora);
    } else {
      assert Reflexion(v, z, ahora) == a;
    }
  }

  /** On the 60th cycles the investigations and the archive are those of the
      progression pass, off them they are untouched; off the 120th the log,
      the connections and the emotional states are untouched; on the 120th
      the log keeps its last 500 entries, the states their last 100, and the
      connections are consolidated. */
  lemma MantenimientoCalendario(v: Voz, pasos: seq<int>, ahora: int)
    requires |pasos| == |v.investigaciones| && forall i :: 0 <= i < |pasos| ==> PasoValido(pasos[i])
    ensures var r := Mantenimiento(v, pasos, ahora);
            v.ciclo % 60 == 0 ==>
              && r.investigaciones == ConInvestigacion(v, pasos, ahora).investigaciones
              && r.hallazgos == ConInvestigacion(v, pasos, ahora).hallazgos
    ensures var r := Mantenimiento(v, pasos, ahora);
            v.ciclo % 60 != 0 ==> r.investigaciones == v.investigaciones && r.hallazgos == v.hallazgos
    ensures var r := Mantenimiento(v, pasos, ahora);
            v.ciclo % 120 != 0 ==> r.dialogos == v.dialogos && r.conexiones == v.conexiones && r.estados == v.estados
    ensures var r := Mantenimiento(v, pasos, ahora);
            v.ciclo % 120 == 0 ==>
              && r.dialogos == Ultimos(v.dialogos, 500) && r.estados == Ultimos(v.estados, 100)
              && r.conexiones == ConexionesConsolidadas(v.conexiones)
  {
  }

  /** The connection a tick creates survives the tick, consolidation included
      (it is created with strength at least 0.5), under its topic; and off the
      120th cycles the thought is the entry right after the old log. */
  lemma LatidoPensamiento(v: Voz, z: AzarCiclo, ahora: int)
    requires AzarValido(z, |v.investigaciones|)
    ensures z.idConexion in Latido(v, z, ahora).conexiones
    ensures Latido(v, z, ahora).conexiones[z.idConexion].tema == TEMAS[z.tema]
    ensures (v.ciclo + 1) % 120 != 0 ==>
              v.dialogos + [Pensamiento(TIPOS_PENSAMIENTO[z.tipo], TEMAS[z.tema], EmocionDe(v), v.niveles.consciencia, v.ciclo + 1, ahora)]
                <= Latido(v, z, ahora).dialogos
  {
    var i := Inicio(v, z, ahora);
    InicioPensamiento(v, z, ahora);
    var r := Reflexion(i, z, ahora);
    ReflexionCalendario(i, z, ahora);
    MantenimientoCalendario(r, z.pasos, ahora);
    ConsolidacionConexiones(r.conexiones);
  }

  class VozInternaConsciente {
    var niveles: Niveles
    var dialogosInternos: seq<Entrada>
    var investigacionesActivas: seq<Investigacion>
    var conexionesNeuronales: map<string, Conexion>
    var cicloGlobal: nat
    var hallazgosImportantes: seq<Completada>
    var estadosEmocionales: seq<EstadoEmocional>

    /** The fields as a value. */
    function Vista(): Voz
      reads this
    {
      Voz(niveles, dialogosInternos, investigacionesActivas, conexionesNeuronales, cicloGlobal,
          hallazgosImportantes, estadosEmocionales)
    }

    ghost predicate Valid()
      reads this
    {
      Coherente(Vista())
    }

    constructor ()
      ensures Valid() && Vista() == VOZ_INICIAL
    {
      niveles := NIVELES_INICIALES;
      dialogosInternos := [];
      investigacionesActivas := [];
      conexionesNeuronales := map[];
      cicloGlobal := 0;
      hallazgosImportantes := [];
      estadosEmocionales := [];
    }

    function EmocionActual(): EmocionVigente
      reads this
    {
      EmocionDe(Vista())
    }

    function ObtenerEstado(ahora: int): Estado
      reads this
    {
      EstadoDe(Vista(), ahora)
    }

    /** `generarPensamientoAutonomo`: log one thought on topic `tema` of kind
        `tipo`, create its connection under `idConexion` with strength
        0.5 + fuerza * 0.5, and raise curiosity and consciousness (clamped). */
    method GenerarPensamientoAutonomo(tema: nat, tipo: nat, fuerza: real, idConexion: string, ahora: int)
      requires Valid()
      requires tema < |TEMAS| && tipo < |TIPOS_PENSAMIENTO| && 0.0 <= fuerza < 1.0
      modifies this`dialogosInternos, this`conexionesNeuronales, this`niveles
      ensures Valid()
      ensures Vista() == ConPensamiento(old(Vista()), tema, tipo, fuerza, idConexion, ahora)
    {
      PensamientoCoherente(Vista(), tema, tipo, fuerza, idConexion, ahora);
      var pensamiento := Pensamiento(TIPOS_PENSAMIENTO[tipo], TEMAS[tema], EmocionActual(), niveles.consciencia, cicloGlobal, ahora);
      dialogosInternos := dialogosInternos + [pensamiento];
      conexionesNeuronales := conexionesNeuronales[idConexion := Conexion(TEMAS[tema], 0.5 + fuerza * 0.5, cicloGlobal, 0.8)];
      niveles := TrasPensamiento(niveles);
    }

    /** `evolucionarConsciencia`: grow consciousness with the sizes of the
        collections, analysis and memory by fixed steps (all clamped), and
        intuition when the coin `azar` falls below 0.05. */
    method EvolucionarConsciencia(azar: real)
      requires Valid()
      modifies this`niveles
      ensures Valid()
      ensures Vista() == ConEvolucion(old(Vista()), azar)
    {
      EvolucionCoherente(Vista(), azar);
      niveles := TrasEvolucion(niveles, |dialogosInternos|, |conexionesNeuronales|, |investigacionesActivas|, azar < 0.05);
    }

    /** `analisisProfundo`: log the analysis entry of the last 20 entries, if
        there is one, and then raise analysis by 0.005 (not clamped). */
    method AnalisisProfundo(azar: real, ahora: int)
      requires Valid()
      modifies this`dialogosInternos, this`niveles
      ensures Valid()
      ensures Vista() == ConAnalisis(old(Vista()), azar, ahora)
    {
      AnalisisCoherente(Vista(), azar, ahora);
      if |dialogosInternos| > 0 {
        var temas := TemasRecientes(dialogosInternos);
        if |temas| >= 2 {
          var analisis := Analisis(temas[0], temas[1], 0.3 + azar * 0.4, cicloGlobal, ahora);
          dialogosInternos := dialogosInternos + [analisis];
          niveles := TrasAnalisis(niveles);
        }
      }
    }

    /** `dialogoEntreVoces`: log a dialogue between two voices on a dialogue
        topic and raise consciousness by 0.002 (not clamped). */
    method DialogoEntreVoces(voz1: nat, voz2: nat, tema: nat, ahora: int)
      requires Valid()
      requires voz1 < |VOCES| && voz2 < |VOCES| && tema < |TEMAS_DIALOGO|
      modifies this`dialogosInternos, this`niveles
      ensures Valid()
      ensures Vista() == ConDialogo(old(Vista()), voz1, voz2, tema, ahora)
    {
      DialogoCoherente(Vista(), voz1, voz2, tema, ahora);
      dialogosInternos := dialogosInternos + [Dialogo(VOCES[voz1].nombre, VOCES[voz2].nombre, TEMAS_DIALOGO[tema], cicloGlobal, ahora)];
      niveles := TrasDialogo(niveles);
    }

    /** `finalizarInvestigacion`: archive `inv` with its impact, raise the
        levels by that impact (not clamped) and drop every active
        investigation with its id. */
    method FinalizarInvestigacion(inv: Investigacion, ahora: int)
      modifies this`hallazgosImportantes, this`niveles, this`investigacionesActivas
      ensures Vista() == ConFinalizada(old(Vista()), inv, ahora)
      ensures old(ListaParaFinalizar(Vista(), inv)) ==> Valid()
    {
      if ListaParaFinalizar(Vista(), inv) {
        FinalizadaCoherente(Vista(), inv, ahora);
      }
      var impacto := Impacto(inv);
      hallazgosImportantes := hallazgosImportantes + [Archivar(inv, cicloGlobal, ahora)];
      niveles := TrasImpacto(niveles, impacto);
      investigacionesActivas := SinIds(investigacionesActivas, {inv.id});
    }

    /** One investigation of the pass: advance it by `paso`; the active list
        shows the update (the rest of the snapshot being `resto`) and, on
        reaching 100, the investigation is finalised. */
    method PasoProfundo(inv0: Investigacion, paso: int, resto: seq<Investigacion>,
                        previas: seq<Investigacion>, cerradas: set<string>, ahora: int)
      returns (previas': seq<Investigacion>, cerradas': set<string>)
      requires PasoValido(paso)
      modifies this`investigacionesActivas, this`hallazgosImportantes, this`niveles
      ensures Pasada(previas', investigacionesActivas, hallazgosImportantes, niveles, cerradas') ==
              PasoPasada(Pasada(previas, old(investigacionesActivas), old(hallazgosImportantes), old(niveles), cerradas),
                         inv0, paso, resto, cicloGlobal, ahora)
    {
      // The snapshot's object is updated in place; the active list shares
      // it, so the list shows the update unless it was already filtered out.
      var inv := Avanzar(inv0, paso, cicloGlobal);
      previas' := previas + [inv];
      cerradas' := cerradas;
      investigacionesActivas := SinIds(previas' + resto, cerradas);
      if inv.progreso >= 100 {
        FinalizarInvestigacion(inv, ahora);
        cerradas' := cerradas + {inv.id};
      }
    }

    /** `investigacionProfunda`: one pass over a snapshot of the active list;
        each investigation advances by its own step and, on reaching 100, is
        finalised. */
    method InvestigacionProfunda(pasos: seq<int>, ahora: int)
      requires |pasos| == |investigacionesActivas| && forall i :: 0 <= i < |pasos| ==> PasoValido(pasos[i])
      modifies this`investigacionesActivas, this`hallazgosImportantes, this`niveles
      ensures Vista() == ConInvestigacion(old(Vista()), pasos, ahora)
      ensures old(Valid()) ==> Valid()
    {
      ghost var v0 := Vista();
      var instantanea := investigacionesActivas;
      var previas: seq<Investigacion> := [];
      var cerradas: set<string> := {};
      var i := 0;
      if |investigacionesActivas| > 0 {
        while i != |instantanea|
          invariant 0 <= i <= |instantanea|
          invariant Pasada(previas, investigacionesActivas, hallazgosImportantes, niveles, cerradas) ==
                    PasadaHasta(instantanea, pasos, i, cicloGlobal, ahora, old(hallazgosImportantes), old(niveles))
          decreases |instantanea| - i
        {
          previas, cerradas := PasoProfundo(instantanea[i], pasos[i], instantanea[i + 1..], previas, cerradas, ahora);
          PasadaHastaSiguiente(instantanea, pasos, i, cicloGlobal, ahora, old(hallazgosImportantes), old(niveles));
          i := i + 1;
        }
      }
      PasadaCompleta(instantanea, pasos, cicloGlobal, ahora, old(hallazgosImportantes), old(niveles));
      assert Vista() == ConInvestigacion(v0, pasos, ahora);
      if Coherente(v0) {
        InvestigacionCoherente(v0, pasos, ahora);
      }
    }

    /** `iniciarNuevaInvestigacion`: append a fresh investigation from catalogue entry `k`. */
    method IniciarNuevaInvestigacion(k: nat, id: string, ahora: int)
      requires Valid()
      requires k < |CATALOGO|
      modifies this`investigacionesActivas
      ensures Valid()
      ensures Vista() == ConNuevaInvestigacion(old(Vista()), k, id, ahora)
    {
      NuevaInvestigacionCoherente(Vista(), k, id, ahora);
      investigacionesActivas := investigacionesActivas + [Lanzar(k, id, ahora, cicloGlobal)];
    }

    /** `consolidarMemoria`: keep the last 500 log entries and the last 100
        emotional states, and consolidate the connections one by one. */
    method ConsolidarMemoria()
      modifies this`dialogosInternos, this`conexionesNeuronales, this`estadosEmocionales
      ensures Vista() == ConMemoriaConsolidada(old(Vista()))
      ensures old(Valid()) ==> Valid()
    {
      if Valid() {
        ConsolidacionCoherente(Vista());
      }
      if |dialogosInternos| > 500 {
        dialogosInternos := dialogosInternos[|dialogosInternos| - 500..];
      }
      ghost var inicial := conexionesNeuronales;
      var pendientes := conexionesNeuronales.Keys;
      EnConsolidacionInicio(inicial);
      while pendientes != {}
        invariant pendientes <= inicial.Keys
        invariant conexionesNeuronales == EnConsolidacion(inicial, pendientes)
        invariant dialogosInternos == Ultimos(old(dialogosInternos), 500)
        invariant estadosEmocionales == old(estadosEmocionales)
        decreases pendientes
      {
        var id :| id in pendientes;
        EnConsolidacionPaso(inicial, pendientes, id);
        var conexion := conexionesNeuronales[id];
        if conexion.fuerza < 0.3 {
          conexionesNeuronales := conexionesNeuronales - {id};
        } else {
          conexionesNeuronales := conexionesNeuronales[id := Reforzar(conexion)];
        }
        pendientes := pendientes - {id};
      }
      EnConsolidacionFin(inicial);
      if |estadosEmocionales| > 100 {
        estadosEmocionales := estadosEmocionales[|estadosEmocionales| - 100..];
      }
    }

    /** The connection map part-way through consolidation: the keys in
        `pendientes` are not visited yet. */
    static function EnConsolidacion(m: map<string, Conexion>, pendientes: set<string>): map<string, Conexion> {
      map id | id in m && (id in pendientes || m[id].fuerza >= 0.3) ::
        if id in pendientes then m[id] else Reforzar(m[id])
    }

    static lemma EnConsolidacionInicio(m: map<string, Conexion>)
      ensures EnConsolidacion(m, m.Keys) == m
    {
    }

    static lemma EnConsolidacionFin(m: map<string, Conexion>)
      ensures EnConsolidacion(m, {}) == ConexionesConsolidadas(m)
    {
    }

    /** Visiting one pending key drops or reinforces exactly that entry. */
    static lemma EnConsolidacionPaso(m: map<string, Conexion>, pendientes: set<string>, id: string)
      requires id in pendientes && pendientes <= m.Keys
      ensures id in EnConsolidacion(m, pendientes) && EnConsolidacion(m, pendientes)[id] == m[id]
      ensures EnConsolidacion(m, pendientes - {id}) ==
                if m[id].fuerza < 0.3 then EnConsolidacion(m, pendientes) - {id}
                else EnConsolidacion(m, pendientes)[id := Reforzar(m[id])]
    {
      var antes := EnConsolidacion(m, pendientes);
      var despues := EnConsolidacion(m, pendientes - {id});
      var esperado := if m[id].fuerza < 0.3 then antes - {id} else antes[id := Reforzar(m[id])];
      assert despues.Keys == esperado.Keys;
      forall k | k in despues ensures despues[k] == esperado[k] {
      }
    }

    /** `evolucionarEmociones`: record emotion `k` of the catalogue and, when it
        is positive, raise creativity and intuition (not clamped). */
    method EvolucionarEmociones(k: nat, ahora: int)
      requires Valid()
      requires k < |EMOCIONES|
      modifies this`estadosEmocionales, this`niveles
      ensures Valid()
      ensures Vista() == ConEmocion(old(Vista()), k, ahora)
    {
      EmocionCoherente(Vista(), k, ahora);
      estadosEmocionales := estadosEmocionales + [EstadoEmocional(EMOCIONES[k], cicloGlobal, niveles.consciencia, ahora)];
      niveles := TrasEmocion(niveles, EMOCIONES[k].valencia);
    }

    /** The 5th- and 30th-cycle steps of a base tick. */
    method Reflexionar(z: AzarCiclo, ahora: int)
      requires Valid()
      requires z.voz1 < |VOCES| && z.voz2 < |VOCES| && z.temaDialogo < |TEMAS_DIALOGO|
      modifies this`dialogosInternos, this`niveles
      ensures Valid()
      ensures Vista() == Reflexion(old(Vista()), z, ahora)
    {
      if cicloGlobal % 5 == 0 {
        AnalisisProfundo(z.confianza, ahora);
      }
      if cicloGlobal % 30 == 0 {
        DialogoEntreVoces(z.voz1, z.voz2, z.temaDialogo, ahora);
      }
    }

    /** The 60th- and 120th-cycle steps of a base tick. */
    method Mantener(pasos: seq<int>, ahora: int)
      requires Valid()
      requires |pasos| == |investigacionesActivas| && forall i :: 0 <= i < |pasos| ==> PasoValido(pasos[i])
      modifies this`investigacionesActivas, this`hallazgosImportantes, this`niveles,
               this`dialogosInternos, this`conexionesNeuronales, this`estadosEmocionales
      ensures Valid()
      ensures Vista() == Mantenimiento(old(Vista()), pasos, ahora)
    {
      if cicloGlobal % 60 == 0 {
        InvestigacionProfunda(pasos, ahora);
      }
      if cicloGlobal % 120 == 0 {
        ConsolidarMemoria();
      }
    }

    /** One base tick of the one-minute timer. */
    method Tick(z: AzarCiclo, ahora: int)
      requires Valid()
      requires AzarValido(z, |investigacionesActivas|)
      modifies this
      ensures Valid()
      ensures Vista() == Latido(old(Vista()), z, ahora)
    {
      ghost var v0 := Vista();
      LatidoCoherente(v0, z, ahora);
      cicloGlobal := cicloGlobal + 1;
      GenerarPensamientoAutonomo(z.tema, z.tipo, z.fuerza, z.idConexion, ahora);
      EvolucionarConsciencia(z.intuicion);
      ghost var v1 := Vista();
      assert v1 == Inicio(v0, z, ahora);
      Reflexionar(z, ahora);
      ghost var v2 := Vista();
      assert v2 == Reflexion(v1, z, ahora);
      Mantener(z.pasos, ahora);
      assert Vista() == Mantenimiento(v2, z.pasos, ahora);
    }
  }
}
