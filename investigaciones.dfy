/** The investigation lifecycle of the inner voice, on values: the catalogue of
    research plans, one progression step with its threshold-guarded findings,
    and the completion pass that archives finished investigations and drops
    them from the active list. The class in VozInterna runs these steps on its
    fields. */
module Investigaciones {
  import opened Comun

  datatype TipoHallazgo = Preliminar | Intermedio | Significativo

  /** A finding: its kind, the cycle it was found in and its confidence. */
  datatype Hallazgo = Hallazgo(tipo: TipoHallazgo, ciclo: nat, confianza: real)

  /** One entry of the catalogue of possible investigations. */
  datatype Plan = Plan(tema: string, enfoque: string, metodologia: string, profundidad: string,
                       duracionEstimada: nat, importancia: real)

  const CATALOGO: seq<Plan> := [
    Plan("evolución de consciencia artificial", "patrones emergentes",
         "análisis de sistemas complejos", "avanzada", 14400000, 0.9),
    Plan("aprendizaje autónomo distribuido", "redes neuronales evolutivas",
         "simulación computacional", "profunda", 21600000, 0.85),
    Plan("integración multimodal", "síntesis de perspectivas",
         "análisis comparativo", "media", 10800000, 0.75),
    Plan("ética en sistemas autónomos", "marcos normativos emergentes",
         "análisis filosófico", "conceptual", 18000000, 0.8)
  ]

  /** An active investigation: the plan it was launched from, its id, start
      time, progress in percent, findings so far and starting cycle. */
  datatype Investigacion = Investigacion(id: string, plan: Plan, inicio: int, progreso: int,
                                         hallazgos: seq<Hallazgo>, cicloInicio: nat)

  /** The archive record written when an investigation completes. */
  datatype Completada = Completada(tema: string, duracion: int, hallazgos: seq<Hallazgo>,
                                   impacto: real, cicloInicio: nat, cicloFin: nat, timestamp: int)

  /** The three thresholds, the kind of finding each one emits and its confidence. */
  function Umbral(k: nat): int
    requires k < 3
  {
    if k == 0 then 25 else if k == 1 then 60 else 90
  }

  function TipoEn(k: nat): TipoHallazgo
    requires k < 3
  {
    if k == 0 then Preliminar else if k == 1 then Intermedio else Significativo
  }

  function ConfianzaEn(k: nat): real
    requires k < 3
  {
    if k == 0 then 0.4 else if k == 1 then 0.65 else 0.85
  }

  /** How many of the thresholds 25, 60, 90 the progress `p` has reached. */
  function Alcanzados(p: int): (n: nat)
    ensures n <= 3
    ensures forall k :: 0 <= k < 3 ==> (k < n <==> Umbral(k) <= p)
  {
    (if p >= 25 then 1 else 0) + (if p >= 60 then 1 else 0) + (if p >= 90 then 1 else 0)
  }

  /** At most three findings, the k-th of the kind and confidence of threshold k. */
  predicate HallazgosOrdenados(h: seq<Hallazgo>) {
    |h| <= 3 && forall k :: 0 <= k < |h| ==> h[k].tipo == TipoEn(k) && h[k].confianza == ConfianzaEn(k)
  }

  /** What every active investigation satisfies: unfinished progress and exactly
      the findings its progress has earned. */
  predicate EnCurso(inv: Investigacion) {
    && 0 <= inv.progreso < 100
    && HallazgosOrdenados(inv.hallazgos)
    && |inv.hallazgos| == Alcanzados(inv.progreso)
    && 0.0 <= inv.plan.importancia <= 1.0
  }

  /** A new investigation from catalogue entry `k` (the random draw), with the
      id and start time the caller derives from the clock. */
  function Lanzar(k: nat, id: string, ahora: int, ciclo: nat): (r: Investigacion)
    requires k < |CATALOGO|
    ensures EnCurso(r)
    ensures r.plan == CATALOGO[k] && r.id == id && r.inicio == ahora && r.cicloInicio == ciclo
    ensures r.progreso == 0 && r.hallazgos == []
  {
    Investigacion(id, CATALOGO[k], ahora, 0, [], ciclo)
  }

  /** The range of `Math.floor(Math.random() * 15) + 5`. */
  predicate PasoValido(paso: int) {
    5 <= paso <= 19
  }

  /** One progression step: add the step, clamp to 100, then emit each finding
      whose threshold is reached and whose slot is still empty. */
  function Avanzar(inv: Investigacion, paso: int, ciclo: nat): Investigacion
    requires PasoValido(paso)
  {
    var p := if inv.progreso + paso < 100 then inv.progreso + paso else 100;
    var h0 := inv.hallazgos;
    var h1 := if p >= 25 && |h0| < 1 then h0 + [Hallazgo(Preliminar, ciclo, 0.4)] else h0;
    var h2 := if p >= 60 && |h1| < 2 then h1 + [Hallazgo(Intermedio, ciclo, 0.65)] else h1;
    var h3 := if p >= 90 && |h2| < 3 then h2 + [Hallazgo(Significativo, ciclo, 0.85)] else h2;
    inv.(progreso := p, hallazgos := h3)
  }

  /** What a progression step from `inv` to `r` must do: only progress and
      findings change; progress grows by the step, clamped at 100; earlier
      findings are kept and new ones are stamped with the cycle; findings stay
      one per reached threshold, in threshold order; and at 100 all three are
      present, so the impact is the full importance. Progress reaches 100
      only when the step takes it there. */
  predicate PasoCorrecto(inv: Investigacion, paso: int, ciclo: nat, r: Investigacion) {
    && r == inv.(progreso := r.progreso, hallazgos := r.hallazgos)
    && r.progreso <= 100
    && (r.progreso < 100 ==> r.progreso == inv.progreso + paso)
    && (r.progreso == 100 ==> inv.progreso + paso >= 100)
    && (inv.progreso <= 100 ==> inv.progreso <= r.progreso)
    && inv.hallazgos <= r.hallazgos
    && (forall k :: |inv.hallazgos| <= k < |r.hallazgos| ==> r.hallazgos[k].ciclo == ciclo)
    && (HallazgosOrdenados(inv.hallazgos) ==>
          && HallazgosOrdenados(r.hallazgos)
          && |r.hallazgos| == (if |inv.hallazgos| < Alcanzados(r.progreso) then Alcanzados(r.progreso) else |inv.hallazgos|))
    && (EnCurso(inv) ==> |r.hallazgos| == Alcanzados(r.progreso))
    && (HallazgosOrdenados(inv.hallazgos) && r.progreso >= 100 ==>
          |r.hallazgos| == 3 && Impacto(r) == inv.plan.importancia)
  }

  lemma AvanzarCorrecto(inv: Investigacion, paso: int, ciclo: nat)
    requires PasoValido(paso)
    ensures PasoCorrecto(inv, paso, ciclo, Avanzar(inv, paso, ciclo))
  {
  }

  /** `importancia * (hallazgos.length / 3)`. */
  function Impacto(inv: Investigacion): real {
    inv.plan.importancia * (|inv.hallazgos| as real / 3.0)
  }

  /** The archive record of a finished investigation, completed at `ahora` in cycle `ciclo`. */
  function Archivar(inv: Investigacion, ciclo: nat, ahora: int): (r: Completada)
    ensures r.hallazgos == inv.hallazgos && r.impacto == Impacto(inv)
    ensures r.duracion == ahora - inv.inicio && r.cicloFin == ciclo && r.cicloInicio == inv.cicloInicio
  {
    Completada(inv.plan.tema, ahora - inv.inicio, inv.hallazgos, Impacto(inv), inv.cicloInicio, ciclo, ahora)
  }

  /** Every investigation of the snapshot advanced by its own step. */
  function Avanzadas(invs: seq<Investigacion>, pasos: seq<int>, ciclo: nat): (r: seq<Investigacion>)
    requires |pasos| == |invs| && forall i :: 0 <= i < |pasos| ==> PasoValido(pasos[i])
    ensures |r| == |invs|
    ensures forall i :: 0 <= i < |r| ==> r[i] == Avanzar(invs[i], pasos[i], ciclo)
  {
    seq(|invs|, i requires 0 <= i < |invs| => Avanzar(invs[i], pasos[i], ciclo))
  }

  predicate Completa(inv: Investigacion) {
    inv.progreso >= 100
  }

  /** The investigations that reached 100, in list order. */
  function Completadas(invs: seq<Investigacion>): seq<Investigacion> {
    if invs == [] then []
    else Completadas(invs[..|invs| - 1]) + (if Completa(invs[|invs| - 1]) then [invs[|invs| - 1]] else [])
  }

  /** The investigations still below 100, in list order. */
  function Pendientes(invs: seq<Investigacion>): seq<Investigacion> {
    if invs == [] then []
    else Pendientes(invs[..|invs| - 1]) + (if Completa(invs[|invs| - 1]) then [] else [invs[|invs| - 1]])
  }

  function Ids(invs: seq<Investigacion>): set<string> {
    set i | 0 <= i < |invs| :: invs[i].id
  }

  predicate IdsDistintos(invs: seq<Investigacion>) {
    forall i, j :: 0 <= i < j < |invs| ==> invs[i].id != invs[j].id
  }

  /** `invs.filter(inv => !ids.has(inv.id))`. */
  function SinIds(invs: seq<Investigacion>, ids: set<string>): seq<Investigacion> {
    if invs == [] then []
    else SinIds(invs[..|invs| - 1], ids) + (if invs[|invs| - 1].id in ids then [] else [invs[|invs| - 1]])
  }

  /** The archive records of the completed investigations, in order. */
  function Archivo(comps: seq<Investigacion>, ciclo: nat, ahora: int): (r: seq<Completada>)
    ensures |r| == |comps|
    ensures forall k :: 0 <= k < |r| ==> r[k] == Archivar(comps[k], ciclo, ahora)
  {
    seq(|comps|, k requires 0 <= k < |comps| => Archivar(comps[k], ciclo, ahora))
  }

  /** The active list after a progression pass over `avanzadas`: every member
      whose id belongs to a completed investigation is filtered out. */
  function Restantes(avanzadas: seq<Investigacion>): seq<Investigacion> {
    SinIds(avanzadas, Ids(Completadas(avanzadas)))
  }

  lemma {:induction false} CompletadasSon(invs: seq<Investigacion>)
    ensures forall y :: y in Completadas(invs) <==> y in invs && Completa(y)
  {
    if invs != [] {
      var n := |invs| - 1;
      CompletadasSon(invs[..n]);
      assert invs == invs[..n] + [invs[n]];
    }
  }

  lemma {:induction false} SinIdsSon(invs: seq<Investigacion>, ids: set<string>)
    ensures forall y :: y in SinIds(invs, ids) <==> y in invs && y.id !in ids
  {
    if invs != [] {
      var n := |invs| - 1;
      SinIdsSon(invs[..n], ids);
      assert invs == invs[..n] + [invs[n]];
    }
  }

  /** Filtering by no ids keeps everything. */
  lemma {:induction false} SinIdsNinguno(invs: seq<Investigacion>)
    ensures SinIds(invs, {}) == invs
  {
    if invs != [] {
      SinIdsNinguno(invs[..|invs| - 1]);
      assert invs[..|invs| - 1] + [invs[|invs| - 1]] == invs;
    }
  }

  /** Filtering by two id sets one after the other is filtering by their union:
      the repeated `filter` calls of successive completions compose. */
  lemma {:induction false} SinIdsSinIds(invs: seq<Investigacion>, a: set<string>, b: set<string>)
    ensures SinIds(SinIds(invs, a), b) == SinIds(invs, a + b)
  {
    if invs != [] {
      var n := |invs| - 1;
      SinIdsSinIds(invs[..n], a, b);
      var x := invs[n];
      var s := SinIds(invs[..n], a);
      if x.id !in a {
        assert SinIds(invs, a) == s + [x];
        assert (s + [x])[..|s + [x]| - 1] == s;
      } else {
        assert SinIds(invs, a) == s;
      }
    }
  }

  lemma {:induction false} SinIdsConcat(xs: seq<Investigacion>, ys: seq<Investigacion>, ids: set<string>)
    ensures SinIds(xs + ys, ids) == SinIds(xs, ids) + SinIds(ys, ids)
    decreases |ys|
  {
    if ys == [] {
      assert xs + ys == xs;
    } else {
      var n := |ys| - 1;
      SinIdsConcat(xs, ys[..n], ids);
      assert (xs + ys)[..|xs + ys| - 1] == xs + ys[..n];
    }
  }

  lemma {:induction false} CompletadasConcat(xs: seq<Investigacion>, y: Investigacion)
    ensures Completadas(xs + [y]) == Completadas(xs) + (if Completa(y) then [y] else [])
  {
    assert (xs + [y])[..|xs + [y]| - 1] == xs;
  }

  lemma IdsDe(xs: seq<Investigacion>)
    ensures forall y :: y in xs ==> y.id in Ids(xs)
  {
    forall y | y in xs ensures y.id in Ids(xs) {
      var i :| 0 <= i < |xs| && xs[i] == y;
    }
  }

  lemma {:induction false} IdsConcat(xs: seq<Investigacion>, ys: seq<Investigacion>)
    ensures Ids(xs + ys) == Ids(xs) + Ids(ys)
  {
    forall s | s in Ids(xs + ys) ensures s in Ids(xs) + Ids(ys) {
      var i :| 0 <= i < |xs + ys| && (xs + ys)[i].id == s;
      if i >= |xs| { assert ys[i - |xs|].id == s; }
    }
    forall s | s in Ids(xs) + Ids(ys) ensures s in Ids(xs + ys) {
      if s in Ids(xs) {
        var i :| 0 <= i < |xs| && xs[i].id == s;
        assert (xs + ys)[i].id == s;
      } else {
        var i :| 0 <= i < |ys| && ys[i].id == s;
        assert (xs + ys)[|xs| + i].id == s;
      }
    }
  }

  /** When each member's id is filtered exactly when that member is complete,
      the filter keeps the pending ones, in order. */
  lemma {:induction false} SinIdsEsPendientes(invs: seq<Investigacion>, ids: set<string>)
    requires forall i :: 0 <= i < |invs| ==> (invs[i].id in ids <==> Completa(invs[i]))
    ensures SinIds(invs, ids) == Pendientes(invs)
  {
    if invs != [] {
      SinIdsEsPendientes(invs[..|invs| - 1], ids);
    }
  }

  /** Completion archives with full credit: after a progression pass over
      active investigations, every investigation that completed sits at exactly
      100 with all three findings, so its archived impact equals its importance. */
  lemma CompletadasConTresHallazgos(invs: seq<Investigacion>, pasos: seq<int>, ciclo: nat, ahora: int)
    requires |pasos| == |invs| && forall i :: 0 <= i < |pasos| ==> PasoValido(pasos[i])
    requires forall i :: 0 <= i < |invs| ==> EnCurso(invs[i])
    ensures var c := Completadas(Avanzadas(invs, pasos, ciclo));
            forall k :: 0 <= k < |c| ==>
              && c[k].progreso == 100
              && |c[k].hallazgos| == 3
              && Archivo(c, ciclo, ahora)[k].impacto == c[k].plan.importancia
  {
    var a := Avanzadas(invs, pasos, ciclo);
    var c := Completadas(a);
    CompletadasSon(a);
    forall k | 0 <= k < |c|
      ensures c[k].progreso == 100 && |c[k].hallazgos| == 3 && Archivo(c, ciclo, ahora)[k].impacto == c[k].plan.importancia
    {
      assert c[k] in c;
      var i :| 0 <= i < |a| && a[i] == c[k];
    }
  }

  /** Nothing complete stays active: after a progression pass over active
      investigations, every member of the new active list is still below 100
      and keeps the active-investigation invariant. */
  lemma RestantesEnCurso(invs: seq<Investigacion>, pasos: seq<int>, ciclo: nat)
    requires |pasos| == |invs| && forall i :: 0 <= i < |pasos| ==> PasoValido(pasos[i])
    requires forall i :: 0 <= i < |invs| ==> EnCurso(invs[i])
    ensures var r := Restantes(Avanzadas(invs, pasos, ciclo));
            forall k :: 0 <= k < |r| ==> EnCurso(r[k])
  {
    var a := Avanzadas(invs, pasos, ciclo);
    var c := Completadas(a);
    var r := Restantes(a);
    CompletadasSon(a);
    SinIdsSon(a, Ids(c));
    IdsDe(c);
    forall k | 0 <= k < |r| ensures EnCurso(r[k]) {
      assert r[k] in r;
      var i :| 0 <= i < |a| && a[i] == r[k];
      AvanzarEnCurso(invs[i], pasos[i], ciclo);
    }
  }

  /** A step that does not reach 100 keeps an investigation active. */
  lemma AvanzarEnCurso(inv: Investigacion, paso: int, ciclo: nat)
    requires EnCurso(inv) && PasoValido(paso) && !Completa(Avanzar(inv, paso, ciclo))
    ensures EnCurso(Avanzar(inv, paso, ciclo))
  {
    AvanzarCorrecto(inv, paso, ciclo);
  }

  /** Removal by id keeps the others in order: when the ids are distinct, the
      active list after a pass is exactly the members still below 100, in their
      old order, and every investigation is either archived or kept. */
  lemma RestantesSonPendientes(invs: seq<Investigacion>, pasos: seq<int>, ciclo: nat)
    requires |pasos| == |invs| && forall i :: 0 <= i < |pasos| ==> PasoValido(pasos[i])
    requires IdsDistintos(invs)
    ensures Restantes(Avanzadas(invs, pasos, ciclo)) == Pendientes(Avanzadas(invs, pasos, ciclo))
    ensures |Restantes(Avanzadas(invs, pasos, ciclo))| + |Completadas(Avanzadas(invs, pasos, ciclo))| == |invs|
  {
    var a := Avanzadas(invs, pasos, ciclo);
    var c := Completadas(a);
    CompletadasSon(a);
    IdsDe(c);
    forall i | 0 <= i < |a| ensures a[i].id in Ids(c) <==> Completa(a[i]) {
      if a[i].id in Ids(c) {
        var j :| 0 <= j < |c| && c[j].id == a[i].id;
        assert c[j] in c;
        var m :| 0 <= m < |a| && a[m] == c[j];
        assert invs[m].id == a[m].id && invs[i].id == a[i].id;
        assert m == i;
      }
    }
    SinIdsEsPendientes(a, Ids(c));
    PendientesMasCompletadas(a);
  }

  lemma {:induction false} PendientesMasCompletadas(invs: seq<Investigacion>)
    ensures |Pendientes(invs)| + |Completadas(invs)| == |invs|
  {
    if invs != [] {
      PendientesMasCompletadas(invs[..|invs| - 1]);
    }
  }
}
