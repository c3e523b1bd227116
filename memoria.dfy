/** The word-learning store of `SistemaLunaConsciente` as values: the per-word
    records of `memoria.aprendizaje`, the stored conversations, and the pure
    transformations the learning tasks apply to them. */
module Memoria {
  import opened Comun
  import opened Tokens

  // ---------------------------------------------------------------- records

  /** A context entry: the reply a word was seen with, when, and in which
      learning cycle. */
  datatype Contexto = Contexto(respuesta: string, timestamp: int, ciclo: nat)

  /** A per-word record. */
  datatype Aprendizaje = Aprendizaje(contexto: seq<Contexto>, frecuencia: nat,
                                     asociaciones: set<string>, fuerzaContextual: real)

  /** The record created for a word seen for the first time. */
  const APRENDIZAJE_NUEVO: Aprendizaje := Aprendizaje([], 0, {}, 0.5)

  /** A stored conversation; `respuesta` is `null` until the reply is known. */
  datatype Conversacion = Conversacion(mensaje: string, timestamp: int, respuesta: Option<string>, ciclo: nat)

  /** `memoria.aprendizaje`: word to record. */
  type Almacen = map<string, Aprendizaje>

  /** A record as every learning task leaves it: strength in [0.5, 1], at
      most ten contexts, each with a non-empty reply. */
  predicate RegistroValido(a: Aprendizaje) {
    && 0.5 <= a.fuerzaContextual <= 1.0
    && |a.contexto| <= 10
    && forall k :: 0 <= k < |a.contexto| ==> a.contexto[k].respuesta != ""
  }

  /** Every record valid, and associations symmetric between distinct stored words. */
  predicate AlmacenValido(m: Almacen) {
    && (forall w :: w in m ==> RegistroValido(m[w]))
    && (forall w, a :: w in m && a in m[w].asociaciones ==> a != w && a in m && w in m[a].asociaciones)
  }

  /** How often `w` has been counted, 0 for an absent word. */
  function Frecuencia(m: Almacen, w: string): nat {
    if w in m then m[w].frecuencia else 0
  }

  /** Occurrences of `w` in `ps`. */
  function Cuenta(ps: seq<string>, w: string): nat {
    if ps == [] then 0 else Cuenta(ps[..|ps| - 1], w) + (if ps[|ps| - 1] == w then 1 else 0)
  }

  lemma {:induction false} CuentaConcat(a: seq<string>, b: seq<string>, w: string)
    ensures Cuenta(a + b, w) == Cuenta(a, w) + Cuenta(b, w)
    decreases |b|
  {
    if b == [] {
      assert a + b == a;
    } else {
      assert (a + b)[..|a + b| - 1] == a + b[..|b| - 1];
      CuentaConcat(a, b[..|b| - 1], w);
    }
  }

  // ---------------------------------------------------------------- ingestion

  /** One token occurrence: create the record if absent, then count it,
      append the context keeping the last ten, and strengthen by 0.05 (clamped). */
  function Registrar(m: Almacen, palabra: string, ctx: Contexto): Almacen {
    if palabra in m then m[palabra := Contado(m[palabra], ctx)]
    else m[palabra := Contado(APRENDIZAJE_NUEVO, ctx)]
  }

  /** A record after one more occurrence with context `ctx`. */
  function Contado(a: Aprendizaje, ctx: Contexto): Aprendizaje {
    a.(frecuencia := a.frecuencia + 1,
       contexto := Ultimos(a.contexto + [ctx], 10),
       fuerzaContextual := Min1(a.fuerzaContextual + 0.05))
  }

  /** Every token of one message, in order. */
  function RegistrarTodas(m: Almacen, ps: seq<string>, ctx: Contexto): Almacen {
    if ps == [] then m else Registrar(RegistrarTodas(m, ps[..|ps| - 1], ctx), ps[|ps| - 1], ctx)
  }

  /** `!conv.mensaje || !conv.respuesta`: an empty message, or a reply that is
      missing or empty, makes the conversation be skipped. */
  predicate Omitida(c: Conversacion) {
    c.mensaje == "" || c.respuesta == None || c.respuesta == Some("")
  }

  /** The context entry a conversation contributes in learning cycle `ciclo`. */
  function ContextoDe(c: Conversacion, ciclo: nat): Contexto
    requires !Omitida(c)
  {
    Contexto(c.respuesta.value, c.timestamp, ciclo)
  }

  /** One conversation of `extraerPatronesAprendizaje`. */
  function IngerirUna(m: Almacen, c: Conversacion, ciclo: nat): Almacen {
    if Omitida(c) then m else RegistrarTodas(m, Tokenizar(c.mensaje), ContextoDe(c, ciclo))
  }

  /** `extraerPatronesAprendizaje(convs)`. */
  function Ingerir(m: Almacen, convs: seq<Conversacion>, ciclo: nat): Almacen {
    if convs == [] then m else IngerirUna(Ingerir(m, convs[..|convs| - 1], ciclo), convs[|convs| - 1], ciclo)
  }

  /** The token occurrences ingestion processes, in order. */
  function Palabras(convs: seq<Conversacion>): seq<string> {
    if convs == [] then []
    else Palabras(convs[..|convs| - 1]) +
         (if Omitida(convs[|convs| - 1]) then [] else Tokenizar(convs[|convs| - 1].mensaje))
  }

  /** One occurrence, for the word counted: its record exists afterwards,
      its newest context is `ctx`, and its contexts are the last ten of the
      old ones (none for a new word) followed by `ctx`. */
  lemma {:induction false} RegistrarContexto(m: Almacen, palabra: string, ctx: Contexto)
    ensures palabra in Registrar(m, palabra, ctx)
    ensures var antes := if palabra in m then m[palabra].contexto else [];
            var d := Registrar(m, palabra, ctx)[palabra].contexto;
            && |d| == (if |antes| < 10 then |antes| + 1 else 10)
            && d == (antes + [ctx])[|antes| + 1 - |d|..]
    ensures NuevoContexto(Registrar(m, palabra, ctx)[palabra], ctx)
    ensures palabra in m && |m[palabra].contexto| < 10 ==>
              Registrar(m, palabra, ctx)[palabra].contexto == m[palabra].contexto + [ctx]
  {
    if palabra in m {
      assert Registrar(m, palabra, ctx)[palabra] == Contado(m[palabra], ctx);
      ContadoEfecto(m[palabra], ctx);
    } else {
      assert Registrar(m, palabra, ctx)[palabra] == Contado(APRENDIZAJE_NUEVO, ctx);
      ContadoEfecto(APRENDIZAJE_NUEVO, ctx);
    }
  }

  /** One occurrence, for the word counted: its strength is the old one
      (0.5 for a new word) plus 0.05, clamped at 1, and its associations
      are kept (none for a new word). */
  lemma {:induction false} RegistrarFuerza(m: Almacen, palabra: string, ctx: Contexto)
    ensures palabra in Registrar(m, palabra, ctx)
    ensures Registrar(m, palabra, ctx)[palabra].fuerzaContextual ==
              Min1((if palabra in m then m[palabra].fuerzaContextual else 0.5) + 0.05)
    ensures Registrar(m, palabra, ctx)[palabra].asociaciones ==
              (if palabra in m then m[palabra].asociaciones else {})
  {
    if palabra in m {
      assert Registrar(m, palabra, ctx)[palabra] == Contado(m[palabra], ctx);
    } else {
      assert Registrar(m, palabra, ctx)[palabra] == Contado(APRENDIZAJE_NUEVO, ctx);
    }
  }

  /** One more occurrence of a record: counted once more; the contexts
      become the last ten of the old ones followed by `ctx` (all of them
      while fewer than ten were kept); strength plus 0.05 clamped at 1;
      associations kept. */
  lemma {:induction false} ContadoEfecto(a: Aprendizaje, ctx: Contexto)
    ensures Contado(a, ctx).frecuencia == a.frecuencia + 1
    ensures |Contado(a, ctx).contexto| == (if |a.contexto| < 10 then |a.contexto| + 1 else 10)
    ensures Contado(a, ctx).contexto == (a.contexto + [ctx])[|a.contexto| + 1 - |Contado(a, ctx).contexto|..]
    ensures NuevoContexto(Contado(a, ctx), ctx)
    ensures |a.contexto| < 10 ==> Contado(a, ctx).contexto == a.contexto + [ctx]
    ensures Contado(a, ctx).fuerzaContextual == Min1(a.fuerzaContextual + 0.05)
    ensures Contado(a, ctx).asociaciones == a.asociaciones
  {
    var cs := a.contexto + [ctx];
    var u := Ultimos(cs, 10);
    assert u[|u| - 1] == cs[|cs| - 1];
  }

  /** One occurrence, for one word `w`: stored afterwards exactly when it was
      before or is the word counted, counted once more exactly when it is
      that word, and otherwise unchanged. */
  lemma {:induction false} RegistrarPalabra(m: Almacen, x: string, ctx: Contexto, w: string)
    ensures w in Registrar(m, x, ctx) <==> w in m || w == x
    ensures Frecuencia(Registrar(m, x, ctx), w) == Frecuencia(m, w) + (if x == w then 1 else 0)
    ensures w in m && w != x ==> Registrar(m, x, ctx)[w] == m[w]
  {
    RegistrarFrecuencia(m, x, ctx, w);
  }

  lemma {:induction false} RegistrarFrecuencia(m: Almacen, x: string, ctx: Contexto, w: string)
    ensures Frecuencia(Registrar(m, x, ctx), w) == Frecuencia(m, w) + (if x == w then 1 else 0)
  {
  }

  /** A message's tokens, for one word `w`: it is stored afterwards exactly
      when it was before or occurs among the tokens, it is counted once per
      occurrence, and if it does not occur its record is unchanged. */
  lemma {:induction false} RegistrarTodasPalabra(m: Almacen, ps: seq<string>, ctx: Contexto, w: string)
    ensures w in RegistrarTodas(m, ps, ctx) <==> w in m || w in ps
    ensures Frecuencia(RegistrarTodas(m, ps, ctx), w) == Frecuencia(m, w) + Cuenta(ps, w)
    ensures w in m && w !in ps ==> RegistrarTodas(m, ps, ctx)[w] == m[w]
  {
    if ps != [] {
      var ini := ps[..|ps| - 1];
      var x := ps[|ps| - 1];
      assert ps == ini + [x];
      assert w in ps <==> w in ini || w == x;
      assert Cuenta(ps, w) == Cuenta(ini, w) + (if x == w then 1 else 0);
      RegistrarTodasPalabra(m, ini, ctx, w);
      RegistrarPalabra(RegistrarTodas(m, ini, ctx), x, ctx, w);
    }
  }

  /** A message's tokens: the stored words become the old ones plus the
      tokens, each word is counted once per occurrence, and a word that does
      not occur keeps its record. */
  lemma {:induction false} RegistrarTodasEfecto(m: Almacen, ps: seq<string>, ctx: Contexto)
    ensures var r := RegistrarTodas(m, ps, ctx);
            && (forall w :: w in r <==> w in m || w in ps)
            && (forall w :: Frecuencia(r, w) == Frecuencia(m, w) + Cuenta(ps, w))
            && (forall w :: w in m && w !in ps ==> r[w] == m[w])
  {
    forall w ensures var r := RegistrarTodas(m, ps, ctx);
                     && (w in r <==> w in m || w in ps)
                     && Frecuencia(r, w) == Frecuencia(m, w) + Cuenta(ps, w)
                     && (w in m && w !in ps ==> r[w] == m[w])
    {
      RegistrarTodasPalabra(m, ps, ctx, w);
    }
  }

  /** Ingestion as a whole: the stored words become the old ones plus every
      token of every conversation that is not skipped, each word counted
      once per occurrence, and a word that does not occur keeps its record. */
  lemma {:induction false} IngerirEfecto(m: Almacen, convs: seq<Conversacion>, ciclo: nat)
    ensures var r := Ingerir(m, convs, ciclo);
            && (forall w :: w in r <==> w in m || w in Palabras(convs))
            && (forall w :: Frecuencia(r, w) == Frecuencia(m, w) + Cuenta(Palabras(convs), w))
            && (forall w :: w in m && w !in Palabras(convs) ==> r[w] == m[w])
  {
    if convs != [] {
      var ini := convs[..|convs| - 1];
      var c := convs[|convs| - 1];
      IngerirEfecto(m, ini, ciclo);
      var toks := if Omitida(c) then [] else Tokenizar(c.mensaje);
      assert Palabras(convs) == Palabras(ini) + toks;
      if !Omitida(c) {
        RegistrarTodasEfecto(Ingerir(m, ini, ciclo), toks, ContextoDe(c, ciclo));
      }
      forall w ensures Cuenta(Palabras(convs), w) == Cuenta(Palabras(ini), w) + Cuenta(toks, w) {
        CuentaConcat(Palabras(ini), toks, w);
      }
    }
  }

  /** The record one occurrence leaves is valid when the context's reply is non-empty. */
  lemma {:induction false} RegistrarRegistro(m: Almacen, palabra: string, ctx: Contexto)
    requires palabra in m ==> RegistroValido(m[palabra])
    requires ctx.respuesta != ""
    ensures RegistroValido(Registrar(m, palabra, ctx)[palabra])
  {
    var a := if palabra in m then m[palabra] else APRENDIZAJE_NUEVO;
    var cs := a.contexto + [ctx];
    var u := Ultimos(cs, 10);
    assert Registrar(m, palabra, ctx)[palabra].contexto == u;
    forall k | 0 <= k < |u| ensures u[k].respuesta != "" {
      assert u[k] == cs[|cs| - |u| + k];
    }
  }

  /** One occurrence keeps every record's associations, and a new record has none. */
  lemma {:induction false} RegistrarAsociaciones(m: Almacen, palabra: string, ctx: Contexto, w: string)
    requires w in Registrar(m, palabra, ctx)
    ensures w in m || w == palabra
    ensures Registrar(m, palabra, ctx)[w].asociaciones == (if w in m then m[w].asociaciones else {})
  {
    var a := if palabra in m then m[palabra] else APRENDIZAJE_NUEVO;
    var r := Registrar(m, palabra, ctx);
    assert r == m[palabra := Contado(a, ctx)];
    if w == palabra {
      assert r[w] == Contado(a, ctx);
    } else {
      assert r[w] == m[w];
    }
  }

  /** One occurrence keeps the store valid when the context's reply is non-empty. */
  lemma {:induction false} RegistrarValido(m: Almacen, palabra: string, ctx: Contexto)
    requires AlmacenValido(m) && ctx.respuesta != ""
    ensures AlmacenValido(Registrar(m, palabra, ctx))
  {
    var r := Registrar(m, palabra, ctx);
    RegistrarRegistro(m, palabra, ctx);
    forall w | w in r ensures RegistroValido(r[w]) {
      if w != palabra {
        assert r[w] == m[w];
      }
    }
    forall w, b | w in r && b in r[w].asociaciones ensures b != w && b in r && w in r[b].asociaciones {
      RegistrarAsociaciones(m, palabra, ctx, w);
      assert w in m;
      assert b in m && w in m[b].asociaciones;
      RegistrarAsociaciones(m, palabra, ctx, b);
    }
  }

  lemma {:induction false} RegistrarTodasValido(m: Almacen, ps: seq<string>, ctx: Contexto)
    requires AlmacenValido(m) && ctx.respuesta != ""
    ensures AlmacenValido(RegistrarTodas(m, ps, ctx))
  {
    if ps != [] {
      RegistrarTodasValido(m, ps[..|ps| - 1], ctx);
      RegistrarValido(RegistrarTodas(m, ps[..|ps| - 1], ctx), ps[|ps| - 1], ctx);
    }
  }

  /** Ingestion keeps the store valid: skipped conversations are exactly the
      ones that would bring an empty reply. */
  lemma {:induction false} IngerirValido(m: Almacen, convs: seq<Conversacion>, ciclo: nat)
    requires AlmacenValido(m)
    ensures AlmacenValido(Ingerir(m, convs, ciclo))
  {
    if convs != [] {
      var ini := convs[..|convs| - 1];
      var c := convs[|convs| - 1];
      IngerirValido(m, ini, ciclo);
      if !Omitida(c) {
        RegistrarTodasValido(Ingerir(m, ini, ciclo), Tokenizar(c.mensaje), ContextoDe(c, ciclo));
      }
    }
  }

  /** A word seen for the first time adds one to the count of new words. */
  lemma {:induction false} NuevaClave(m0: Almacen, m: Almacen, p: string, a: Aprendizaje)
    requires m0.Keys <= m.Keys && p !in m
    ensures |m[p := a].Keys - m0.Keys| == |m.Keys - m0.Keys| + 1
  {
    assert m[p := a].Keys - m0.Keys == (m.Keys - m0.Keys) + {p};
  }

  /** The newest context of record `a` is `ctx`. */
  predicate NuevoContexto(a: Aprendizaje, ctx: Contexto) {
    |a.contexto| > 0 && a.contexto[|a.contexto| - 1] == ctx
  }

  /** After a message's tokens, every token's newest context is the message's. */
  lemma {:induction false} RegistrarTodasUltimo(m: Almacen, ps: seq<string>, ctx: Contexto, w: string)
    requires w in ps
    ensures w in RegistrarTodas(m, ps, ctx)
    ensures NuevoContexto(RegistrarTodas(m, ps, ctx)[w], ctx)
  {
    var ini := ps[..|ps| - 1];
    var x := ps[|ps| - 1];
    var antes := RegistrarTodas(m, ini, ctx);
    var r := RegistrarTodas(m, ps, ctx);
    assert r == Registrar(antes, x, ctx);
    if w == x {
      RegistrarContexto(antes, x, ctx);
      assert NuevoContexto(r[x], ctx);
    } else {
      assert ps == ini + [x];
      assert w in ini;
      RegistrarTodasUltimo(m, ini, ctx, w);
      RegistrarPalabra(antes, x, ctx, w);
      assert r[w] == antes[w];
    }
  }

  // ---------------------------------------------------------------- reinforcement by the inner voice

  /** `integrarVozInterna`: every record gains `consciencia * 0.001`, clamped at 1. */
  function Reforzadas(m: Almacen, consciencia: real): Almacen {
    map w | w in m :: Reforzado(m[w], consciencia)
  }

  /** One record of `integrarVozInterna`. */
  function Reforzado(a: Aprendizaje, consciencia: real): Aprendizaje {
    a.(fuerzaContextual := Min1(a.fuerzaContextual + consciencia * 0.001))
  }

  /** Reinforcement keeps the words and everything but the strengths; a
      non-negative consciousness never lowers a strength of at most 1, and a
      positive one strictly raises every strength below 1. */
  lemma {:induction false} ReforzadasEfecto(m: Almacen, consciencia: real)
    ensures var r := Reforzadas(m, consciencia);
            && r.Keys == m.Keys
            && (forall w :: w in m ==> r[w] == m[w].(fuerzaContextual := r[w].fuerzaContextual))
    ensures consciencia >= 0.0 ==>
              var r := Reforzadas(m, consciencia);
              forall w :: w in m && m[w].fuerzaContextual <= 1.0 ==> m[w].fuerzaContextual <= r[w].fuerzaContextual <= 1.0
    ensures consciencia > 0.0 ==>
              var r := Reforzadas(m, consciencia);
              forall w :: w in m && m[w].fuerzaContextual < 1.0 ==> m[w].fuerzaContextual < r[w].fuerzaContextual
  {
  }

  /** A non-negative consciousness keeps the store valid. */
  lemma {:induction false} ReforzadasValido(m: Almacen, consciencia: real)
    requires consciencia >= 0.0 && AlmacenValido(m)
    ensures AlmacenValido(Reforzadas(m, consciencia))
  {
    var r := Reforzadas(m, consciencia);
    assert forall w :: w in r ==> r[w].asociaciones == m[w].asociaciones;
  }

  // ---------------------------------------------------------------- autonomous association

  /** `min(5, floor(n / 2))`: how many random pairs are tried for `n` words. */
  function Intentos(n: nat): (r: nat)
    ensures r <= 5 && 2 * r <= n
    ensures n >= 2 ==> r >= 1
  {
    if n / 2 < 5 then n / 2 else 5
  }

  /** One pair: when the two words differ and both are stored, each is added
      to the other's associations and both gain 0.01 (clamped). */
  function Asociar(m: Almacen, p1: string, p2: string): Almacen {
    if p1 != p2 && p1 in m && p2 in m then
      var a1 := m[p1];
      var a2 := m[p2];
      m[p1 := a1.(asociaciones := a1.asociaciones + {p2}, fuerzaContextual := Min1(a1.fuerzaContextual + 0.01))]
       [p2 := a2.(asociaciones := a2.asociaciones + {p1}, fuerzaContextual := Min1(a2.fuerzaContextual + 0.01))]
    else m
  }

  /** The pairs of one `aprendizajeAutonomo`, in order. */
  function AsociarTodos(m: Almacen, pares: seq<(string, string)>): Almacen {
    if pares == [] then m else Asociar(AsociarTodos(m, pares[..|pares| - 1]), pares[|pares| - 1].0, pares[|pares| - 1].1)
  }

  /** One pair links both words to each other, symmetrically, exactly when
      they differ and are both stored, and then raises both strengths by 0.01
      (clamped) and keeps their contexts and frequencies; the set of words
      never changes, and a valid store stays valid. */
  lemma {:induction false} AsociarEfecto(m: Almacen, p1: string, p2: string)
    ensures Asociar(m, p1, p2).Keys == m.Keys
    ensures p1 != p2 && p1 in m && p2 in m ==>
              var r := Asociar(m, p1, p2);
              && p2 in r[p1].asociaciones && p1 in r[p2].asociaciones
              && r[p1].asociaciones == m[p1].asociaciones + {p2}
              && r[p2].asociaciones == m[p2].asociaciones + {p1}
              && r[p1].fuerzaContextual == Min1(m[p1].fuerzaContextual + 0.01)
              && r[p2].fuerzaContextual == Min1(m[p2].fuerzaContextual + 0.01)
              && r[p1].contexto == m[p1].contexto && r[p1].frecuencia == m[p1].frecuencia
              && r[p2].contexto == m[p2].contexto && r[p2].frecuencia == m[p2].frecuencia
              && (forall w :: w in m && w != p1 && w != p2 ==> r[w] == m[w])
    ensures !(p1 != p2 && p1 in m && p2 in m) ==> Asociar(m, p1, p2) == m
    ensures AlmacenValido(m) ==> AlmacenValido(Asociar(m, p1, p2))
  {
  }

  /** A round of pairs never adds or removes a word. */
  lemma {:induction false} AsociarTodosClaves(m: Almacen, pares: seq<(string, string)>)
    ensures AsociarTodos(m, pares).Keys == m.Keys
  {
    if pares != [] {
      AsociarTodosClaves(m, pares[..|pares| - 1]);
    }
  }

  /** A whole round of pairs keeps a valid store valid. */
  lemma {:induction false} AsociarTodosValido(m: Almacen, pares: seq<(string, string)>)
    requires AlmacenValido(m)
    ensures AlmacenValido(AsociarTodos(m, pares))
  {
    if pares != [] {
      var ini := pares[..|pares| - 1];
      AsociarTodosValido(m, ini);
      AsociarEfecto(AsociarTodos(m, ini), pares[|pares| - 1].0, pares[|pares| - 1].1);
    }
  }

  /** Associations only grow. */
  lemma {:induction false} AsociarCrece(m: Almacen, p1: string, p2: string, w: string)
    requires w in m
    ensures w in Asociar(m, p1, p2) && m[w].asociaciones <= Asociar(m, p1, p2)[w].asociaciones
  {
  }

  lemma {:induction false} AsociarTodosCrece(m: Almacen, pares: seq<(string, string)>, w: string)
    requires w in m
    ensures w in AsociarTodos(m, pares) && m[w].asociaciones <= AsociarTodos(m, pares)[w].asociaciones
  {
    if pares != [] {
      var ini := pares[..|pares| - 1];
      AsociarTodosCrece(m, ini, w);
      AsociarCrece(AsociarTodos(m, ini), pares[|pares| - 1].0, pares[|pares| - 1].1, w);
    }
  }

  /** One pair of two distinct stored words links them both ways. */
  lemma {:induction false} AsociarEnlaza(m: Almacen, p1: string, p2: string)
    requires p1 != p2 && p1 in m && p2 in m
    ensures p1 in Asociar(m, p1, p2) && p2 in Asociar(m, p1, p2)
    ensures p2 in Asociar(m, p1, p2)[p1].asociaciones && p1 in Asociar(m, p1, p2)[p2].asociaciones
  {
  }

  /** Every drawn pair of two distinct stored words ends up linked both ways. */
  lemma {:induction false} AsociarTodosEnlaza(m: Almacen, pares: seq<(string, string)>, k: nat)
    requires k < |pares|
    requires pares[k].0 != pares[k].1 && pares[k].0 in m && pares[k].1 in m
    ensures pares[k].0 in AsociarTodos(m, pares) && pares[k].1 in AsociarTodos(m, pares)
    ensures pares[k].1 in AsociarTodos(m, pares)[pares[k].0].asociaciones
    ensures pares[k].0 in AsociarTodos(m, pares)[pares[k].1].asociaciones
  {
    var p1 := pares[k].0;
    var p2 := pares[k].1;
    var hasta := pares[..k + 1];
    var resto := pares[k + 1..];
    assert hasta[..k] == pares[..k];
    var antes := AsociarTodos(m, pares[..k]);
    AsociarTodosClaves(m, pares[..k]);
    AsociarEnlaza(antes, p1, p2);
    var tras := AsociarTodos(m, hasta);
    AsociarTodosCrece(tras, resto, p1);
    AsociarTodosCrece(tras, resto, p2);
    assert hasta + resto == pares;
    AsociarTodosConcat(m, hasta, resto);
  }

  lemma {:induction false} AsociarTodosConcat(m: Almacen, a: seq<(string, string)>, b: seq<(string, string)>)
    ensures AsociarTodos(m, a + b) == AsociarTodos(AsociarTodos(m, a), b)
    decreases |b|
  {
    if b == [] {
      assert a + b == a;
    } else {
      assert (a + b)[..|a + b| - 1] == a + b[..|b| - 1];
      AsociarTodosConcat(m, a, b[..|b| - 1]);
    }
  }

  // ---------------------------------------------------------------- consolidation

  /** `7 * 24 * 60 * 60 * 1000` milliseconds. */
  const UNA_SEMANA: int := 604800000

  predicate Reciente(timestamp: int, ahora: int) {
    ahora - timestamp < UNA_SEMANA
  }

  /** `xs.filter(x => ahora - sello(x) < UNA_SEMANA)`: the elements younger
      than a week, in order. */
  function Recientes<T(!new)>(xs: seq<T>, sello: T -> int, ahora: int): (r: seq<T>)
    ensures |r| <= |xs|
    ensures forall x :: x in r <==> x in xs && Reciente(sello(x), ahora)
  {
    if xs == [] then []
    else Recientes(xs[..|xs| - 1], sello, ahora) +
         (if Reciente(sello(xs[|xs| - 1]), ahora) then [xs[|xs| - 1]] else [])
  }

  /** The filter keeps order and multiplicity: it distributes over
      concatenation (and by `RecientesUno` one element survives exactly when
      it is recent). */
  lemma {:induction false} RecientesConcat<T(!new)>(a: seq<T>, b: seq<T>, sello: T -> int, ahora: int)
    ensures Recientes(a + b, sello, ahora) == Recientes(a, sello, ahora) + Recientes(b, sello, ahora)
    decreases |b|
  {
    if b == [] {
      assert a + b == a;
    } else {
      var ini := b[..|b| - 1];
      var x := b[|b| - 1];
      var cola := if Reciente(sello(x), ahora) then [x] else [];
      assert (a + b)[..|a + b| - 1] == a + ini;
      assert (a + b)[|a + b| - 1] == x;
      assert Recientes(a + b, sello, ahora) == Recientes(a + ini, sello, ahora) + cola;
      RecientesConcat(a, ini, sello, ahora);
      assert Recientes(b, sello, ahora) == Recientes(ini, sello, ahora) + cola;
    }
  }

  /** One element survives exactly when it is recent. */
  lemma RecientesUno<T(!new)>(x: T, sello: T -> int, ahora: int)
    ensures Recientes([x], sello, ahora) == if Reciente(sello(x), ahora) then [x] else []
  {
    assert [x][..0] == [];
  }

  /** A filter that drops nothing is the identity. */
  lemma {:induction false} RecientesTodos<T(!new)>(xs: seq<T>, sello: T -> int, ahora: int)
    requires forall i :: 0 <= i < |xs| ==> Reciente(sello(xs[i]), ahora)
    ensures Recientes(xs, sello, ahora) == xs
  {
    if xs != [] {
      RecientesTodos(xs[..|xs| - 1], sello, ahora);
      assert xs[..|xs| - 1] + [xs[|xs| - 1]] == xs;
    }
  }

  function SelloConversacion(c: Conversacion): int {
    c.timestamp
  }

  function SelloContexto(c: Contexto): int {
    c.timestamp
  }

  /** The conversations younger than a week, in order. */
  function ConversacionesRecientes(cs: seq<Conversacion>, ahora: int): seq<Conversacion> {
    Recientes(cs, SelloConversacion, ahora)
  }

  /** The contexts younger than a week, in order. */
  function ContextosRecientes(cs: seq<Contexto>, ahora: int): seq<Contexto> {
    Recientes(cs, SelloContexto, ahora)
  }

  /** The deletion guard of consolidation. */
  predicate Debil(a: Aprendizaje) {
    a.frecuencia < 2 && a.fuerzaContextual < 0.3
  }

  /** A record's context after consolidation: the last five of its recent entries. */
  function Depurado(a: Aprendizaje, ahora: int): Aprendizaje {
    if |a.contexto| > 0 then a.(contexto := Ultimos(ContextosRecientes(a.contexto, ahora), 5)) else a
  }

  /** The store after `consolidarConocimiento`. */
  function Consolidado(m: Almacen, ahora: int): Almacen {
    map w | w in m && !Debil(m[w]) :: Depurado(m[w], ahora)
  }

  /** A record's consolidated context: the last five (all, when fewer) of
      its entries younger than a week, in their old order; nothing else about
      the record changes. */
  lemma {:induction false} DepuradoEfecto(a: Aprendizaje, ahora: int)
    ensures var rs := ContextosRecientes(a.contexto, ahora);
            var d := Depurado(a, ahora).contexto;
            && |d| == (if |rs| < 5 then |rs| else 5)
            && d == rs[|rs| - |d|..]
    ensures forall c :: c in Depurado(a, ahora).contexto ==> c in a.contexto && Reciente(c.timestamp, ahora)
    ensures Depurado(a, ahora) == a.(contexto := Depurado(a, ahora).contexto)
  {
    var rs := ContextosRecientes(a.contexto, ahora);
    UltimosEn(rs, 5);
    if |a.contexto| == 0 {
      assert rs == [];
    }
  }

  /** Consolidating a valid record leaves it valid. */
  lemma {:induction false} DepuradoValido(a: Aprendizaje, ahora: int)
    requires RegistroValido(a)
    ensures RegistroValido(Depurado(a, ahora))
  {
    DepuradoEfecto(a, ahora);
    var d := Depurado(a, ahora);
    forall k | 0 <= k < |d.contexto| ensures d.contexto[k].respuesta != "" {
      assert d.contexto[k] in a.contexto;
    }
  }

  /** Consolidation deletes a record exactly when it is weak; each kept
      record's contexts become the last five (all, when fewer) of its entries
      younger than a week, in their old order, and nothing else about it
      changes. */
  lemma {:induction false} ConsolidadoEfecto(m: Almacen, ahora: int)
    ensures forall w :: w in Consolidado(m, ahora) <==> w in m && !Debil(m[w])
    ensures forall w :: w in Consolidado(m, ahora) ==>
              var a := Consolidado(m, ahora)[w];
              var rs := ContextosRecientes(m[w].contexto, ahora);
              && |a.contexto| == (if |rs| < 5 then |rs| else 5)
              && a.contexto == rs[|rs| - |a.contexto|..]
              && a == m[w].(contexto := a.contexto)
  {
    forall w | w in Consolidado(m, ahora)
      ensures var a := Consolidado(m, ahora)[w];
              var rs := ContextosRecientes(m[w].contexto, ahora);
              && |a.contexto| == (if |rs| < 5 then |rs| else 5)
              && a.contexto == rs[|rs| - |a.contexto|..]
              && a == m[w].(contexto := a.contexto)
    {
      DepuradoEfecto(m[w], ahora);
    }
  }

  /** Strength starts at 0.5 and only grows, so on a valid store the deletion
      guard never fires: consolidation keeps every word and every
      association, and the store stays valid. */
  lemma {:induction false} ConsolidadoValido(m: Almacen, ahora: int)
    requires AlmacenValido(m)
    ensures Consolidado(m, ahora).Keys == m.Keys
    ensures forall w :: w in m ==> Consolidado(m, ahora)[w].asociaciones == m[w].asociaciones
    ensures AlmacenValido(Consolidado(m, ahora))
  {
    var r := Consolidado(m, ahora);
    forall w | w in m ensures w in r && r[w] == Depurado(m[w], ahora) {
      assert !Debil(m[w]);
    }
    assert r.Keys == m.Keys;
    forall w | w in r ensures RegistroValido(r[w]) && r[w].asociaciones == m[w].asociaciones {
      DepuradoValido(m[w], ahora);
    }
  }

  // ---------------------------------------------------------------- best-reply lookup

  /** A token whose record exists and has a context to answer with. */
  predicate Elegible(m: Almacen, w: string) {
    w in m && |m[w].contexto| > 0
  }

  /** The reply of a record's newest context. */
  function UltimaRespuesta(a: Aprendizaje): string
    requires |a.contexto| > 0
  {
    a.contexto[|a.contexto| - 1].respuesta
  }

  /** The lookup's running state: `mejorFuerza` and `mejorRespuesta`. */
  datatype Mejor = Mejor(fuerza: real, respuesta: Option<string>)

  /** The lookup over the tokens `ps`: an eligible token replaces the best so
      far when its strength is strictly greater. */
  function Seleccion(m: Almacen, ps: seq<string>): Mejor {
    if ps == [] then Mejor(0.0, None)
    else
      var b := Seleccion(m, ps[..|ps| - 1]);
      var w := ps[|ps| - 1];
      if Elegible(m, w) && m[w].fuerzaContextual > b.fuerza then Mejor(m[w].fuerzaContextual, Some(UltimaRespuesta(m[w])))
      else b
  }

  /** The lookup finds the first token, in message order, among those with
      the greatest strength above 0: its strength bounds every eligible
      token's, earlier eligible tokens are strictly weaker, and the reply is
      its newest context's. Nothing is found exactly when no eligible token
      has strength above 0. */
  lemma {:induction false} SeleccionEsMejor(m: Almacen, ps: seq<string>)
    ensures var b := Seleccion(m, ps);
            b.respuesta.None? <==> forall j :: 0 <= j < |ps| && Elegible(m, ps[j]) ==> m[ps[j]].fuerzaContextual <= 0.0
    ensures var b := Seleccion(m, ps);
            b.respuesta.Some? ==>
              exists i :: 0 <= i < |ps| && Elegible(m, ps[i])
                && b.fuerza == m[ps[i]].fuerzaContextual > 0.0
                && b.respuesta == Some(UltimaRespuesta(m[ps[i]]))
                && (forall j :: 0 <= j < i && Elegible(m, ps[j]) ==> m[ps[j]].fuerzaContextual < b.fuerza)
    ensures var b := Seleccion(m, ps);
            forall j :: 0 <= j < |ps| && Elegible(m, ps[j]) ==> m[ps[j]].fuerzaContextual <= b.fuerza
    ensures Seleccion(m, ps).respuesta.None? ==> Seleccion(m, ps).fuerza == 0.0
  {
    if ps != [] {
      var ini := ps[..|ps| - 1];
      SeleccionEsMejor(m, ini);
      var b0 := Seleccion(m, ini);
      var w := ps[|ps| - 1];
      var b := Seleccion(m, ps);
      assert forall j :: 0 <= j < |ini| ==> ps[j] == ini[j];
      if Elegible(m, w) && m[w].fuerzaContextual > b0.fuerza {
        assert b.respuesta == Some(UltimaRespuesta(m[ps[|ps| - 1]]));
      } else if b0.respuesta.Some? {
        var i :| 0 <= i < |ini| && Elegible(m, ini[i])
                && b0.fuerza == m[ini[i]].fuerzaContextual > 0.0
                && b0.respuesta == Some(UltimaRespuesta(m[ini[i]]))
                && (forall j :: 0 <= j < i && Elegible(m, ini[j]) ==> m[ini[j]].fuerzaContextual < b0.fuerza);
        assert ps[i] == ini[i];
      }
    }
  }

  /** On a valid store a lookup finds a reply exactly when some token has a
      record with a context, and the reply found is never empty. */
  lemma {:induction false} SeleccionValida(m: Almacen, ps: seq<string>)
    requires AlmacenValido(m)
    ensures Seleccion(m, ps).respuesta.Some? <==> exists j :: 0 <= j < |ps| && Elegible(m, ps[j])
    ensures Seleccion(m, ps).respuesta.Some? ==> Seleccion(m, ps).respuesta.value != ""
  {
    SeleccionEsMejor(m, ps);
    if exists j :: 0 <= j < |ps| && Elegible(m, ps[j]) {
      var j :| 0 <= j < |ps| && Elegible(m, ps[j]);
      assert m[ps[j]].fuerzaContextual >= 0.5;
    }
    if Seleccion(m, ps).respuesta.Some? {
      var b := Seleccion(m, ps);
      var i :| 0 <= i < |ps| && Elegible(m, ps[i]) && b.respuesta == Some(UltimaRespuesta(m[ps[i]]));
      assert RegistroValido(m[ps[i]]);
    }
  }
}
