/** The main system (`SistemaLunaConsciente`): the conversation store, the
    word-learning store and the counters, the learning tasks its timers run,
    and message processing, which answers from what was learnt or from the
    inner voice. Random draws and the clock are parameters. */
module Luna {
  import opened Comun
  import opened Tokens
  import opened Investigaciones
  import opened Memoria
  import opened VozInterna

  // ---------------------------------------------------------------- the learning cycle as a value

  /** The store after one `cicloAprendizaje` in learning cycle `ciclo`: the
      last 20 conversations are ingested, every record is reinforced by the
      consciousness `consciencia`, and the first `Intentos` drawn pairs are
      associated when at least two words are stored. */
  function Aprendido(m: Almacen, convs: seq<Conversacion>, ciclo: nat, consciencia: real,
                     pares: seq<(string, string)>): Almacen
    requires |pares| >= 5
  {
    var m1 := if |convs| > 0 then Ingerir(m, Ultimos(convs, 20), ciclo) else m;
    var m2 := Reforzadas(m1, consciencia);
    if |m2| < 2 then m2 else AsociarTodos(m2, pares[..Intentos(|m2|)])
  }

  /** The store after the first two steps of a learning cycle. */
  function Reforzado1(m: Almacen, convs: seq<Conversacion>, ciclo: nat, consciencia: real): Almacen {
    Reforzadas(if |convs| > 0 then Ingerir(m, Ultimos(convs, 20), ciclo) else m, consciencia)
  }

  /** The learning cycle in its stages: association follows reinforcement. */
  lemma {:induction false} AprendidoEnPasos(m: Almacen, convs: seq<Conversacion>, ciclo: nat, consciencia: real,
                         pares: seq<(string, string)>)
    requires |pares| >= 5
    ensures var m2 := Reforzado1(m, convs, ciclo, consciencia);
            Aprendido(m, convs, ciclo, consciencia, pares) ==
              if |m2| < 2 then m2 else AsociarTodos(m2, pares[..Intentos(|m2|)])
  {
  }

  /** A learning cycle stores exactly the old words and the tokens of the
      last 20 conversations that are not skipped, and counts each such token
      once per occurrence. */
  lemma {:induction false} AprendidoPalabras(m: Almacen, convs: seq<Conversacion>, ciclo: nat, consciencia: real,
                          pares: seq<(string, string)>, w: string)
    requires |pares| >= 5
    ensures w in Aprendido(m, convs, ciclo, consciencia, pares) <==> w in m || w in Palabras(Ultimos(convs, 20))
    ensures Frecuencia(Aprendido(m, convs, ciclo, consciencia, pares), w) ==
              Frecuencia(m, w) + Cuenta(Palabras(Ultimos(convs, 20)), w)
  {
    var u := Ultimos(convs, 20);
    var m1 := if |convs| > 0 then Ingerir(m, u, ciclo) else m;
    IngerirEfecto(m, u, ciclo);
    assert |convs| == 0 ==> u == [] && Palabras(u) == [];
    var m2 := Reforzadas(m1, consciencia);
    assert m2 == Reforzado1(m, convs, ciclo, consciencia);
    ReforzadasEfecto(m1, consciencia);
    assert Frecuencia(m2, w) == Frecuencia(m1, w);
    if |m2| >= 2 {
      var ps := pares[..Intentos(|m2|)];
      AsociarTodosClaves(m2, ps);
      AsociarTodosFrecuencia(m2, ps, w);
    }
  }

  /** A learning cycle links both ways every drawn pair of distinct stored
      words among the pairs it tries. */
  lemma {:induction false} AprendidoEnlaza(m: Almacen, convs: seq<Conversacion>, ciclo: nat, consciencia: real,
                        pares: seq<(string, string)>, k: nat)
    requires |pares| >= 5
    requires var m2 := Reforzado1(m, convs, ciclo, consciencia);
             |m2| >= 2 && k < Intentos(|m2|) && pares[k].0 != pares[k].1 && pares[k].0 in m2 && pares[k].1 in m2
    ensures var r := Aprendido(m, convs, ciclo, consciencia, pares);
            && pares[k].0 in r && pares[k].1 in r
            && pares[k].1 in r[pares[k].0].asociaciones && pares[k].0 in r[pares[k].1].asociaciones
  {
    var m2 := Reforzado1(m, convs, ciclo, consciencia);
    AsociarTodosEnlaza(m2, pares[..Intentos(|m2|)], k);
  }

  /** With a non-negative consciousness a learning cycle keeps a valid store valid. */
  lemma {:induction false} AprendidoValido(m: Almacen, convs: seq<Conversacion>, ciclo: nat, consciencia: real,
                        pares: seq<(string, string)>)
    requires |pares| >= 5
    requires consciencia >= 0.0 && AlmacenValido(m)
    ensures AlmacenValido(Aprendido(m, convs, ciclo, consciencia, pares))
  {
    var u := Ultimos(convs, 20);
    var m1 := if |convs| > 0 then Ingerir(m, u, ciclo) else m;
    IngerirValido(m, u, ciclo);
    var m2 := Reforzadas(m1, consciencia);
    ReforzadasValido(m1, consciencia);
    if |m2| >= 2 {
      AsociarTodosValido(m2, pares[..Intentos(|m2|)]);
    }
  }

  /** One more drawn pair. */
  lemma {:induction false} AsociarTodosPaso(m: Almacen, pares: seq<(string, string)>, j: nat)
    requires j < |pares|
    ensures AsociarTodos(m, pares[..j + 1]) == Asociar(AsociarTodos(m, pares[..j]), pares[j].0, pares[j].1)
  { assert pares[..j + 1][..j] == pares[..j]; }

  /** One more token of a message. */
  lemma {:induction false} RegistrarTodasPaso(m: Almacen, ps: seq<string>, j: nat, ctx: Contexto)
    requires j < |ps|
    ensures RegistrarTodas(m, ps[..j + 1], ctx) == Registrar(RegistrarTodas(m, ps[..j], ctx), ps[j], ctx)
  {
    assert ps[..j + 1][..j] == ps[..j];
  }

  /** Association never changes a count. */
  lemma {:induction false} AsociarTodosFrecuencia(m: Almacen, pares: seq<(string, string)>, w: string)
    ensures Frecuencia(AsociarTodos(m, pares), w) == Frecuencia(m, w)
  {
    if pares != [] {
      AsociarTodosFrecuencia(m, pares[..|pares| - 1], w);
    }
  }

  /** A conversation with a non-empty message and a non-empty reply is learnt
      from: afterwards each of its tokens is stored and answers with that
      reply, tagged with the learning cycle. */
  lemma {:induction false} ConversacionAprendida(m: Almacen, c: Conversacion, ciclo: nat, w: string)
    requires !Omitida(c)
    requires w in Tokenizar(c.mensaje)
    ensures w in IngerirUna(m, c, ciclo)
    ensures NuevoContexto(IngerirUna(m, c, ciclo)[w], Contexto(c.respuesta.value, c.timestamp, ciclo))
  {
    RegistrarTodasUltimo(m, Tokenizar(c.mensaje), ContextoDe(c, ciclo), w);
  }

  // ---------------------------------------------------------------- synthetic knowledge as a value

  /** The strength of the synthetic association `generarConocimientoSintetico`
      logs for the drawn words `base` and `asociada`, or `None` when it returns
      early (fewer than three words, or a base without associations). */
  function Sintesis(m: Almacen, base: string, asociada: string): (r: Option<real>)
    requires AlmacenValido(m)
    requires base in m && |m[base].asociaciones| >= 1 ==> asociada in m[base].asociaciones
    ensures r.Some? ==> |m| >= 3 && base in m && asociada in m
    ensures r.Some? ==> 0.5 <= r.value <= 1.0
    ensures r.Some? ==> (r.value == m[base].fuerzaContextual || r.value == m[asociada].fuerzaContextual ||
                         (m[base].fuerzaContextual < r.value < m[asociada].fuerzaContextual) ||
                         (m[asociada].fuerzaContextual < r.value < m[base].fuerzaContextual))
    ensures r.None? <==> |m| < 3 || base !in m || m[base].asociaciones == {}
  {
    if |m| < 3 then None
    else if base !in m || |m[base].asociaciones| < 1 then None
    else Some((m[base].fuerzaContextual + m[asociada].fuerzaContextual) / 2.0)
  }

  // ---------------------------------------------------------------- replies as values

  /** The four inner-voice replies, for the consciousness, the learning cycle
      and the number of active connections. */
  function Plantillas(consciencia: real, ciclos: nat, conexiones: nat): (r: seq<string>)
    ensures |r| == 4
    ensures forall k :: 0 <= k < 4 ==> r[k] != ""
  {
    ["Mi consciencia actual es " + Fijo3(consciencia) + ". Estoy procesando tu mensaje...",
     "[Voz interna activa] " + "Analizando profundamente...",
     "En ciclo " + NatToString(ciclos) + " con " + NatToString(conexiones) + " conexiones activas.",
     "Sistema de pensamiento " + "autónomo integrando tu mensaje..."]
  }

  /** The prefix of a learnt reply. */
  function Etiqueta(ciclos: nat): string {
    "[Ciclo " + NatToString(ciclos) + "] "
  }

  /** `generarRespuestaInteligente(mensaje)` in learning cycle `ciclos` with
      inner-voice state `v` and template draw `k`. */
  function Respuesta(m: Almacen, ciclos: nat, v: Voz, mensaje: string, k: nat): string
    requires k < 4
  {
    var b := Seleccion(m, Tokenizar(mensaje));
    if b.respuesta.Some? && b.respuesta.value != "" then Etiqueta(ciclos) + b.respuesta.value
    else Plantillas(v.niveles.consciencia, ciclos, |v.conexiones|)[k]
  }

  /** A reply is never empty. On a valid store it is learnt exactly when some
      token of the message has a record with a context: it is then the cycle
      tag followed by the newest reply of the strongest such token, the first
      one in message order among equals; otherwise it is template `k`. */
  lemma {:induction false} RespuestaEfecto(m: Almacen, ciclos: nat, v: Voz, mensaje: string, k: nat)
    requires k < 4
    ensures Respuesta(m, ciclos, v, mensaje, k) != ""
    ensures var ps := Tokenizar(mensaje);
            AlmacenValido(m) && (exists j :: 0 <= j < |ps| && Elegible(m, ps[j])) ==>
              exists i :: 0 <= i < |ps| && Elegible(m, ps[i])
                && Respuesta(m, ciclos, v, mensaje, k) == Etiqueta(ciclos) + UltimaRespuesta(m[ps[i]])
                && (forall j :: 0 <= j < |ps| && Elegible(m, ps[j]) ==> m[ps[j]].fuerzaContextual <= m[ps[i]].fuerzaContextual)
                && (forall j :: 0 <= j < i && Elegible(m, ps[j]) ==> m[ps[j]].fuerzaContextual < m[ps[i]].fuerzaContextual)
    ensures var ps := Tokenizar(mensaje);
            !(exists j :: 0 <= j < |ps| && Elegible(m, ps[j])) ==>
              Respuesta(m, ciclos, v, mensaje, k) == Plantillas(v.niveles.consciencia, ciclos, |v.conexiones|)[k]
  {
    var ps := Tokenizar(mensaje);
    SeleccionEsMejor(m, ps);
    if AlmacenValido(m) {
      SeleccionValida(m, ps);
    }
    assert |Etiqueta(ciclos)| > 0;
  }

  /** A learnt reply and a template can be told apart by their first two
      characters. */
  lemma {:induction false} EtiquetaDistingue(ciclos: nat, consciencia: real, c: nat, conexiones: nat, k: nat, s: string)
    requires k < 4
    ensures Plantillas(consciencia, c, conexiones)[k] != Etiqueta(ciclos) + s
  {
    var e := Etiqueta(ciclos) + s;
    assert e[0] == '[' && e[1] == 'C';
    var p := Plantillas(consciencia, c, conexiones)[k];
    if k == 0 {
      assert p[0] == 'M';
    } else if k == 1 {
      assert p[1] == 'V';
    } else if k == 2 {
      assert p[0] == 'E';
    } else {
      assert p[0] == 'S';
    }
  }

  // ---------------------------------------------------------------- the system

  class SistemaLunaConsciente {
    var conversaciones: seq<Conversacion>
    var aprendizaje: Almacen
    var ciclosTotales: nat
    var mensajesProcesados: nat
    var palabrasAprendidas: nat
    var investigacionesGeneradas: nat
    var inicio: int
    const vozInterna: VozInternaConsciente

    /** A valid inner voice and a valid learning store. */
    ghost predicate Valid()
      reads this, vozInterna
    {
      vozInterna.Valid() && AlmacenValido(aprendizaje)
    }

    /** Empty stores, zero counters and a fresh inner voice; `ahora` is the start time. */
    constructor (ahora: int)
      ensures Valid() && fresh(vozInterna) && vozInterna.Vista() == VOZ_INICIAL
      ensures conversaciones == [] && aprendizaje == map[] && inicio == ahora
      ensures ciclosTotales == 0 && mensajesProcesados == 0 && palabrasAprendidas == 0 && investigacionesGeneradas == 0
    {
      conversaciones := [];
      aprendizaje := map[];
      ciclosTotales := 0;
      mensajesProcesados := 0;
      palabrasAprendidas := 0;
      investigacionesGeneradas := 0;
      inicio := ahora;
      vozInterna := new VozInternaConsciente();
    }

    /** `cicloAprendizaje`: count the cycle, learn from the last 20
        conversations, reinforce with the inner voice, then associate words
        using the drawn pairs. */
    method CicloAprendizaje(pares: seq<(string, string)>, ahora: int)
      requires Valid()
      requires |pares| >= 5
      modifies this`ciclosTotales, this`aprendizaje, this`palabrasAprendidas, this`investigacionesGeneradas
      ensures Valid()
      ensures ciclosTotales == old(ciclosTotales) + 1
      ensures aprendizaje == Aprendido(old(aprendizaje), conversaciones, ciclosTotales, vozInterna.niveles.consciencia, pares)
      ensures palabrasAprendidas == old(palabrasAprendidas) + |aprendizaje.Keys - old(aprendizaje).Keys|
      ensures investigacionesGeneradas == |vozInterna.investigacionesActivas|
    {
      ghost var m0 := aprendizaje;
      ciclosTotales := ciclosTotales + 1;
      AprenderDeRecientes();
      ghost var m1 := aprendizaje;
      ghost var consciencia := vozInterna.niveles.consciencia;
      IntegrarVozInterna(ahora);
      ghost var m2 := aprendizaje;
      assert m2 == Reforzado1(m0, conversaciones, ciclosTotales, consciencia);
      assert m2.Keys == m1.Keys by { ReforzadasEfecto(m1, consciencia); }
      AprendizajeAutonomo(pares);
      assert aprendizaje.Keys == m2.Keys by {
        if |m2| >= 2 {
          AsociarTodosClaves(m2, pares[..Intentos(|m2|)]);
        }
      }
      assert aprendizaje.Keys - m0.Keys == m1.Keys - m0.Keys;
      assert aprendizaje == Aprendido(m0, conversaciones, ciclosTotales, consciencia, pares) by {
        AprendidoEnPasos(m0, conversaciones, ciclosTotales, consciencia, pares);
      }
    }

    /** The first step of a learning cycle: when there are conversations,
        learn from the last 20 of them. */
    method AprenderDeRecientes()
      requires Valid()
      modifies this`aprendizaje, this`palabrasAprendidas
      ensures Valid()
      ensures aprendizaje == if |conversaciones| > 0 then Ingerir(old(aprendizaje), Ultimos(conversaciones, 20), ciclosTotales)
                             else old(aprendizaje)
      ensures palabrasAprendidas == old(palabrasAprendidas) + |aprendizaje.Keys - old(aprendizaje).Keys|
    {
      if |conversaciones| > 0 {
        var ultimas := Ultimos(conversaciones, 20);
        IngerirValido(aprendizaje, ultimas, ciclosTotales);
        ExtraerPatronesAprendizaje(ultimas);
      } else {
        assert aprendizaje.Keys - old(aprendizaje).Keys == {};
      }
    }

    /** One token of `extraerPatronesAprendizaje`: create the record of a
        word seen for the first time, counting it as learnt, then count the
        word, append the context keeping the last ten and strengthen it. */
    method AprenderPalabra(palabra: string, contexto: Contexto)
      modifies this`aprendizaje, this`palabrasAprendidas
      ensures aprendizaje == Registrar(old(aprendizaje), palabra, contexto)
      ensures palabrasAprendidas == old(palabrasAprendidas) + if palabra in old(aprendizaje) then 0 else 1
    {
      if palabra !in aprendizaje {
        aprendizaje := aprendizaje[palabra := APRENDIZAJE_NUEVO];
        palabrasAprendidas := palabrasAprendidas + 1;
      }
      var a := aprendizaje[palabra];
      a := a.(frecuencia := a.frecuencia + 1);
      var contextos := a.contexto + [contexto];
      if |contextos| > 10 {
        contextos := contextos[|contextos| - 10..];
      }
      a := a.(contexto := contextos);
      a := a.(fuerzaContextual := Min1(a.fuerzaContextual + 0.05));
      aprendizaje := aprendizaje[palabra := a];
    }

    /** `palabras.forEach(...)`: every token is learnt, in order, with the
        same context. */
    method AprenderPalabras(palabras: seq<string>, contexto: Contexto)
      modifies this`aprendizaje, this`palabrasAprendidas
      ensures aprendizaje == RegistrarTodas(old(aprendizaje), palabras, contexto)
      ensures old(aprendizaje).Keys <= aprendizaje.Keys
      ensures palabrasAprendidas == old(palabrasAprendidas) + |aprendizaje.Keys - old(aprendizaje).Keys|
    {
      ghost var m0 := aprendizaje;
      for j := 0 to |palabras|
        invariant aprendizaje == RegistrarTodas(m0, palabras[..j], contexto)
        invariant m0.Keys <= aprendizaje.Keys
        invariant palabrasAprendidas == old(palabrasAprendidas) + |aprendizaje.Keys - m0.Keys|
      {
        RegistrarTodasPaso(m0, palabras, j, contexto);
        if palabras[j] !in aprendizaje {
          NuevaClave(m0, aprendizaje, palabras[j], APRENDIZAJE_NUEVO);
        }
        AprenderPalabra(palabras[j], contexto);
      }
      assert palabras[..|palabras|] == palabras;
    }

    /** One conversation of `extraerPatronesAprendizaje`: unless it is
        skipped, every token of its message is learnt with its context. */
    method AprenderConversacion(conv: Conversacion)
      modifies this`aprendizaje, this`palabrasAprendidas
      ensures aprendizaje == IngerirUna(old(aprendizaje), conv, ciclosTotales)
      ensures old(aprendizaje).Keys <= aprendizaje.Keys
      ensures palabrasAprendidas == old(palabrasAprendidas) + |aprendizaje.Keys - old(aprendizaje).Keys|
    {
      if !Omitida(conv) {
        var palabras := Tokenizar(conv.mensaje);
        var contexto := Contexto(conv.respuesta.value, conv.timestamp, ciclosTotales);
        assert contexto == ContextoDe(conv, ciclosTotales);
        AprenderPalabras(palabras, contexto);
      } else {
        assert aprendizaje.Keys - old(aprendizaje).Keys == {};
      }
    }

    /** `extraerPatronesAprendizaje(convs)`: every token of every
        conversation that is not skipped is learnt with the conversation's
        context; each word seen for the first time is counted as learnt. */
    method ExtraerPatronesAprendizaje(convs: seq<Conversacion>)
      modifies this`aprendizaje, this`palabrasAprendidas
      ensures aprendizaje == Ingerir(old(aprendizaje), convs, ciclosTotales)
      ensures palabrasAprendidas == old(palabrasAprendidas) + |aprendizaje.Keys - old(aprendizaje).Keys|
    {
      ghost var m0 := aprendizaje;
      var i := 0;
      while i < |convs|
        invariant i <= |convs|
        invariant aprendizaje == Ingerir(m0, convs[..i], ciclosTotales)
        invariant m0.Keys <= aprendizaje.Keys
        invariant palabrasAprendidas == old(palabrasAprendidas) + |aprendizaje.Keys - m0.Keys|
      {
        assert convs[..i + 1][..i] == convs[..i];
        ghost var antes := aprendizaje;
        AprenderConversacion(convs[i]);
        DiferenciaEncadenada(m0.Keys, antes.Keys, aprendizaje.Keys);
        i := i + 1;
      }
      assert convs[..i] == convs;
    }

    /** New words counted in two stages add up. */
    static lemma {:induction false} DiferenciaEncadenada(a: set<string>, b: set<string>, c: set<string>)
      requires a <= b <= c
      ensures |c - a| == |b - a| + |c - b|
    {
      assert c - a == (b - a) + (c - b);
      assert (b - a) * (c - b) == {};
    }

    /** `integrarVozInterna`: record the number of active investigations and
        strengthen every record by the inner voice's consciousness. */
    method IntegrarVozInterna(ahora: int)
      requires Valid()
      modifies this`aprendizaje, this`investigacionesGeneradas
      ensures Valid()
      ensures aprendizaje == Reforzadas(old(aprendizaje), vozInterna.niveles.consciencia)
      ensures investigacionesGeneradas == |vozInterna.investigacionesActivas|
    {
      var estadoVoz := vozInterna.ObtenerEstado(ahora);
      var factorConsciencia := estadoVoz.niveles.consciencia;
      investigacionesGeneradas := estadoVoz.investigacionesActivas;
      ghost var inicial := aprendizaje;
      var pendientes := aprendizaje.Keys;
      EnRefuerzoInicio(inicial, factorConsciencia);
      while pendientes != {}
        invariant pendientes <= inicial.Keys
        invariant aprendizaje == EnRefuerzo(inicial, factorConsciencia, pendientes)
        invariant investigacionesGeneradas == |vozInterna.investigacionesActivas|
        decreases pendientes
      {
        var palabra :| palabra in pendientes;
        EnRefuerzoPaso(inicial, factorConsciencia, pendientes, palabra);
        var aprendizajePalabra := aprendizaje[palabra];
        aprendizaje := aprendizaje[palabra := Reforzado(aprendizajePalabra, factorConsciencia)];
        pendientes := pendientes - {palabra};
      }
      EnRefuerzoFin(inicial, factorConsciencia);
      assert AlmacenValido(aprendizaje) by {
        assert vozInterna.Valid();
        ReforzadasValido(inicial, factorConsciencia);
      }
    }

    /** The store part-way through reinforcement: the words in `pendientes`
        are not visited yet. */
    static function EnRefuerzo(m: Almacen, consciencia: real, pendientes: set<string>): Almacen {
      map w | w in m :: if w in pendientes then m[w] else Reforzado(m[w], consciencia)
    }

    static lemma {:induction false} EnRefuerzoInicio(m: Almacen, consciencia: real)
      ensures EnRefuerzo(m, consciencia, m.Keys) == m
    {
    }

    static lemma {:induction false} EnRefuerzoFin(m: Almacen, consciencia: real)
      ensures EnRefuerzo(m, consciencia, {}) == Reforzadas(m, consciencia)
    {
    }

    /** Visiting one pending word reinforces exactly that record. */
    static lemma {:induction false} EnRefuerzoPaso(m: Almacen, consciencia: real, pendientes: set<string>, w: string)
      requires w in pendientes && pendientes <= m.Keys
      ensures w in EnRefuerzo(m, consciencia, pendientes) && EnRefuerzo(m, consciencia, pendientes)[w] == m[w]
      ensures EnRefuerzo(m, consciencia, pendientes - {w}) ==
                EnRefuerzo(m, consciencia, pendientes)[w := Reforzado(m[w], consciencia)]
    {
      var despues := EnRefuerzo(m, consciencia, pendientes - {w});
      var esperado := EnRefuerzo(m, consciencia, pendientes)[w := Reforzado(m[w], consciencia)];
      assert despues.Keys == esperado.Keys;
    }

    /** `aprendizajeAutonomo`: with at least two words stored, try
        `Intentos` pairs of drawn words, linking the two of a pair when they
        differ and are both stored. */
    method AprendizajeAutonomo(pares: seq<(string, string)>)
      requires AlmacenValido(aprendizaje)
      requires |pares| >= 5
      modifies this`aprendizaje
      ensures AlmacenValido(aprendizaje)
      ensures aprendizaje == if |old(aprendizaje)| < 2 then old(aprendizaje)
                             else AsociarTodos(old(aprendizaje), pares[..Intentos(|old(aprendizaje)|)])
    {
      ghost var inicial := aprendizaje;
      var n := |aprendizaje|;
      if n < 2 {
        return;
      }
      var intentos := Intentos(n);
      AsociarTodosValido(inicial, pares[..intentos]);
      for i := 0 to intentos
        invariant aprendizaje == AsociarTodos(inicial, pares[..i])
      {
        ghost var antes := aprendizaje;
        var palabra1 := pares[i].0;
        var palabra2 := pares[i].1;
        if palabra1 != palabra2 {
          if palabra1 in aprendizaje && palabra2 in aprendizaje {
            var aprendizaje1 := aprendizaje[palabra1];
            var aprendizaje2 := aprendizaje[palabra2];
            aprendizaje := aprendizaje[palabra1 := aprendizaje1.(asociaciones := aprendizaje1.asociaciones + {palabra2},
                                                                 fuerzaContextual := Min1(aprendizaje1.fuerzaContextual + 0.01))];
            aprendizaje := aprendizaje[palabra2 := aprendizaje2.(asociaciones := aprendizaje2.asociaciones + {palabra1},
                                                                 fuerzaContextual := Min1(aprendizaje2.fuerzaContextual + 0.01))];
          }
        }
        assert aprendizaje == Asociar(antes, palabra1, palabra2);
        AsociarTodosPaso(inicial, pares, i);
      }
    }

    /** `consolidarConocimiento`: drop the conversations older than a week,
        then visit every word, deleting a weak record and keeping the last
        five recent contexts of one with contexts. */
    method ConsolidarConocimiento(ahora: int)
      modifies this`conversaciones, this`aprendizaje
      ensures conversaciones == ConversacionesRecientes(old(conversaciones), ahora)
      ensures aprendizaje == Consolidado(old(aprendizaje), ahora)
      ensures old(Valid()) ==> Valid()
    {
      if Valid() {
        ConsolidadoValido(aprendizaje, ahora);
      }
      conversaciones := ConversacionesRecientes(conversaciones, ahora);
      ghost var inicial := aprendizaje;
      var pendientes := aprendizaje.Keys;
      EnDepuracionInicio(inicial, ahora);
      while pendientes != {}
        invariant pendientes <= inicial.Keys
        invariant aprendizaje == EnDepuracion(inicial, ahora, pendientes)
        invariant conversaciones == ConversacionesRecientes(old(conversaciones), ahora)
        decreases pendientes
      {
        var palabra :| palabra in pendientes;
        EnDepuracionPaso(inicial, ahora, pendientes, palabra);
        var a := aprendizaje[palabra];
        if a.frecuencia < 2 && a.fuerzaContextual < 0.3 {
          aprendizaje := aprendizaje - {palabra};
        }
        if |a.contexto| > 0 {
          // The record is updated in place, which a deleted record no longer shows.
          a := a.(contexto := Ultimos(ContextosRecientes(a.contexto, ahora), 5));
          if palabra in aprendizaje {
            aprendizaje := aprendizaje[palabra := a];
          }
        }
        pendientes := pendientes - {palabra};
      }
      EnDepuracionFin(inicial, ahora);
    }

    /** The store part-way through consolidation: the words in `pendientes`
        are not visited yet. */
    static function EnDepuracion(m: Almacen, ahora: int, pendientes: set<string>): Almacen {
      map w | w in m && (w in pendientes || !Debil(m[w])) :: if w in pendientes then m[w] else Depurado(m[w], ahora)
    }

    static lemma {:induction false} EnDepuracionInicio(m: Almacen, ahora: int)
      ensures EnDepuracion(m, ahora, m.Keys) == m
    {
    }

    static lemma {:induction false} EnDepuracionFin(m: Almacen, ahora: int)
      ensures EnDepuracion(m, ahora, {}) == Consolidado(m, ahora)
    {
    }

    /** Visiting one pending word deletes or trims exactly that record. */
    static lemma {:induction false} EnDepuracionPaso(m: Almacen, ahora: int, pendientes: set<string>, w: string)
      requires w in pendientes && pendientes <= m.Keys
      ensures w in EnDepuracion(m, ahora, pendientes) && EnDepuracion(m, ahora, pendientes)[w] == m[w]
      ensures EnDepuracion(m, ahora, pendientes - {w}) ==
                if Debil(m[w]) then EnDepuracion(m, ahora, pendientes) - {w}
                else EnDepuracion(m, ahora, pendientes)[w := Depurado(m[w], ahora)]
    {
      var antes := EnDepuracion(m, ahora, pendientes);
      var despues := EnDepuracion(m, ahora, pendientes - {w});
      var esperado := if Debil(m[w]) then antes - {w} else antes[w := Depurado(m[w], ahora)];
      assert despues.Keys == esperado.Keys;
      forall k | k in despues ensures despues[k] == esperado[k] {
      }
    }

    /** `generarConocimientoSintetico` with the drawn words `base` (a stored
        word) and `asociada` (one of its associations): log the association
        with the mean of the two strengths in the inner voice's log. */
    method GenerarConocimientoSintetico(base: string, asociada: string, ahora: int)
      requires Valid()
      requires |aprendizaje| >= 3 ==> base in aprendizaje
      requires base in aprendizaje && |aprendizaje[base].asociaciones| >= 1 ==> asociada in aprendizaje[base].asociaciones
      modifies vozInterna`dialogosInternos
      ensures Valid()
      ensures vozInterna.Vista() ==
                match Sintesis(aprendizaje, base, asociada)
                case None => old(vozInterna.Vista())
                case Some(f) => ConConocimiento(old(vozInterna.Vista()), base, asociada, f, ciclosTotales, ahora)
    {
      ConocimientoCoherente(vozInterna.Vista(), base, asociada, 0.0, ciclosTotales, ahora);
      if |aprendizaje| < 3 {
        return;
      }
      if base !in aprendizaje || |aprendizaje[base].asociaciones| < 1 {
        return;
      }
      var fuerza := (aprendizaje[base].fuerzaContextual + aprendizaje[asociada].fuerzaContextual) / 2.0;
      ConocimientoCoherente(vozInterna.Vista(), base, asociada, fuerza, ciclosTotales, ahora);
      vozInterna.dialogosInternos := vozInterna.dialogosInternos + [ConocimientoGenerado(base, asociada, fuerza, ciclosTotales, ahora)];
    }

    /** `procesarMensaje`: count the message, store the conversation, answer
        it, record the answer in the stored conversation and tell the inner
        voice. The store of learnt words is not touched. */
    method ProcesarMensaje(mensaje: string, k: nat, ahora: int) returns (respuesta: string)
      requires Valid()
      requires k < 4
      modifies this`mensajesProcesados, this`conversaciones, vozInterna`niveles, vozInterna`dialogosInternos
      ensures Valid()
      ensures mensajesProcesados == old(mensajesProcesados) + 1
      ensures respuesta == Respuesta(aprendizaje, ciclosTotales, old(vozInterna.Vista()), mensaje, k)
      ensures conversaciones == old(conversaciones) + [Conversacion(mensaje, ahora, Some(respuesta), ciclosTotales)]
      ensures vozInterna.Vista() == ConInteraccion(old(vozInterna.Vista()), mensaje, respuesta, ciclosTotales, ahora)
    {
      ghost var voz0 := vozInterna.Vista();
      mensajesProcesados := mensajesProcesados + 1;
      var conversacion := Conversacion(mensaje, ahora, None, ciclosTotales);
      conversaciones := conversaciones + [conversacion];
      respuesta := GenerarRespuestaInteligente(mensaje, k, ahora);
      conversaciones := conversaciones[|conversaciones| - 1 := conversacion.(respuesta := Some(respuesta))];
      assert conversaciones == old(conversaciones) + [conversacion.(respuesta := Some(respuesta))];
      assert respuesta == Respuesta(aprendizaje, ciclosTotales, voz0, mensaje, k);
      IntegrarInteraccionVozInterna(mensaje, respuesta, ahora);
    }

    /** `generarRespuestaInteligente`: the newest reply of the strongest
        token of the message that has a record with a context, tagged with
        the learning cycle; otherwise inner-voice template `k`. */
    method GenerarRespuestaInteligente(mensaje: string, k: nat, ahora: int) returns (r: string)
      requires k < 4
      ensures r == Respuesta(aprendizaje, ciclosTotales, vozInterna.Vista(), mensaje, k)
    {
      var palabras := Tokenizar(mensaje);
      var mejorRespuesta: Option<string> := None;
      var mejorFuerza: real := 0.0;
      for i := 0 to |palabras|
        invariant Mejor(mejorFuerza, mejorRespuesta) == Seleccion(aprendizaje, palabras[..i])
      {
        var palabra := palabras[i];
        assert palabras[..i + 1][..i] == palabras[..i];
        if palabra in aprendizaje && |aprendizaje[palabra].contexto| > 0 {
          var a := aprendizaje[palabra];
          var ultimoContexto := a.contexto[|a.contexto| - 1];
          var fuerza := a.fuerzaContextual;
          if fuerza > mejorFuerza {
            mejorFuerza := fuerza;
            mejorRespuesta := Some(ultimoContexto.respuesta);
          }
        }
      }
      assert palabras[..|palabras|] == palabras;
      if mejorRespuesta.Some? && mejorRespuesta.value != "" {
        return Etiqueta(ciclosTotales) + mejorRespuesta.value;
      }
      var estadoVoz := vozInterna.ObtenerEstado(ahora);
      var respuestasVoz := Plantillas(estadoVoz.niveles.consciencia, ciclosTotales, estadoVoz.conexionesActivas);
      r := respuestasVoz[k];
    }

    /** `integrarInteraccionVozInterna`: raise the inner voice's curiosity by
        0.01 (clamped) and log the interaction with both texts cut to 100
        characters. */
    method IntegrarInteraccionVozInterna(mensaje: string, respuesta: string, ahora: int)
      requires Valid()
      modifies vozInterna`niveles, vozInterna`dialogosInternos
      ensures Valid()
      ensures vozInterna.Vista() == ConInteraccion(old(vozInterna.Vista()), mensaje, respuesta, ciclosTotales, ahora)
    {
      InteraccionCoherente(vozInterna.Vista(), mensaje, respuesta, ciclosTotales, ahora);
      vozInterna.niveles := vozInterna.niveles.(curiosidad := Min1(vozInterna.niveles.curiosidad + 0.01));
      var entrada := Interaccion(Prefijo(mensaje, 100), Prefijo(respuesta, 100), vozInterna.EmocionActual(), ciclosTotales, ahora);
      vozInterna.dialogosInternos := vozInterna.dialogosInternos + [entrada];
    }
  }
}
