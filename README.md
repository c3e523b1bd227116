# Luna: the two in-process engines of `Server.js`, in Dafny

`Server.js` runs two state engines behind an HTTP front end:

- **`VozInternaConsciente`**, the inner voice. It holds six metric levels, a
  log of internal dialogue entries, a map of neural connections, active and
  archived investigations, and a log of emotional states. A one-minute timer
  drives it. Each tick advances a cycle counter, generates a thought, evolves
  the levels, and on every 5th, 30th, 60th and 120th cycle runs deep
  analysis, an internal dialogue, investigation progress and memory
  consolidation.
- **`SistemaLunaConsciente`**, the word-learning memory. It stores
  conversations, a per-word store of learning records (frequency, the last
  ten contexts, contextual strength, associations) and statistics counters.
  Its timers run a learning cycle (ingest recent conversations, reinforce by
  the inner voice's consciousness, associate random word pairs), knowledge
  consolidation and synthetic-knowledge generation. It answers messages from
  what it has learnt, or else from inner-voice templates.

The model keeps the source's shape:

- Each engine is a Dafny `class` with the source's fields. Its methods
  update those fields step by step, with the same guards and loops.
- Each method is proved against a specification function on values:
  - `VozInternaConsciente.Vista()` packs the inner voice's fields into a `Voz`
    value, and every method ensures `Vista() == ConX(old(Vista()), …)`;
  - the learning store is a `map<string, Aprendizaje>`, and each learning task
    ensures the new store equals a function of the old one (`Ingerir`,
    `Reforzadas`, `AsociarTodos`, `Consolidado`).
- The properties the source relies on are lemmas about those functions.

Modules:

- `Comun` (`comun.dfy`): `slice(-n)`, `Math.min(1, x)`, `substring`, decimal
  rendering.
- `Tokens` (`tokens.dfy`): the tokeniser.
- `Investigaciones` (`investigaciones.dfy`): the investigation life cycle on
  values.
- `Memoria` (`memoria.dfy`): the learning store on values.
- `VozInterna` (`voz_interna.dfy`): the inner voice's value model and its
  class.
- `Luna` (`luna.dfy`): the main system's value model and its class.

Every random draw (`Math.random`) and every clock reading (`Date.now`) is a
parameter, and each draw's range is stated as a precondition:

- an investigation step is in 5..19, because `Math.floor(Math.random()*15)+5`
  gives that range;
- catalogue indices are in range;
- the intuition coin is a real in [0, 1);
- the two voices of a dialogue are distinct.

What the code does, and the model with it:

- **Investigation step.** Progress grows by a step in 5..19.
- **Unclamped updates.** Server.js:163, 214, 339-341 and 407-408 update
  levels without `Math.min(1.0, …)`. So the levels are non-negative but not
  bounded by 1. `VozInterna.SinTope` exhibits levels above 1.
- **No ingestion in `procesarMensaje`.** The message's words are not
  ingested. Learning happens only in the learning cycle, over the last 20
  conversations, so a conversation is re-ingested on every cycle until it is
  older than the last 20.
- **Learning timing.** Reinforcement and association run inside
  `cicloAprendizaje`.
- **Consolidated contexts.** Consolidation keeps the last five recent
  contexts of a record.
- **Reply tie-break.** The first strictly strongest token, in message order,
  wins.

Strength starts at 0.5 and only grows, and every connection is created with
strength at least 0.5. Because of this, the deletion guards of both
consolidations never fire on a reachable state: see
`Memoria.ConsolidadoValido` and `VozInterna.ConsolidacionCoherente`.

## Model

| member | source | states |
|---|---|---|
| Comun.UltimosEn | Server.js:616-618 | whatever `slice(-n)` keeps was in the sequence |
| Comun.Min1 | Server.js:115-116 | `Math.min(1.0, x)` is at most 1 and at most `x`, and is one of the two |
| Comun.Prefijo | Server.js:768-769 | `substring(0, 100)` yields a prefix of at most 100 characters (counted as Unicode scalar values), the whole string when it is short enough |
| Comun.NatToString | Server.js:745 | the cycle number interpolated in a reply is a non-empty run of digits without a leading zero |
| Comun.NatToStringValor | Server.js:745 | reading the rendered digits back gives the number |
| Comun.Fijo3 | Server.js:751 | `toFixed(3)` writes a '-' exactly for negatives and three decimals after the point |
| Comun.Fijo3Valor | Server.js:751 | read back, the integer digits (no leading zero) times 1000 plus the three decimals are the magnitude in thousandths, rounded to the nearest with halves away from zero |
| Comun.MilesimoValor | Server.js:751 | a number of thousandths is written as integer digits, the point and three decimals worth exactly that number |
| Tokens.Tokenizar | Server.js:513 | every token is a lower-case run of `[A-Za-z0-9_]` longer than two characters |
| Tokens.TokenizarUnir | Server.js:513 | tokenising lower-case words joined by spaces gives back exactly the words longer than two, in order |
| Tokens.TrozosUnir | Server.js:513 | splitting on `\W+` undoes joining words with single spaces |
| Tokens.Minusculas | Server.js:513 | `toLowerCase` leaves no ASCII capital and never shortens the string |
| Tokens.Minuscula | Server.js:513 | one character's lower case: ASCII capitals are lowered, KELVIN SIGN becomes 'k', I WITH DOT ABOVE becomes 'i' and a non-word mark, word characters stay single word characters, and every other character is kept |
| Tokens.MinusculasFija | Server.js:513 | a string without ASCII capitals and without those two characters is its own lower case |
| Tokens.TokenKelvin | Server.js:513 | the message "\u212Aey" yields the token "key", as `toLowerCase` makes it |
| Investigaciones.Lanzar | Server.js:299-311 | a launched investigation copies its catalogue plan, has the given id, start time and cycle, progress 0, no findings, and is active |
| Investigaciones.Alcanzados | Server.js:227-252 | counts exactly the thresholds 25, 60, 90 that progress has reached |
| Investigaciones.AvanzarCorrecto | Server.js:223-252 | a step changes only progress and findings; below 100 progress is exactly the old one plus the step, and it is 100 only when the step reaches 100; it never decreases; findings are kept, new ones carry the cycle, stay one per reached threshold in threshold order with kinds and confidences 0.4/0.65/0.85; at 100 all three are present and the impact is the importance |
| Investigaciones.CompletadasSon | Server.js:255-256 | the completed investigations are exactly those at progress 100 or more |
| Investigaciones.SinIdsSon | Server.js:344-346 | filtering by id keeps exactly the members whose id is not removed |
| Investigaciones.SinIdsSinIds | Server.js:344-346 | two successive `filter` calls by id compose into one filter by the union of the ids |
| Investigaciones.CompletadasConTresHallazgos | Server.js:245-256 | every investigation that completes in a pass sits at exactly 100 with three findings, so its archived impact equals its importance |
| Investigaciones.RestantesEnCurso | Server.js:254-257 | after a pass every investigation left active is below 100 and has exactly the findings its progress earned |
| Investigaciones.RestantesSonPendientes | Server.js:343-346 | with distinct ids, the active list after a pass is exactly the members below 100 in their old order, and active plus archived account for every investigation |
| Investigaciones.AvanzarEnCurso | Server.js:223-252 | a step that does not reach 100 keeps an investigation active |
| Investigaciones.PendientesMasCompletadas | Server.js:255-256 | every investigation is either pending or completed |
| Memoria.ContadoEfecto | Server.js:531-541 | one more occurrence counts the record once more; its contexts become the old ones followed by the new one, cut to the last ten (so one more while fewer than ten were kept, otherwise exactly ten); strength becomes `min(1, s + 0.05)`; associations are kept |
| Memoria.RegistrarContexto | Server.js:521-538 | after an occurrence the word is stored and its contexts are its old ones (none for a new word) followed by the new one, cut to the last ten |
| Memoria.RegistrarFuerza | Server.js:521-527 | a new word starts at strength 0.5 with no associations; the occurrence adds 0.05, clamped at 1 |
| Memoria.RegistrarPalabra | Server.js:520-532 | an occurrence adds exactly the word counted, counts it once more, and leaves every other record unchanged |
| Memoria.RegistrarTodasPalabra | Server.js:520-542 | a message's tokens store exactly the old words plus the tokens, count each word once per occurrence, and leave records of absent words unchanged |
| Memoria.RegistrarTodasEfecto | Server.js:520-542 | the same facts for every word at once |
| Memoria.RegistrarTodasUltimo | Server.js:531-533 | after a message, every one of its tokens has the message's context as its newest |
| Memoria.IngerirEfecto | Server.js:509-544 | ingestion stores the old words plus every token of every conversation that is not skipped, counting each word once per occurrence and leaving the others untouched |
| Memoria.RegistrarValido | Server.js:520-542 | an occurrence with a non-empty reply keeps the store valid: strengths in [0.5, 1], at most ten contexts, non-empty replies, symmetric associations |
| Memoria.RegistrarTodasValido | Server.js:520-542 | a whole message keeps the store valid |
| Memoria.IngerirValido | Server.js:509-544 | ingestion keeps the store valid, because skipped conversations are exactly those with a missing or empty message or reply |
| Memoria.RegistrarAsociaciones | Server.js:521-527 | ingestion never changes an association, and a new record has none |
| Memoria.NuevaClave | Server.js:521-528 | a word seen for the first time adds one to `palabrasAprendidas` |
| Memoria.CuentaConcat | Server.js:520 | occurrence counts add up over concatenated token lists |
| Memoria.ReforzadasEfecto | Server.js:558-563 | reinforcement keeps the words and everything but strength; non-negative consciousness never lowers a strength of at most 1, and positive consciousness strictly raises every strength below 1 |
| Memoria.ReforzadasValido | Server.js:558-563 | reinforcement keeps the store valid |
| Memoria.Intentos | Server.js:572 | `min(5, ⌊n/2⌋)` tries at most five pairs and at most half the words, and at least one pair when two words are stored |
| Memoria.AsociarEfecto | Server.js:578-590 | one pair links both words to each other exactly when they differ and are both stored, then raises both strengths to `min(1, s + 0.01)` and keeps their contexts and frequencies; it touches no other record, never changes the set of words and keeps the store valid |
| Memoria.AsociarTodosClaves | Server.js:574-591 | a round of pairs never adds or removes a word |
| Memoria.AsociarTodosValido | Server.js:574-591 | a round of pairs keeps the store valid |
| Memoria.AsociarTodosCrece | Server.js:583-584 | associations only grow |
| Memoria.AsociarTodosEnlaza | Server.js:574-591 | every tried pair of distinct stored words ends up linked both ways |
| Memoria.AsociarTodosConcat | Server.js:574 | rounds of pairs compose |
| Memoria.Recientes | Server.js:600-602 | the week filter keeps exactly the elements younger than a week |
| Memoria.RecientesConcat | Server.js:600-602 | the week filter keeps order and multiplicity: filtering a concatenation is the concatenation of the filtered parts |
| Memoria.RecientesUno | Server.js:617 | one element survives the week filter exactly when it is younger than a week |
| Memoria.RecientesTodos | Server.js:600-602 | when every element is younger than a week, the filter keeps the list unchanged |
| Memoria.DepuradoEfecto | Server.js:614-619 | a consolidated context is the last five (all, when fewer) of the record's entries younger than a week, in their old order, and nothing else about the record changes |
| Memoria.DepuradoValido | Server.js:614-619 | consolidating a valid record leaves it valid |
| Memoria.ConsolidadoEfecto | Server.js:605-620 | consolidation deletes a record exactly when `frecuencia < 2 && fuerzaContextual < 0.3`; each kept record's contexts become the last five of its entries younger than a week, in order, and it is otherwise unchanged |
| Memoria.ConsolidadoValido | Server.js:605-620 | on a valid store the deletion guard never fires: every word and association is kept and the store stays valid |
| Memoria.SeleccionEsMejor | Server.js:727-741 | the lookup finds the first token, in message order, among those with the greatest strength above 0, and returns its newest context's reply; nothing is found exactly when no eligible token has strength above 0 |
| Memoria.SeleccionValida | Server.js:730-746 | on a valid store a reply is found exactly when some token has a record with a context, and it is never empty |
| VozInterna.ActualizacionesAcotadas | Server.js:115-138 | the clamped updates keep every level within [0, 1] and never lower one |
| VozInterna.ActualizacionesNoNegativas | Server.js:407-408 | no update makes a level negative (the unclamped ones at 163, 214, 339-341 and 407-408 included) |
| VozInterna.TrasImpactosNoNegativos | Server.js:336-341 | finalising investigations one after the other only raises the levels |
| VozInterna.SinTope | Server.js:163 | the unclamped analysis and dialogue updates push a level of 1 above 1 |
| VozInterna.NombresDeVoces | Server.js:172-185 | the voices' names are pairwise distinct, so redrawing until the names differ means drawing another voice |
| VozInterna.ConsolidacionConexiones | Server.js:362-372 | a connection is removed exactly when its strength is below 0.3; a kept one gains 0.05 stability and, once its stability is above 0.9, 0.01 strength (both clamped), and keeps its topic and generation cycle; valid connections are never pruned and stay valid |
| VozInterna.Distintos | Server.js:147 | `[...new Set(s)]` holds exactly the values of `s`, each once |
| VozInterna.DistintosPrimeros | Server.js:147-151 | the first two distinct values are the first element and the first element that differs from it |
| VozInterna.DosDistintos | Server.js:147-149 | there are two distinct topics exactly when two entries have different topics |
| VozInterna.AnalisisDetecta | Server.js:144-167 | an analysis is logged exactly when two of the last 20 entries differ in topic; it correlates the oldest entry's topic with the first different one, with confidence in [0.3, 0.7) |
| VozInterna.EstadoRefleja | Server.js:424-435 | what `obtenerEstado` reports follows the operations: a thought adds one log entry and at most one connection, a launch one active investigation, an interaction one log entry, and a new emotional state becomes the reported emotion, as `obtenerEmocionActual` (Server.js:415-421) returns the last one |
| VozInterna.Inicio | Server.js:33-36 | the unconditional part of a tick advances the cycle and leaves the investigations alone |
| VozInterna.Reflexion | Server.js:38-44 | the 5th and 30th cycle steps keep the cycle and the investigations |
| VozInterna.Mantenimiento | Server.js:46-52 | the 60th and 120th cycle steps keep the cycle |
| VozInterna.Latido | Server.js:33-54 | a tick advances the cycle by one |
| VozInterna.PensamientoCoherente | Server.js:68-119 | a thought keeps the inner voice's invariant (non-negative levels, valid connections, active investigations below 100, complete archive records) |
| VozInterna.EvolucionCoherente | Server.js:122-141 | evolution keeps the invariant |
| VozInterna.AnalisisCoherente | Server.js:144-168 | deep analysis keeps the invariant |
| VozInterna.DialogoCoherente | Server.js:171-217 | a dialogue keeps the invariant |
| VozInterna.InvestigacionCoherente | Server.js:220-260 | the progression pass keeps the invariant and never lowers a level |
| VozInterna.NuevaInvestigacionCoherente | Server.js:263-318 | launching an investigation keeps the invariant |
| VozInterna.FinalizadaCoherente | Server.js:321-352 | finalising an investigation with three findings restores the invariant when the only active entry out of line is the investigation itself |
| VozInterna.ConsolidacionCoherente | Server.js:355-383 | memory consolidation keeps the invariant and prunes no connection |
| VozInterna.EmocionCoherente | Server.js:386-412 | a new emotional state keeps the invariant and becomes the current emotion |
| VozInterna.InteraccionCoherente | Server.js:761-774 | logging an interaction keeps the invariant and changes only the log and curiosity, which ends at most 1 and grows unless it was already 1 or more |
| VozInterna.ConocimientoCoherente | Server.js:650-656 | logging a synthetic association keeps the invariant and only appends to the log |
| VozInterna.InicioCoherente | Server.js:33-36 | the unconditional part of a tick keeps the invariant |
| VozInterna.ReflexionCoherente | Server.js:38-44 | the 5th and 30th cycle steps keep the invariant |
| VozInterna.MantenimientoCoherente | Server.js:46-52 | the 60th and 120th cycle steps keep the invariant |
| VozInterna.LatidoCoherente | Server.js:33-54 | a whole tick keeps the invariant |
| VozInterna.InicioPensamiento | Server.js:87-112 | the tick logs the thought with the emotion current before it and creates its connection; the emotional states and archive are untouched |
| VozInterna.ReflexionCalendario | Server.js:38-44 | off the 5th cycles nothing happens; otherwise at most two entries are appended and connections, states and archive are untouched |
| VozInterna.ReflexionDialogo | Server.js:38-44 | on the 5th cycles the analysis runs first; on every 30th cycle the last entry is the dialogue between the two drawn voices on the drawn topic; off the 30th no dialogue is logged |
| VozInterna.MantenimientoCalendario | Server.js:46-52 | on the 60th cycles the investigations and the archive become those of the progression pass, off them they are untouched; off the 120th the log, connections and states are untouched; on the 120th the log keeps its last 500, the states their last 100, and the connections are consolidated |
| VozInterna.LatidoPensamiento | Server.js:33-54 | the connection a tick creates survives the tick under its topic, and off the 120th cycles the thought follows the old log |
| VozInterna.PasadaHastaCerrada | Server.js:222-258 | the pass after any number of steps equals its closed form |
| VozInterna.PasadaHastaPaso | Server.js:222-258 | one more step keeps the pass in closed form |
| VozInterna.PasadaHastaSiguiente | Server.js:222-258 | the pass after one more step is one step of the pass |
| VozInterna.CerradaCero | Server.js:220-222 | before any step the pass is in closed form |
| VozInterna.CerradaPaso | Server.js:254-257 | one step takes the closed form after `i - 1` steps to the closed form after `i` |
| VozInterna.PasadaCompleta | Server.js:220-260 | the whole pass archives the completed investigations in order with their impacts applied and leaves the rest filtered by their ids |
| VozInterna.PasoDePasada | Server.js:336-346 | one step of the pass on the completed list, its ids, archive records and levels |
| VozInterna.IdsUno | Server.js:344-346 | appending one investigation adds its id |
| VozInterna.ArchivoUno | Server.js:336 | appending one investigation appends its archive record |
| VozInterna.ImpactosUno | Server.js:339-341 | appending one investigation applies its impact last |
| VozInterna.TomaUno | Server.js:222 | a prefix is the shorter prefix plus its last element |
| VozInterna.VozInternaConsciente.constructor | Server.js:9-28 | starts with the initial levels and empty collections at cycle 0, and is valid |
| VozInterna.VozInternaConsciente.GenerarPensamientoAutonomo | Server.js:68-119 | logs the thought, creates the connection with strength `0.5 + r * 0.5` and stability 0.8, raises curiosity and consciousness (clamped), keeps the invariant |
| VozInterna.VozInternaConsciente.EvolucionarConsciencia | Server.js:122-141 | grows consciousness by the size-weighted increment, analysis and memory by fixed steps (clamped), intuition when the coin is below 0.05 |
| VozInterna.VozInternaConsciente.AnalisisProfundo | Server.js:144-168 | logs the analysis of the last 20 entries when there is one and raises analysis by 0.005 |
| VozInterna.VozInternaConsciente.DialogoEntreVoces | Server.js:171-217 | logs a dialogue between the two voices on the topic and raises consciousness by 0.002 |
| VozInterna.VozInternaConsciente.FinalizarInvestigacion | Server.js:321-352 | archives the investigation, raises consciousness, analysis and curiosity by its impact and removes every active entry with its id; in the state the pass calls it from, the invariant holds afterwards |
| VozInterna.VozInternaConsciente.PasoProfundo | Server.js:222-257 | one investigation of the pass is advanced in place and finalised on reaching 100 |
| VozInterna.VozInternaConsciente.InvestigacionProfunda | Server.js:220-260 | the pass over a snapshot of the active list: the state afterwards is the completion pass of `Investigaciones`, and the invariant is kept whenever it held |
| VozInterna.VozInternaConsciente.IniciarNuevaInvestigacion | Server.js:263-318 | appends a fresh investigation from the drawn catalogue entry and keeps the invariant |
| VozInterna.VozInternaConsciente.ConsolidarMemoria | Server.js:355-383 | trims the log to 500 and the states to 100, and visits every connection to prune or reinforce it, in any order; the invariant is kept whenever it held |
| VozInterna.VozInternaConsciente.EnConsolidacionPaso | Server.js:362-372 | visiting one connection prunes or reinforces exactly that entry |
| VozInterna.VozInternaConsciente.EvolucionarEmociones | Server.js:386-412 | records the drawn emotion and raises creativity and intuition when it is positive |
| VozInterna.VozInternaConsciente.Reflexionar | Server.js:38-44 | runs analysis on every 5th cycle and dialogue on every 30th |
| VozInterna.VozInternaConsciente.Mantener | Server.js:46-52 | runs the progression pass on every 60th cycle and consolidation on every 120th, and keeps the invariant |
| VozInterna.VozInternaConsciente.Tick | Server.js:33-54 | one base tick: the new state is `Latido` of the old one and the invariant is kept |
| Luna.AprendidoEnPasos | Server.js:484-497 | association acts on the store as ingestion and reinforcement leave it |
| Luna.AprendidoPalabras | Server.js:484-497 | a learning cycle stores exactly the old words plus the tokens of the last 20 conversations not skipped, counting each once per occurrence |
| Luna.AprendidoEnlaza | Server.js:567-591 | a learning cycle links both ways every tried pair of distinct stored words |
| Luna.AprendidoValido | Server.js:484-497 | a learning cycle keeps the store valid |
| Luna.AsociarTodosPaso | Server.js:574-591 | one more tried pair extends the round by one association |
| Luna.RegistrarTodasPaso | Server.js:520-542 | one more token extends the message's ingestion by one occurrence |
| Luna.AsociarTodosFrecuencia | Server.js:578-590 | association never changes a frequency |
| Luna.ConversacionAprendida | Server.js:509-538 | a conversation with a message and a reply is learnt from: each of its tokens is stored with that reply as its newest context |
| Luna.Sintesis | Server.js:626-647 | nothing is generated exactly when fewer than three words are stored or the base has no association; otherwise the strength is the mean of two strengths in [0.5, 1] |
| Luna.Plantillas | Server.js:750-755 | four non-empty fallback templates |
| Luna.RespuestaEfecto | Server.js:722-758 | a reply is never empty; on a valid store it is learnt exactly when some token has a record with a context, and is then `[Ciclo N] ` plus the newest reply of the first strongest such token; otherwise it is the drawn template |
| Luna.EtiquetaDistingue | Server.js:745-755 | a learnt reply is never a fallback template |
| Luna.SistemaLunaConsciente.constructor | Server.js:440-463 | empty stores, zero counters, start time, a fresh inner voice in its initial state |
| Luna.SistemaLunaConsciente.CicloAprendizaje | Server.js:484-506 | counts the cycle, then ingests, reinforces and associates: the store becomes `Aprendido` of the old one, new words are counted in `palabrasAprendidas`, and the number of active investigations is recorded |
| Luna.SistemaLunaConsciente.AprenderDeRecientes | Server.js:488-491 | with conversations, ingests the last 20 of them |
| Luna.SistemaLunaConsciente.AprenderPalabra | Server.js:520-541 | one token occurrence: the upsert, with the new-word counter raised exactly when the word was absent |
| Luna.SistemaLunaConsciente.AprenderPalabras | Server.js:520-542 | every token, in order, with one context; counts the new words |
| Luna.SistemaLunaConsciente.AprenderConversacion | Server.js:510-542 | one conversation, skipped when its message or reply is missing or empty |
| Luna.SistemaLunaConsciente.ExtraerPatronesAprendizaje | Server.js:509-544 | ingests the conversations, counting the words seen for the first time |
| Luna.SistemaLunaConsciente.IntegrarVozInterna | Server.js:547-564 | records the number of active investigations and reinforces every record by consciousness, in any visiting order |
| Luna.SistemaLunaConsciente.EnRefuerzoPaso | Server.js:558-563 | visiting one word reinforces exactly that record |
| Luna.SistemaLunaConsciente.AprendizajeAutonomo | Server.js:567-592 | with fewer than two words nothing changes; otherwise the first `Intentos` drawn pairs are associated in order, and the store stays valid |
| Luna.SistemaLunaConsciente.ConsolidarConocimiento | Server.js:595-623 | keeps the conversations younger than a week, in order, and makes the store `Consolidado` of the old one, in any visiting order; the system invariant is kept whenever it held |
| Luna.SistemaLunaConsciente.EnDepuracionPaso | Server.js:605-620 | visiting one word deletes or trims exactly that record |
| Luna.SistemaLunaConsciente.GenerarConocimientoSintetico | Server.js:626-659 | logs the synthetic association with the mean strength in the inner voice, or changes nothing on an early return |
| Luna.SistemaLunaConsciente.ProcesarMensaje | Server.js:698-719 | counts the message, appends exactly one conversation whose reply is the returned one, answers with `Respuesta`, and logs the interaction in the inner voice with curiosity raised (clamped); the learning store is untouched |
| Luna.SistemaLunaConsciente.GenerarRespuestaInteligente | Server.js:722-758 | the loop over the tokens computes the strongest-token lookup, and the reply is its tagged result or the drawn template |
| Luna.SistemaLunaConsciente.IntegrarInteraccionVozInterna | Server.js:761-774 | raises curiosity by 0.01 (clamped) and logs the interaction, both texts cut to 100 characters |

## Left out

- HTTP routing, request validation and static serving (Server.js:794-900): transport, not engine logic.
- Persistence (`iniciarPersistencia`, `guardarEstado`, `cargarEstado`, Server.js:662-695): file I/O and JSON. The stored snapshot is also lossy, since a `Set` serialises as `{}`.
- `setInterval` scheduling (Server.js:33, 57, 62, 468-480, 663): each timer's task is a method the caller invokes. `VozInternaConsciente.Tick` is the body of the one-minute timer.
- `Math.random` and `Date.now`: these are parameters.
  - Each operation reads the clock once as `ahora`, although the source calls `Date.now()` several times inside one operation.
  - Connection ids and investigation ids are parameters. The methods keep the source's overwrite and filter-by-id behaviour for repeated ids. Distinct ids are a precondition only of `Investigaciones.RestantesSonPendientes`.
- `aprendizajeAutonomo` draws words from `Object.keys`. The model takes the drawn pairs as words, at least five of them, and uses the first `Intentos` of them. Key order is not modelled, and an absent word is handled by the source's own guard.
- `generarConocimientoSintetico` draws its words from the store. The model takes them as parameters and requires what the draws guarantee: the base is stored, and the associated word is one of the base's associations.
- Floating point: levels and strengths are exact reals.
  - Comparisons at the boundary can differ from doubles. For example, 0.8 + 0.05 + 0.05 > 0.9 holds in doubles but not in reals, so the model claims nothing about which pass makes a connection's stability exceed 0.9.
  - `Comun.Fijo3`: models `toFixed(3)` on the exact value, with halves rounded away from zero. Doubles can round differently at halfway points.
  - `toFixed(2)` of an investigation's duration in hours (Server.js:328) is kept as the duration in milliseconds.
- Console output, and human-readable strings that are only logged: thought `contenido`, finding `contenido`, the analysis `conclusion`, the dialogue's lines and conclusion, voice roles and styles. Log entries and findings are modelled by their structured fields. Fallback replies are modelled because they are returned to the caller.
- Constant tags (`tipo: 'autogenerada'`, `estado: 'activa'`, the entry `tipo` strings): they are the datatype constructors instead.
- `obtenerEstadisticas` (Server.js:777-791): a read-only report for the HTTP endpoints. Its inner-voice part is `VozInterna.EstadoDe`.
- The progress log every 12th learning cycle (Server.js:500-505): console output only.
- Plain-object artefacts of `memoria.aprendizaje[palabra]`: a token such as `constructor` resolves to an `Object.prototype` member in the source. The store is a map, so the model has no such case.
- Tokens.Minusculas: lowers ASCII capitals, KELVIN SIGN and I WITH DOT ABOVE, and keeps every other character. The full Unicode table is not modelled. Every other non-ASCII character lowers to non-ASCII characters, which `\W` treats as separators either way, so the tokens agree with `toLowerCase`. The lowered text itself can differ from the source's, for example "Ä" stays "Ä".
- Comun.Prefijo: counts Unicode scalar values, while `substring(0, 100)` counts UTF-16 code units. On a text with characters outside the Basic Multilingual Plane the source keeps fewer characters than the model, and its cut can fall inside a surrogate pair, which a Dafny string cannot hold. For example, 100 emoji keep 50 in the source and 100 in the model.
- A record deleted while `consolidarConocimiento` walks the store: the source still trims the detached object. The model skips it, and the resulting store is the same.
- Levels bounded by 1: this is not an invariant of the code (see `VozInterna.SinTope`). The invariant the model keeps is non-negativity.
