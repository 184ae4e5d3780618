/**
 * The per-turn decisions of the restaurant assistant
 * (src/agents/mozo_virtual_agent.py): which queries go to the multi-agent
 * pipeline, when the customer may leave, when a reply ends the session, and
 * the two lookup tools that need no ledger (drink pairing and the dish of
 * the day).
 */
module TurnRules {
  import opened Wrappers
  import opened Text
  import opened Orders

  // ---------------------------------------------------------------------------
  // Routing: is_complex_query
  // ---------------------------------------------------------------------------

  /** The keywords that mark a query as one for the multi-agent pipeline. */
  const ComplexKeywords: seq<string> := [
    "recomendar", "recomendación", "sugerir", "qué me recomiendas",
    "qué me sugieres", "ayuda a elegir", "no sé qué pedir",
    "romántica", "pareja", "familia", "negocio", "especial",
    "vegetariano", "vegano", "sin gluten", "alergias", "informe"
  ]

  /** is_complex_query: the lower-cased query contains one of the keywords. */
  predicate IsComplexQuery(query: string) {
    ContainsAny(Lower(query), ComplexKeywords)
  }

  /** Who answers a query that is not an exit command. */
  datatype Handler = MultiAgent | SingleAgent

  /** A complex query goes to the multi-agent pipeline when it was set up;
      everything else goes to the single tool-calling agent. */
  function RouteQuery(query: string, multiAgentReady: bool): (h: Handler)
    ensures h == MultiAgent <==> IsComplexQuery(query) && multiAgentReady
  {
    if IsComplexQuery(query) && multiAgentReady then MultiAgent else SingleAgent
  }

  /** The classifier ignores case: a query and its lower-cased form agree. */
  lemma ComplexQueryIgnoresCase(query: string)
    ensures IsComplexQuery(Lower(query)) == IsComplexQuery(query)
  {
    LowerIdempotent(query);
  }

  /** A keyword written in any mix of capitals anywhere in the query makes it
      complex. */
  lemma KeywordMakesComplex(query: string, written: string, i: nat, pos: nat)
    requires i < |ComplexKeywords| && Lower(written) == ComplexKeywords[i]
    requires OccursAt(query, written, pos)
    ensures IsComplexQuery(query)
  {
    LowerOccurs(query, written, pos);
    ContainsWitness(Lower(query), ComplexKeywords[i], pos);
  }

  /** Every keyword has at least six characters, so a shorter query is routine. */
  lemma ShortQueryIsRoutine(query: string)
    requires |query| < 6
    ensures !IsComplexQuery(query)
  {
    assert forall i :: 0 <= i < |ComplexKeywords| ==> |ComplexKeywords[i]| >= 6;
  }

  /** "Hola" is a routine query. */
  lemma HolaIsRoutine()
    ensures !IsComplexQuery("Hola")
  {
    ShortQueryIsRoutine("Hola");
  }

  /** "¿Qué me recomiendas para una cena especial?" is complex: it ends in
      "especial" (and also contains "qué me recomiendas"). */
  lemma CenaEspecialIsComplex()
    ensures IsComplexQuery("¿Qué me recomiendas para una cena especial?")
  {
    var q := "¿Qué me recomiendas para una cena especial?";
    assert OccursAt(q, "especial", 34);
    assert Lower("especial") == ComplexKeywords[11];
    KeywordMakesComplex(q, "especial", 11, 34);
  }

  /** "No sé qué pedir, ayuda" is complex: it starts with "no sé qué pedir". */
  lemma NoSeQuePedirIsComplex()
    ensures IsComplexQuery("No sé qué pedir, ayuda")
  {
    var q := "No sé qué pedir, ayuda";
    assert OccursAt(q, "No sé qué pedir", 0);
    assert Lower("No sé qué pedir") == ComplexKeywords[6];
    KeywordMakesComplex(q, "No sé qué pedir", 6, 0);
  }

  /** "¿Cuánto cuesta la paella?" is routine: every keyword has a `g`, an `i`
      or an `r`, and the query has none of them. */
  lemma CuantoCuestaIsRoutine()
    ensures !IsComplexQuery("¿Cuánto cuesta la paella?")
  {
    var s := "¿cuánto cuesta la paella?";
    assert Lower("¿Cuánto cuesta la paella?") == s;
    CuantoCuestaPicks();
    CuantoCuestaAbsent();
    NoneContained(s, ComplexKeywords, [0, 0, 2, 7, 9, 11, 13, 0, 2, 3, 2, 5, 2, 2, 1, 3, 0], "gir");
  }

  /** Position `pick[i]` of keyword `i` holds a `g`, an `i` or an `r`: the
      `r` of "recomendar", the `g` of "sugerir", the `i` of "pedir", and so on. */
  lemma CuantoCuestaPicks()
    ensures forall i :: 0 <= i < |ComplexKeywords| ==>
      [0, 0, 2, 7, 9, 11, 13, 0, 2, 3, 2, 5, 2, 2, 1, 3, 0][i] < |ComplexKeywords[i]| &&
      ComplexKeywords[i][[0, 0, 2, 7, 9, 11, 13, 0, 2, 3, 2, 5, 2, 2, 1, 3, 0][i]] in "gir"
  {
  }

  /** The query has no `g`, `i` or `r`. */
  lemma CuantoCuestaAbsent()
    ensures forall c :: c in "gir" ==> c !in "¿cuánto cuesta la paella?"
  {
  }

  /** "Quiero algo romántico" is routine: "romántico" does not contain the
      keyword "romántica", and no other keyword occurs either. */
  lemma RomanticoIsRoutine()
    ensures !IsComplexQuery("Quiero algo romántico")
  {
    var s := "quiero algo romántico";
    assert Lower("Quiero algo romántico") == s;
    RomanticoMissesTwo();
    RomanticoPicks();
    RomanticoAbsent();
    forall i | 0 <= i < |ComplexKeywords|
      ensures !Contains(s, ComplexKeywords[i]) ||
        ([7, 7, 0, 15, 7, 3, 3, 0, 4, 0, 0, 1, 0, 0, 0, 7, 2][i] < |ComplexKeywords[i]| &&
         ComplexKeywords[i][[7, 7, 0, 15, 7, 3, 3, 0, 4, 0, 0, 1, 0, 0, 0, 7, 2][i]] in "dfjsv")
    {
    }
    NoneContained(s, ComplexKeywords, [7, 7, 0, 15, 7, 3, 3, 0, 4, 0, 0, 1, 0, 0, 0, 7, 2], "dfjsv");
  }

  /** The two keywords all of whose letters occur in the query: an occurrence
      of "romántica" would need an `a` after its `t`, and one of "negocio"
      an `n` early enough to leave room for six more characters. */
  lemma RomanticoMissesTwo()
    ensures !Contains("quiero algo romántico", ComplexKeywords[7])
    ensures !Contains("quiero algo romántico", ComplexKeywords[10])
  {
    NotContainsWindow("quiero algo romántico", "romántica", 8);
    NotContainsWindow("quiero algo romántico", "negocio", 0);
  }

  /** Apart from "romántica" and "negocio", position `pick[i]` of keyword `i`
      holds a `d`, `f`, `j`, `s` or `v`: the `d` of "recomendar", the `s` of
      "sugerir", the `j` of "pareja", the `f` of "familia", and so on. */
  lemma RomanticoPicks()
    ensures forall i :: 0 <= i < |ComplexKeywords| && i != 7 && i != 10 ==>
      [7, 7, 0, 15, 7, 3, 3, 0, 4, 0, 0, 1, 0, 0, 0, 7, 2][i] < |ComplexKeywords[i]| &&
      ComplexKeywords[i][[7, 7, 0, 15, 7, 3, 3, 0, 4, 0, 0, 1, 0, 0, 0, 7, 2][i]] in "dfjsv"
  {
  }

  /** The query has no `d`, `f`, `j`, `s` or `v`. */
  lemma RomanticoAbsent()
    ensures forall c :: c in "dfjsv" ==> c !in "quiero algo romántico"
  {
  }

  // ---------------------------------------------------------------------------
  // Leaving: the exit guard and the farewell check
  // ---------------------------------------------------------------------------

  /** The words that ask to leave, compared with the whole lower-cased query. */
  const ExitCommands: seq<string> := ["exit", "quit", "salir"]

  predicate IsExitCommand(query: string) {
    Lower(query) in ExitCommands
  }

  /** The answer to an exit command: stay and pay the pending amount, or leave
      (after an order, or without one). */
  datatype ExitDecision = MustPayFirst(pendiente: int) | LeaveAfterOrder | LeaveWithoutOrder

  /** The guard on an exit command. */
  function ExitGuard(st: LedgerState): (r: ExitDecision) {
    if st.pedido != [] && !st.pagado then MustPayFirst(st.total)
    else if st.pedido != [] && st.pagado then LeaveAfterOrder
    else LeaveWithoutOrder
  }

  /** Leaving is refused exactly when the payment status tool would report a
      pending payment, and the amount quoted is the same. */
  lemma ExitBlockedIffPending(st: LedgerState)
    ensures ExitGuard(st).MustPayFirst? <==> Status(st).Pending?
    ensures ExitGuard(st).MustPayFirst? ==> ExitGuard(st).pendiente == Status(st).total
    ensures ExitGuard(st).LeaveAfterOrder? <==> Status(st).PaidUp?
    ensures ExitGuard(st).LeaveWithoutOrder? <==> Status(st).NoActiveOrder?
  {
  }

  /** Paying a non-empty order always unblocks the exit (that no tool clears
      the paid flag afterwards is `Orders.ApplyPreserves`). */
  lemma PayingUnblocksExit(st: LedgerState)
    requires st.pedido != []
    ensures !ExitGuard(Pay(st).0).MustPayFirst?
  {
  }

  /** The flag is never reset, so after paying, further additions are allowed
      and leaving stays possible with those additions unpaid. */
  lemma AddAfterPayingLeavesUnpaid(precios: Catalogue, st: LedgerState, item: string, cantidad: int)
    requires st.pedido != [] && st.pagado
    ensures var st' := AddItem(precios, st, item, cantidad).0;
      st'.pagado && ExitGuard(st') == LeaveAfterOrder
  {
    assert |AddItem(precios, st, item, cantidad).0.pedido| >= |st.pedido|;
  }

  /** The exit words match case-insensitively but as a whole query only. */
  lemma ExitCommandExamples()
    ensures IsExitCommand("SALIR") && IsExitCommand("Exit") && IsExitCommand("quit")
    ensures !IsExitCommand("salir ya") && !IsExitCommand("adiós")
  {
    assert Lower("SALIR") == "salir";
    assert Lower("Exit") == "exit";
    assert Lower("quit") == "quit";
    assert |Lower("salir ya")| == 8;
    assert |Lower("adiós")| == 5 && Lower("adiós")[0] == 'a';
  }

  /** Words in the agent's reply that, once the order is paid, end the session. */
  const FarewellWords: seq<string> := ["gracias", "que disfrutes", "preparado", "visita"]

  /** After a reply the session ends when the order is paid, non-empty, and
      the lower-cased reply contains a farewell word. */
  predicate EndsAfterReply(st: LedgerState, reply: string) {
    st.pagado && st.pedido != [] && ContainsAny(Lower(reply), FarewellWords)
  }

  /** A reply only ends the session when an exit command would also have been
      let through with an order. */
  lemma FarewellOnlyWhenExitAllowed(st: LedgerState, reply: string)
    requires EndsAfterReply(st, reply)
    ensures ExitGuard(st) == LeaveAfterOrder
  {
  }

  /** Without a farewell word in the reply, the session goes on even after
      paying; with an unpaid or empty order it goes on whatever the reply. */
  lemma FarewellNeedsAllThree(st: LedgerState, reply: string)
    ensures !st.pagado ==> !EndsAfterReply(st, reply)
    ensures st.pedido == [] ==> !EndsAfterReply(st, reply)
    ensures !ContainsAny(Lower(reply), FarewellWords) ==> !EndsAfterReply(st, reply)
  {
  }

  /** The reply text of procesar_pago on success ends the session when the
      agent passes it on: it thanks the customer for the visit. */
  lemma PaymentReplyIsFarewell(st: LedgerState)
    requires st.pedido != [] && st.pagado
    ensures EndsAfterReply(st, "¡Gracias por tu visita!")
  {
    var r := "¡Gracias por tu visita!";
    assert OccursAt(r, "visita", 16);
    assert Lower("visita") == FarewellWords[3];
    LowerOccurs(r, "visita", 16);
    ContainsWitness(Lower(r), FarewellWords[3], 16);
  }

  // ---------------------------------------------------------------------------
  // recomendar_bebida
  // ---------------------------------------------------------------------------

  /** The keyword groups of the pairing cascade, in the order they are tried:
      red meat, seafood, vegetarian, dessert, appetizer. */
  const PairingKeywords: seq<seq<string>> := [
    ["solomillo", "cordero", "cochinillo", "carne"],
    ["paella", "bacalao", "merluza", "pulpo", "pescado", "mariscos"],
    ["risotto", "tortilla", "ensalada", "vegetariano"],
    ["flan", "tarta", "crema", "helado", "postre"],
    ["aperitivo", "tapas", "quesos"]
  ]

  /** The pairing advice: one per group, or an apology that repeats the dish. */
  datatype Maridaje =
    | RiojaReserva             // meat
    | AlbarinoOCavaBrut        // seafood and rice
    | AlbarinoOLimonada        // vegetarian
    | CafeOCavaBrut            // dessert
    | EstrellaGalicia          // appetizer
    | SinRecomendacion(plato: string)

  /** The group an advice belongs to. */
  function Group(m: Maridaje): nat
    requires !m.SinRecomendacion?
  {
    match m
    case RiojaReserva => 0
    case AlbarinoOCavaBrut => 1
    case AlbarinoOLimonada => 2
    case CafeOCavaBrut => 3
    case EstrellaGalicia => 4
  }

  /** recomendar_bebida */
  function RecomendarBebida(platoPrincipal: string): (r: Maridaje)
    ensures r.SinRecomendacion? <==>
      forall k :: 0 <= k < |PairingKeywords| ==> !ContainsAny(Lower(platoPrincipal), PairingKeywords[k])
    ensures r.SinRecomendacion? ==> r.plato == platoPrincipal
    ensures !r.SinRecomendacion? ==>
      && ContainsAny(Lower(platoPrincipal), PairingKeywords[Group(r)])
      && forall k :: 0 <= k < Group(r) ==> !ContainsAny(Lower(platoPrincipal), PairingKeywords[k])
  {
    match FirstBucket(Lower(platoPrincipal), PairingKeywords)
    case None => SinRecomendacion(platoPrincipal)
    case Some(k) =>
      if k == 0 then RiojaReserva
      else if k == 1 then AlbarinoOCavaBrut
      else if k == 2 then AlbarinoOLimonada
      else if k == 3 then CafeOCavaBrut
      else EstrellaGalicia
  }

  /** The cascade order decides: a dish hitting group `k` and no earlier group
      gets the advice of group `k`, whatever later groups it also hits. */
  lemma PairingFollowsCascade(plato: string, k: nat)
    requires k < |PairingKeywords| && ContainsAny(Lower(plato), PairingKeywords[k])
    requires forall j :: 0 <= j < k ==> !ContainsAny(Lower(plato), PairingKeywords[j])
    ensures !RecomendarBebida(plato).SinRecomendacion? && Group(RecomendarBebida(plato)) == k
  {
  }

  /** Meat wins over everything: "Solomillo con pulpo" gets the Rioja. */
  lemma SolomilloGetsRioja()
    ensures RecomendarBebida("Solomillo con pulpo") == RiojaReserva
  {
    var p := "Solomillo con pulpo";
    assert Lower(p)[0..9] == "solomillo";
    ContainsWitness(Lower(p), PairingKeywords[0][0], 0);
    PairingFollowsCascade(p, 0);
  }

  /** A dish no group mentions gets the apology, which names the dish. */
  lemma SushiGetsNoAdvice()
    ensures RecomendarBebida("Sushi") == SinRecomendacion("Sushi")
  {
    assert Lower("Sushi") == "sushi";
    SushiMissesEveryGroup();
  }

  /** Every pairing keyword has an "a" or an "o", and "sushi" has neither. */
  lemma SushiMissesEveryGroup()
    ensures forall k :: 0 <= k < |PairingKeywords| ==> !ContainsAny("sushi", PairingKeywords[k])
  {
    var s := "sushi";
    assert forall c :: c in "ao" ==> c !in s;
    NoneContained(s, PairingKeywords[0], [1, 1, 1, 1], "ao");
    NoneContained(s, PairingKeywords[1], [1, 1, 1, 4, 1, 1], "ao");
    NoneContained(s, PairingKeywords[2], [4, 1, 4, 3], "ao");
    NoneContained(s, PairingKeywords[3], [2, 1, 4, 3, 1], "ao");
    NoneContained(s, PairingKeywords[4], [0, 1, 2], "ao");
  }

  // ---------------------------------------------------------------------------
  // obtener_plato_del_dia
  // ---------------------------------------------------------------------------

  datatype Weekday = Monday | Tuesday | Wednesday | Thursday | Friday | Saturday | Sunday

  /** The day after. */
  function Next(d: Weekday): Weekday {
    match d
    case Monday => Tuesday
    case Tuesday => Wednesday
    case Wednesday => Thursday
    case Thursday => Friday
    case Friday => Saturday
    case Saturday => Sunday
    case Sunday => Monday
  }

  /** The day before. */
  function Prev(d: Weekday): Weekday {
    match d
    case Monday => Sunday
    case Tuesday => Monday
    case Wednesday => Tuesday
    case Thursday => Wednesday
    case Friday => Thursday
    case Saturday => Friday
    case Sunday => Saturday
  }

  /** Yesterday's tomorrow and tomorrow's yesterday are today. */
  lemma NextPrevInverse(d: Weekday)
    ensures Prev(Next(d)) == d && Next(Prev(d)) == d
  {
  }

  /** The lower-case English day name, as `strftime('%A').lower()` gives it. */
  function EnglishName(d: Weekday): string {
    match d
    case Monday => "monday"
    case Tuesday => "tuesday"
    case Wednesday => "wednesday"
    case Thursday => "thursday"
    case Friday => "friday"
    case Saturday => "saturday"
    case Sunday => "sunday"
  }

  /** The Spanish day name shown to the customer. */
  function SpanishName(d: Weekday): string {
    match d
    case Monday => "Lunes"
    case Tuesday => "Martes"
    case Wednesday => "Miércoles"
    case Thursday => "Jueves"
    case Friday => "Viernes"
    case Saturday => "Sábado"
    case Sunday => "Domingo"
  }

  /** The special of each day. */
  function Especialidad(d: Weekday): string {
    match d
    case Monday => "Cocido Madrileño - Guiso tradicional con garbanzos y carnes. Precio: $20.000."
    case Tuesday => "Fabada Asturiana - Guiso de alubias blancas con chorizo y morcilla. Precio: $22.000."
    case Wednesday => "Gazpacho y Salmorejo - Sopas frías andaluzas. Precio: $15.000."
    case Thursday => "Pulpo a Feira - Pulpo gallego tradicional. Precio: $25.000."
    case Friday => "Paella de Mariscos - Paella con mariscos frescos. Precio: $32.000."
    case Saturday => "Cochinillo Asado - Cochinillo de Segovia. Precio: $45.000."
    case Sunday => "Cocido Completo - Cocido madrileño completo. Precio: $25.000."
  }

  /** The lower-case Spanish key the tool accepts for a day. */
  function SpanishKey(d: Weekday): string {
    match d
    case Monday => "lunes"
    case Tuesday => "martes"
    case Wednesday => "miércoles"
    case Thursday => "jueves"
    case Friday => "viernes"
    case Saturday => "sábado"
    case Sunday => "domingo"
  }

  /** The day a lower-case Spanish name stands for (the `dias_a_ingles` table). */
  function FromSpanish(s: string): (r: Option<Weekday>)
    ensures r.Some? ==> SpanishKey(r.value) == s
    ensures r.None? <==> forall d :: SpanishKey(d) != s
  {
    if s == "lunes" then Some(Monday)
    else if s == "martes" then Some(Tuesday)
    else if s == "miércoles" then Some(Wednesday)
    else if s == "jueves" then Some(Thursday)
    else if s == "viernes" then Some(Friday)
    else if s == "sábado" then Some(Saturday)
    else if s == "domingo" then Some(Sunday)
    else None
  }

  /** The day a lower-case English name stands for. */
  function FromEnglish(s: string): (r: Option<Weekday>)
    ensures r.Some? ==> EnglishName(r.value) == s
    ensures r.None? <==> forall d :: EnglishName(d) != s
  {
    if s == "monday" then Some(Monday)
    else if s == "tuesday" then Some(Tuesday)
    else if s == "wednesday" then Some(Wednesday)
    else if s == "thursday" then Some(Thursday)
    else if s == "friday" then Some(Friday)
    else if s == "saturday" then Some(Saturday)
    else if s == "sunday" then Some(Sunday)
    else None
  }

  /** How the reply introduces the special: today's, tomorrow's, yesterday's,
      or that of a named day. */
  datatype Contexto = DeHoy | DeManana | DeAyer | DeLos

  datatype PlatoDelDia = PlatoDelDia(dia: Weekday, diaEspanol: string, especialidad: string, contexto: Contexto)

  /** The relative-day words, each in Spanish and English. */
  const HoyWords: seq<string> := ["hoy", "today"]
  const MananaWords: seq<string> := ["mañana", "tomorrow"]
  const AyerWords: seq<string> := ["ayer", "yesterday"]

  /** The day looked up for a lower-cased request: relative words first,
      then Spanish names, then English names; anything else is today. */
  function DiaBuscado(s: string, hoy: Weekday): Weekday {
    if s in HoyWords then hoy
    else if s in MananaWords then Next(hoy)
    else if s in AyerWords then Prev(hoy)
    else if FromSpanish(s).Some? then FromSpanish(s).value
    else if FromEnglish(s).Some? then FromEnglish(s).value
    else hoy
  }

  /** How the reply introduces the special, for a lower-cased request. */
  function ContextoDe(s: string): Contexto {
    if s in HoyWords then DeHoy
    else if s in MananaWords then DeManana
    else if s in AyerWords then DeAyer
    else DeLos
  }

  /** What the lookup picks for a lower-cased request: a relative word gives
      today, tomorrow or yesterday; a Spanish or English day name gives that
      day; anything else gives today, introduced as a named day. */
  lemma DayLookup(s: string, hoy: Weekday)
    ensures s in HoyWords ==> DiaBuscado(s, hoy) == hoy && ContextoDe(s) == DeHoy
    ensures s in MananaWords ==> DiaBuscado(s, hoy) == Next(hoy) && ContextoDe(s) == DeManana
    ensures s in AyerWords ==> DiaBuscado(s, hoy) == Prev(hoy) && ContextoDe(s) == DeAyer
    ensures forall d :: s == SpanishKey(d) || s == EnglishName(d) ==> DiaBuscado(s, hoy) == d && ContextoDe(s) == DeLos
    ensures s !in HoyWords && s !in MananaWords && s !in AyerWords && (forall d :: SpanishKey(d) != s && EnglishName(d) != s) ==>
      DiaBuscado(s, hoy) == hoy && ContextoDe(s) == DeLos
  {
    forall d | s == SpanishKey(d) || s == EnglishName(d)
      ensures DiaBuscado(s, hoy) == d && ContextoDe(s) == DeLos
    {
      if s == SpanishKey(d) {
        SpanishKeyResolves(d, hoy);
      } else {
        EnglishNameResolves(d, hoy);
      }
    }
  }

  /** obtener_plato_del_dia, with the current weekday `hoy` as a parameter:
      the request is lower-cased and looked up as `DayLookup` states, and the
      answer gives that day's Spanish name and its special. */
  function ObtenerPlatoDelDia(diaSolicitado: string, hoy: Weekday): (r: PlatoDelDia)
    ensures var s := Lower(diaSolicitado);
      && (s in HoyWords ==> r.dia == hoy && r.contexto == DeHoy)
      && (s in MananaWords ==> r.dia == Next(hoy) && r.contexto == DeManana)
      && (s in AyerWords ==> r.dia == Prev(hoy) && r.contexto == DeAyer)
      && (forall d :: s == SpanishKey(d) || s == EnglishName(d) ==> r.dia == d && r.contexto == DeLos)
      && (s !in HoyWords && s !in MananaWords && s !in AyerWords && (forall d :: SpanishKey(d) != s && EnglishName(d) != s) ==>
            r.dia == hoy && r.contexto == DeLos)
    ensures r.diaEspanol == SpanishName(r.dia) && r.especialidad == Especialidad(r.dia)
  {
    DayLookup(Lower(diaSolicitado), hoy);
    var dia := DiaBuscado(Lower(diaSolicitado), hoy);
    PlatoDelDia(dia, SpanishName(dia), Especialidad(dia), ContextoDe(Lower(diaSolicitado)))
  }

  /** "Mañana" (in any case) is the day after today, "Ayer" the day before. */
  lemma RelativeDays(hoy: Weekday)
    ensures ObtenerPlatoDelDia("Mañana", hoy).dia == Next(hoy)
    ensures ObtenerPlatoDelDia("Mañana", hoy).contexto == DeManana
    ensures ObtenerPlatoDelDia("AYER", hoy).dia == Prev(hoy)
    ensures ObtenerPlatoDelDia("AYER", hoy).contexto == DeAyer
    ensures ObtenerPlatoDelDia("hoy", hoy).dia == hoy
    ensures ObtenerPlatoDelDia("hoy", hoy).contexto == DeHoy
  {
    RelativeWordsLower();
    RelativeWordsResolve(hoy);
  }

  /** The relative words, once lower-cased, pick today, tomorrow or yesterday. */
  lemma RelativeWordsResolve(hoy: Weekday)
    ensures DiaBuscado("mañana", hoy) == Next(hoy) && ContextoDe("mañana") == DeManana
    ensures DiaBuscado("ayer", hoy) == Prev(hoy) && ContextoDe("ayer") == DeAyer
    ensures DiaBuscado("hoy", hoy) == hoy && ContextoDe("hoy") == DeHoy
  {
  }

  lemma RelativeWordsLower()
    ensures Lower("Mañana") == "mañana" && Lower("AYER") == "ayer"
    ensures Lower("hoy") == "hoy" && Lower("ayer") == "ayer"
  {
  }

  /** Asking for tomorrow's special and, the next day, for yesterday's gives
      the same dish as asking today. */
  lemma TomorrowThenYesterday(hoy: Weekday)
    ensures ObtenerPlatoDelDia("ayer", Next(hoy)).dia == ObtenerPlatoDelDia("hoy", hoy).dia
  {
    RelativeWordsLower();
    RelativeWordsResolve(hoy);
    RelativeWordsResolve(Next(hoy));
    NextPrevInverse(hoy);
  }

  /** Lower-casing a day's Spanish name gives its key; English names are
      already lower-case. */
  lemma SpanishNamesLower(d: Weekday)
    ensures Lower(SpanishName(d)) == SpanishKey(d)
  {
    match d
    case Monday =>
    case Tuesday =>
    case Wednesday =>
    case Thursday =>
    case Friday =>
    case Saturday =>
    case Sunday =>
  }

  lemma EnglishNamesLower(d: Weekday)
    ensures Lower(EnglishName(d)) == EnglishName(d)
  {
    match d
    case Monday =>
    case Tuesday =>
    case Wednesday =>
    case Thursday =>
    case Friday =>
    case Saturday =>
    case Sunday =>
  }

  /** A Spanish key resolves to its day, introduced as a named day. */
  lemma SpanishKeyResolves(d: Weekday, hoy: Weekday)
    ensures DiaBuscado(SpanishKey(d), hoy) == d && ContextoDe(SpanishKey(d)) == DeLos
  {
  }

  /** An English name resolves to its day, introduced as a named day. */
  lemma EnglishNameResolves(d: Weekday, hoy: Weekday)
    ensures DiaBuscado(EnglishName(d), hoy) == d && ContextoDe(EnglishName(d)) == DeLos
  {
  }

  /** Every Spanish day name, capitalised as the reply shows it, resolves to
      its day whatever today is. */
  lemma SpanishNamesResolve(d: Weekday, hoy: Weekday)
    ensures ObtenerPlatoDelDia(SpanishName(d), hoy).dia == d
    ensures ObtenerPlatoDelDia(SpanishName(d), hoy).contexto == DeLos
  {
    SpanishNamesLower(d);
    SpanishKeyResolves(d, hoy);
  }

  /** Every English day name resolves to its day whatever today is. */
  lemma EnglishNamesResolve(d: Weekday, hoy: Weekday)
    ensures ObtenerPlatoDelDia(EnglishName(d), hoy).dia == d
    ensures ObtenerPlatoDelDia(EnglishName(d), hoy).contexto == DeLos
  {
    EnglishNamesLower(d);
    EnglishNameResolves(d, hoy);
  }

  /** An unrecognised request silently gives today's special, introduced as
      if a day had been named. */
  lemma UnknownRequestGivesToday(diaSolicitado: string, hoy: Weekday)
    requires Lower(diaSolicitado) !in HoyWords && Lower(diaSolicitado) !in MananaWords
    requires Lower(diaSolicitado) !in AyerWords
    requires forall d :: SpanishKey(d) != Lower(diaSolicitado) && EnglishName(d) != Lower(diaSolicitado)
    ensures ObtenerPlatoDelDia(diaSolicitado, hoy).dia == hoy
    ensures ObtenerPlatoDelDia(diaSolicitado, hoy).contexto == DeLos
  {
    UnknownWordGivesToday(Lower(diaSolicitado), hoy);
  }

  lemma UnknownWordGivesToday(s: string, hoy: Weekday)
    requires s !in HoyWords && s !in MananaWords && s !in AyerWords
    requires forall d :: SpanishKey(d) != s && EnglishName(d) != s
    ensures DiaBuscado(s, hoy) == hoy && ContextoDe(s) == DeLos
  {
  }
}
