/**
 * What the two multi-agent systems share (src/agents/simple_multi_agent.py
 * and src/agents/multi_agent_system.py): the investigation slot, the keyword
 * cascade that picks recommendations, the truncation of retrieved snippets,
 * the preference analysis and the report built from the slot.
 *
 * The slot `current_investigation` is a Python dictionary that is either
 * empty, a full investigation result, or either of those with the
 * `preferencias_cliente` key added; each key is an `Option` here.
 */
module Pipeline {
  import opened Wrappers
  import opened Text

  // ---------------------------------------------------------------------------
  // The investigation slot
  // ---------------------------------------------------------------------------

  /** One retrieved document: its text and the `source` entry of its
      metadata, if any. */
  datatype Doc = Doc(content: string, source: Option<string>)

  /** One entry of `informacion`. */
  datatype Info = Info(contenido: string, fuente: string)

  /** The result of preference analysis (its always-empty `restricciones`
      and `gustos` lists are not kept). */
  datatype Preferencias = Preferencias(tipoComida: seq<string>, presupuesto: string, ocasion: string)

  datatype Investigation = Investigation(
    consulta: Option<string>,
    documentosEncontrados: Option<nat>,
    informacion: Option<seq<Info>>,
    recomendaciones: Option<seq<string>>,
    preferencias: Option<Preferencias>)

  /** `{}` */
  const EmptySlot: Investigation := Investigation(None, None, None, None, None)

  /** Python's `not self.current_investigation`. */
  predicate IsEmpty(inv: Investigation) {
    inv == EmptySlot
  }

  /** What the retriever gave: documents, or the exception it raised. */
  datatype Retrieval = Retrieved(docs: seq<Doc>) | RetrievalFailed(message: string)

  // ---------------------------------------------------------------------------
  // Snippets and recommendations
  // ---------------------------------------------------------------------------

  const SnippetLimit: nat := 500

  /** A snippet longer than 500 characters keeps its first 500 and gets "...". */
  function Truncate(c: string): (r: string)
    ensures |r| <= SnippetLimit + 3
    ensures |c| <= SnippetLimit ==> r == c
    ensures |c| > SnippetLimit ==> |r| == SnippetLimit + 3 && r[..SnippetLimit] == c[..SnippetLimit] && r[SnippetLimit..] == "..."
  {
    if |c| > SnippetLimit then c[..SnippetLimit] + "..." else c
  }

  /** Truncating twice is truncating once: a truncated snippet of 503
      characters is cut back to the same 500 and gets the same "...". */
  lemma TruncateIdempotent(c: string)
    ensures Truncate(Truncate(c)) == Truncate(c)
  {
    if |c| > SnippetLimit {
      assert Truncate(c)[..SnippetLimit] == c[..SnippetLimit];
    }
  }

  /** The entry kept for a retrieved document. */
  function ToInfo(d: Doc): Info {
    Info(Truncate(d.content), d.source.GetOr("desconocida"))
  }

  /** The keyword groups of the recommendation cascade, in the order tried. */
  const RecommendationKeywords: seq<seq<string>> := [
    ["romántic", "pareja"],
    ["familia", "niños"],
    ["vegetariano", "vegano"]
  ]

  /** The three fixed recommendations of each group. */
  const RecommendationSets: seq<seq<string>> := [
    ["Solomillo de Ternera - Elegante y sofisticado",
     "Rioja Reserva - Vino perfecto para ocasiones especiales",
     "Crema Catalana - Postre tradicional español"],
    ["Paella Valenciana - Ideal para compartir",
     "Tortilla Española - Clásico familiar",
     "Limonada Casera - Refrescante para todos"],
    ["Risotto de Setas - Cremoso y sabroso",
     "Ensalada de Quinoa - Saludable y nutritiva",
     "Gazpacho Andaluz - Refrescante y natural"]
  ]

  /** The recommendations for a query: the set of the first group the
      lower-cased query hits, or none. */
  function Recomendaciones(consulta: string): (r: seq<string>)
    ensures r == [] <==>
      forall k :: 0 <= k < |RecommendationKeywords| ==> !ContainsAny(Lower(consulta), RecommendationKeywords[k])
    ensures r == [] || |r| == 3
  {
    match FirstBucket(Lower(consulta), RecommendationKeywords)
    case None => []
    case Some(k) => RecommendationSets[k]
  }

  /** The first group hit decides, whatever later groups the query hits. */
  lemma RecommendationsFollowCascade(consulta: string, k: nat)
    requires k < |RecommendationKeywords| && ContainsAny(Lower(consulta), RecommendationKeywords[k])
    requires forall j :: 0 <= j < k ==> !ContainsAny(Lower(consulta), RecommendationKeywords[j])
    ensures Recomendaciones(consulta) == RecommendationSets[k]
  {
  }

  /** The slot after a completed investigation: it replaces whatever was
      there, so earlier preferences are dropped too; it records the query and
      the collected entries. */
  function Investigated(consulta: string, infos: seq<Info>): (r: Investigation)
    ensures !IsEmpty(r) && r.preferencias.None?
    ensures r.consulta == Some(consulta) && r.informacion == Some(infos)
    ensures r.documentosEncontrados == Some(|infos|)
    ensures r.recomendaciones == Some(Recomendaciones(consulta))
  {
    Investigation(Some(consulta), Some(|infos|), Some(infos), Some(Recomendaciones(consulta)), None)
  }

  /** The three snippets the simple system uses without a knowledge base. */
  const SimulatedInfo: seq<Info> := [
    Info("Solomillo de Ternera - Corte premium, cocción perfecta, acompañado de salsa de vino tinto", "menu_principales"),
    Info("Rioja Reserva - Vino tinto español, perfecto maridaje para carnes rojas", "menu_bebidas"),
    Info("Crema Catalana - Postre tradicional, crujiente caramelo, crema suave", "menu_postres")
  ]

  /** What an investigation tool answers. */
  datatype InvestigateReply =
    | InvestigationCompleted(documentos: nat)
    | NothingFound(consulta: string)
    | InvestigationFailed(message: string)
    | KnowledgeBaseUnavailable

  /** The investigation over retrieved documents, shared by both systems once
      a knowledge base exists: no documents or a failing retriever keep the
      old slot; otherwise the slot is replaced. */
  function InvestigateRetrieved(retrieval: Retrieval, consulta: string, inv: Investigation): (r: (Investigation, InvestigateReply))
    ensures r.1.InvestigationCompleted? <==> retrieval.Retrieved? && retrieval.docs != []
    ensures !r.1.InvestigationCompleted? ==> r.0 == inv
    ensures r.1.InvestigationCompleted? ==> r.0 == Investigated(consulta, Map(retrieval.docs)) && r.1.documentos == |retrieval.docs|
  {
    match retrieval
    case RetrievalFailed(m) => (inv, InvestigationFailed(m))
    case Retrieved(docs) =>
      if docs == [] then (inv, NothingFound(consulta))
      else (Investigated(consulta, Map(docs)), InvestigationCompleted(|docs|))
  }

  /** The `informacion` list built from the documents, in order. */
  function Map(docs: seq<Doc>): (r: seq<Info>)
    ensures |r| == |docs| && forall i :: 0 <= i < |docs| ==> r[i] == ToInfo(docs[i])
  {
    seq(|docs|, i requires 0 <= i < |docs| => ToInfo(docs[i]))
  }

  /** The loop that turns each retrieved document into an entry. */
  method CollectInfo(docs: seq<Doc>) returns (infos: seq<Info>)
    ensures infos == Map(docs)
  {
    infos := [];
    for i := 0 to |docs|
      invariant infos == Map(docs[..i])
    {
      assert docs[..i + 1] == docs[..i] + [docs[i]];
      infos := infos + [ToInfo(docs[i])];
    }
    assert docs[..|docs|] == docs;
  }

  // ---------------------------------------------------------------------------
  // Preference analysis
  // ---------------------------------------------------------------------------

  const CarneWords: seq<string> := ["carne", "ternera", "cordero", "cochinillo"]
  const PescadoWords: seq<string> := ["pescado", "marisco", "paella", "bacalao"]
  const VegetarianoWords: seq<string> := ["vegetariano", "vegano", "ensalada", "quinoa"]

  /** The food labels, in the order they can be appended. */
  const FoodLabels: seq<string> := ["carnes", "pescados_mariscos", "vegetariano"]

  /** The occasion keyword groups, tried in order, and their labels. */
  const OcasionKeywords: seq<seq<string>> := [
    ["romántic", "pareja", "especial"],
    ["familia", "niños", "grupo"],
    ["negocio", "trabajo", "formal"]
  ]
  const OcasionLabels: seq<string> := ["romantica", "familiar", "negocio"]

  const BajoWords: seq<string> := ["económico", "barato", "simple"]
  const AltoWords: seq<string> := ["lujo", "premium", "especial"]

  /** `tipo_comida`: one label per food family the description mentions,
      appended in the fixed order carnes, pescados_mariscos, vegetariano. */
  function TipoComida(d: string): (r: seq<string>)
    ensures "carnes" in r <==> ContainsAny(d, CarneWords)
    ensures "pescados_mariscos" in r <==> ContainsAny(d, PescadoWords)
    ensures "vegetariano" in r <==> ContainsAny(d, VegetarianoWords)
    ensures forall x :: x in r ==> x in FoodLabels
    ensures forall i, j :: 0 <= i < j < |r| ==> FoodRank(r[i]) < FoodRank(r[j])
  {
    (if ContainsAny(d, CarneWords) then ["carnes"] else [])
    + (if ContainsAny(d, PescadoWords) then ["pescados_mariscos"] else [])
    + (if ContainsAny(d, VegetarianoWords) then ["vegetariano"] else [])
  }

  /** The position of a food label in `FoodLabels`. */
  function FoodRank(name: string): nat {
    if name == "carnes" then 0 else if name == "pescados_mariscos" then 1 else 2
  }

  /** `ocasion`: the label of the first occasion group hit, else "general". */
  function Ocasion(d: string): (r: string)
    ensures r == "general" <==> forall k :: 0 <= k < |OcasionKeywords| ==> !ContainsAny(d, OcasionKeywords[k])
    ensures r == "romantica" <==> ContainsAny(d, OcasionKeywords[0])
    ensures r == "familiar" <==> !ContainsAny(d, OcasionKeywords[0]) && ContainsAny(d, OcasionKeywords[1])
    ensures r == "negocio" <==>
      !ContainsAny(d, OcasionKeywords[0]) && !ContainsAny(d, OcasionKeywords[1]) && ContainsAny(d, OcasionKeywords[2])
  {
    match FirstBucket(d, OcasionKeywords)
    case None => "general"
    case Some(k) => OcasionLabels[k]
  }

  /** `presupuesto`: "bajo" wins over "alto", which wins over "medio". */
  function Presupuesto(d: string): (r: string)
    ensures r == "bajo" <==> ContainsAny(d, BajoWords)
    ensures r == "alto" <==> !ContainsAny(d, BajoWords) && ContainsAny(d, AltoWords)
    ensures r == "medio" <==> !ContainsAny(d, BajoWords) && !ContainsAny(d, AltoWords)
  {
    if ContainsAny(d, BajoWords) then "bajo"
    else if ContainsAny(d, AltoWords) then "alto"
    else "medio"
  }

  /** The occasion is one of the four labels. */
  lemma OcasionIsLabel(d: string)
    ensures Ocasion(d) in {"romantica", "familiar", "negocio", "general"}
  {
  }

  /** analizar_preferencias_cliente on the lower-cased description. */
  function AnalizarPreferencias(descripcion: string): Preferencias {
    var d := Lower(descripcion);
    Preferencias(TipoComida(d), Presupuesto(d), Ocasion(d))
  }

  /** The slot after preference analysis: only the preferences key is written. */
  function WithPreferencias(inv: Investigation, p: Preferencias): (r: Investigation)
    ensures r.preferencias == Some(p)
    ensures r.(preferencias := inv.preferencias) == inv
    ensures !IsEmpty(r)
  {
    inv.(preferencias := Some(p))
  }

  /** What analizar_preferencias_cliente answers. */
  datatype PrefsReply = PreferencesAnalyzed(ocasion: string, presupuesto: string)

  /** "especial" is both an occasion word and a luxury word: a description
      with it is romantic with a high budget unless a cheap word is present. */
  lemma EspecialIsRomanticAndHigh(descripcion: string)
    requires Contains(Lower(descripcion), "especial") && !ContainsAny(Lower(descripcion), BajoWords)
    ensures AnalizarPreferencias(descripcion).ocasion == "romantica"
    ensures AnalizarPreferencias(descripcion).presupuesto == "alto"
  {
    assert OcasionKeywords[0][2] == "especial" && AltoWords[2] == "especial";
  }

  // ---------------------------------------------------------------------------
  // Reports
  // ---------------------------------------------------------------------------

  /** One entry of `generated_reports` (its timestamp and fixed next action
      are not kept). */
  datatype Report = Report(
    tipo: string,
    consultaOriginal: string,
    documentosRevisados: nat,
    preferenciasDetectadas: Option<Preferencias>,
    recomendacionesGeneradas: nat,
    recomendaciones: seq<string>,
    justificacion: string)

  /** A justification table: occasion label to text, as a dictionary. */
  type Table = seq<(string, string)>

  /** `table.get(key)` */
  function Get(table: Table, key: string): (r: Option<string>)
    ensures r.Some? ==> exists i :: 0 <= i < |table| && table[i] == (key, r.value)
    ensures r.None? ==> forall i :: 0 <= i < |table| ==> table[i].0 != key
  {
    if table == [] then None
    else if table[0].0 == key then Some(table[0].1)
    else Get(table[1..], key)
  }

  /** The occasion the slot's preferences name, "general" by default. */
  function SlotOcasion(inv: Investigation): string {
    match inv.preferencias
    case None => "general"
    case Some(p) => p.ocasion
  }

  /** `justificaciones.get(ocasion, justificaciones["general"])` */
  function Justify(table: Table, inv: Investigation): string {
    match Get(table, SlotOcasion(inv))
    case Some(t) => t
    case None => Get(table, "general").GetOr("")
  }

  /** The report built from a non-empty slot: it copies the slot's query,
      document count, preferences and recommendations, with the defaults
      "N/A", 0 and no recommendations for missing keys, and carries the
      report type and the justification it is given. */
  function BuildReport(inv: Investigation, tipo: string, justificacion: string): (r: Report)
    ensures r.recomendacionesGeneradas == |r.recomendaciones|
    ensures r.recomendaciones == inv.recomendaciones.GetOr([])
    ensures inv.consulta.Some? ==> r.consultaOriginal == inv.consulta.value
    ensures inv.consulta.None? ==> r.consultaOriginal == "N/A"
    ensures inv.documentosEncontrados.Some? ==> r.documentosRevisados == inv.documentosEncontrados.value
    ensures inv.documentosEncontrados.None? ==> r.documentosRevisados == 0
    ensures r.preferenciasDetectadas == inv.preferencias
    ensures r.tipo == tipo && r.justificacion == justificacion
  {
    var recs := inv.recomendaciones.GetOr([]);
    Report(tipo, inv.consulta.GetOr("N/A"), inv.documentosEncontrados.GetOr(0), inv.preferencias,
           |recs|, recs, justificacion)
  }

  /** What generar_informe_recomendacion answers. */
  datatype ReportReply = NoInvestigationData | ReportGenerated(tipo: string, recomendaciones: nat)

  /** generar_informe_recomendacion as a function: nothing for an empty slot,
      otherwise exactly one report appended. */
  function GenerateReport(inv: Investigation, reports: seq<Report>, tipo: string, justificacion: string): (r: (seq<Report>, ReportReply))
    ensures IsEmpty(inv) <==> r.0 == reports
    ensures IsEmpty(inv) ==> r.1 == NoInvestigationData
    ensures !IsEmpty(inv) ==> r.0 == reports + [BuildReport(inv, tipo, justificacion)]
    ensures !IsEmpty(inv) ==> r.1 == ReportGenerated(tipo, |inv.recomendaciones.GetOr([])|)
  {
    if IsEmpty(inv) then (reports, NoInvestigationData)
    else
      var report := BuildReport(inv, tipo, justificacion);
      (reports + [report], ReportGenerated(tipo, |report.recomendaciones|))
  }

  /** Preference analysis always unlocks report generation, even on an empty
      slot: the report then has the query "N/A" and no recommendations. */
  lemma AnalysisUnlocksReport(inv: Investigation, descripcion: string, reports: seq<Report>, tipo: string, j: string)
    ensures var inv' := WithPreferencias(inv, AnalizarPreferencias(descripcion));
      |GenerateReport(inv', reports, tipo, j).0| == |reports| + 1
    ensures IsEmpty(inv) ==>
      var report := Last(GenerateReport(WithPreferencias(inv, AnalizarPreferencias(descripcion)), reports, tipo, j).0);
      report.consultaOriginal == "N/A" && report.recomendaciones == [] && report.documentosRevisados == 0
  {
  }

  function Last<T>(xs: seq<T>): T
    requires xs != []
  {
    xs[|xs| - 1]
  }

  /** What generar_resumen_decision answers: nothing without a slot and a
      report, else the number of options of the last report. */
  datatype SummaryReply = NoSummaryData | SummaryGenerated(opciones: nat)

  function Summary(inv: Investigation, reports: seq<Report>): (r: SummaryReply)
    ensures r.SummaryGenerated? <==> !IsEmpty(inv) && reports != []
    ensures r.SummaryGenerated? ==> r.opciones == |Last(reports).recomendaciones|
  {
    if IsEmpty(inv) || reports == [] then NoSummaryData
    else SummaryGenerated(|Last(reports).recomendaciones|)
  }
}
