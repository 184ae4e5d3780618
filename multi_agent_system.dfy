/**
 * The tools and routing predicates of `MultiAgentMozoVirtual`
 * (src/agents/multi_agent_system.py). The investigator's and generator's
 * tools are closures over one object that keeps the investigation slot and
 * the report log; the generator can also send the last report to a Notion
 * page as a list of blocks and append it to a local file. The language
 * model, the graph that calls the tools and the Notion client are not
 * modelled: whether a knowledge base and a Notion client exist, what the
 * retriever returned and whether the Notion call raised are inputs.
 */
module MultiAgentSystem {
  import opened Wrappers
  import opened Text
  import opened Pipeline
  import TurnRules

  // ---------------------------------------------------------------------------
  // Investigation and justification
  // ---------------------------------------------------------------------------

  /** The investigation of this system: without a knowledge base it only
      answers that none is available; with one, the retrieval decides. */
  function Investigate(hasVectorstore: bool, retrieval: Retrieval, consulta: string, inv: Investigation): (r: (Investigation, InvestigateReply))
    ensures !hasVectorstore ==> r == (inv, KnowledgeBaseUnavailable)
    ensures hasVectorstore ==> r == InvestigateRetrieved(retrieval, consulta, inv)
  {
    if !hasVectorstore then (inv, KnowledgeBaseUnavailable)
    else InvestigateRetrieved(retrieval, consulta, inv)
  }

  /** Only an investigation that found documents touches the slot, and then
      it replaces it with the recommendations of the query's keywords. */
  lemma OnlySuccessOverwrites(hasVectorstore: bool, retrieval: Retrieval, consulta: string, inv: Investigation)
    ensures var (inv', r) := Investigate(hasVectorstore, retrieval, consulta, inv);
      && (r.InvestigationCompleted? <==> hasVectorstore && retrieval.Retrieved? && retrieval.docs != [])
      && (!r.InvestigationCompleted? ==> inv' == inv)
      && (r.InvestigationCompleted? ==>
            inv'.recomendaciones == Some(Recomendaciones(consulta)) && inv'.preferencias.None? &&
            inv'.informacion == Some(Map(retrieval.docs)))
  {
  }

  /** The justification texts of this system; only the romantic one differs
      from the simple system's. */
  const Justificaciones: Table := [
    ("romantica", "Seleccionados platos elegantes y sofisticados perfectos para una cena romántica, con vinos que complementan la experiencia."),
    ("familiar", "Recomendaciones pensadas para compartir en familia, con opciones que agradan a diferentes edades y gustos."),
    ("negocio", "Platos profesionales y presentación impecable, ideales para reuniones de trabajo y networking."),
    ("general", "Recomendaciones basadas en los platos más populares y mejor valorados de nuestro menú.")
  ]

  /** generar_justificacion: the text for the slot's occasion, with no check
      that the slot holds anything. */
  function Justificacion(inv: Investigation): string {
    Justify(Justificaciones, inv)
  }

  /** A slot without preferences, the empty slot included, gets the general
      text; every occasion the analysis produces gets its own. */
  lemma JustificationByOcasion(inv: Investigation, descripcion: string)
    ensures inv.preferencias.None? ==> Justificacion(inv) == Justificaciones[3].1
    ensures var p := AnalizarPreferencias(descripcion);
      exists i :: 0 <= i < |Justificaciones| && Justificaciones[i].0 == p.ocasion &&
        Justificacion(WithPreferencias(inv, p)) == Justificaciones[i].1
  {
    if inv.preferencias.None? {
      assert Get(Justificaciones, "general") == Some(Justificaciones[3].1);
    }
    var p := AnalizarPreferencias(descripcion);
    assert p.ocasion == Ocasion(Lower(descripcion));
    OcasionIsLabel(Lower(descripcion));
    LabelHasText(WithPreferencias(inv, p));
  }

  /** A slot whose occasion is one of the four labels gets that label's text. */
  lemma LabelHasText(inv: Investigation)
    requires inv.preferencias.Some?
    requires inv.preferencias.value.ocasion in {"romantica", "familiar", "negocio", "general"}
    ensures exists i ::
      0 <= i < |Justificaciones| && Justificaciones[i].0 == inv.preferencias.value.ocasion &&
      Justificacion(inv) == Justificaciones[i].1
  {
    var o := inv.preferencias.value.ocasion;
    var i := if o == "romantica" then 0 else if o == "familiar" then 1 else if o == "negocio" then 2 else 3;
    assert Justificaciones[i].0 == o;
  }

  // ---------------------------------------------------------------------------
  // The Notion report
  // ---------------------------------------------------------------------------

  /** The blocks of a report page (the heading's timestamp and the text
      formatting of each block are not kept). */
  datatype Block =
    | Divider
    | Heading
    | QueryParagraph(consulta: string)
    | AnalysisParagraph(documentos: nat, recomendaciones: nat)
    | Bullet(n: nat, rec: string)
    | JustificationParagraph(justificacion: string)

  /** The four blocks that open a report. */
  function Header(informe: Report): seq<Block> {
    [Divider, Heading, QueryParagraph(informe.consultaOriginal),
     AnalysisParagraph(informe.documentosRevisados, informe.recomendacionesGeneradas)]
  }

  /** The block list of a report: the header, one bullet per recommendation
      numbered from 1, and the justification. */
  function Blocks(informe: Report): (r: seq<Block>)
    ensures |r| == 5 + |informe.recomendaciones|
    ensures r[..4] == Header(informe)
    ensures forall i :: 0 <= i < |informe.recomendaciones| ==> r[4 + i] == Bullet(i + 1, informe.recomendaciones[i])
    ensures r[|r| - 1] == JustificationParagraph(informe.justificacion)
  {
    var recs := informe.recomendaciones;
    Header(informe) + seq(|recs|, i requires 0 <= i < |recs| => Bullet(i + 1, recs[i]))
      + [JustificationParagraph(informe.justificacion)]
  }

  /** The bullets of a report are exactly its recommendations: the
      recommendations can be read back from the block list in order. */
  lemma BulletsListRecommendations(informe: Report)
    ensures var b := Blocks(informe);
      seq(|b| - 5, i requires 0 <= i < |b| - 5 => b[4 + i].rec) == informe.recomendaciones
    ensures forall i :: 0 <= i < |Blocks(informe)| ==>
      (Blocks(informe)[i].Bullet? <==> 4 <= i < 4 + |informe.recomendaciones|)
  {
  }

  /** What guardar_informe_notion answers. */
  datatype SaveReply = NoReports | NoNotionClient | SavedToNotion | NotionFailed

  /** The effect of guardar_informe_notion on the local file and on the
      Notion page, and its answer. */
  datatype SaveOutcome = SaveOutcome(savedLocally: seq<Report>, notionPage: seq<Block>, reply: SaveReply)

  /** guardar_informe_notion: nothing without a report or without a client
      (although the latter answer says the report was saved locally);
      otherwise the last report goes to the local file, and to the page too
      unless the Notion call raises. */
  function Save(reports: seq<Report>, hasNotionClient: bool, notionFails: bool,
                savedLocally: seq<Report>, notionPage: seq<Block>): (r: SaveOutcome)
    ensures reports == [] ==> r == SaveOutcome(savedLocally, notionPage, NoReports)
    ensures reports != [] && !hasNotionClient ==> r == SaveOutcome(savedLocally, notionPage, NoNotionClient)
    ensures reports != [] && hasNotionClient ==> r.savedLocally == savedLocally + [Last(reports)]
    ensures r.reply == SavedToNotion <==> reports != [] && hasNotionClient && !notionFails
    ensures r.reply == SavedToNotion ==> r.notionPage == notionPage + Blocks(Last(reports))
    ensures r.reply != SavedToNotion ==> r.notionPage == notionPage
  {
    if reports == [] then SaveOutcome(savedLocally, notionPage, NoReports)
    else if !hasNotionClient then SaveOutcome(savedLocally, notionPage, NoNotionClient)
    else if notionFails then SaveOutcome(savedLocally + [Last(reports)], notionPage, NotionFailed)
    else SaveOutcome(savedLocally + [Last(reports)], notionPage + Blocks(Last(reports)), SavedToNotion)
  }

  /** The local file receives a report exactly when a client exists, whether
      or not Notion accepted it; the page grows by 5 + n blocks on success. */
  lemma LocalCopyWithClientOnly(reports: seq<Report>, hasNotionClient: bool, notionFails: bool,
                                savedLocally: seq<Report>, notionPage: seq<Block>)
    ensures var o := Save(reports, hasNotionClient, notionFails, savedLocally, notionPage);
      && (o.savedLocally != savedLocally <==> reports != [] && hasNotionClient)
      && (o.reply == SavedToNotion ==> |o.notionPage| == |notionPage| + 5 + |Last(reports).recomendaciones|)
  {
    if reports != [] && hasNotionClient {
      assert |Save(reports, hasNotionClient, notionFails, savedLocally, notionPage).savedLocally| == |savedLocally| + 1;
    }
  }

  // ---------------------------------------------------------------------------
  // Routing predicates: the graph enters at the investigator and follows
  // should_continue_investigator and should_continue_generator;
  // should_use_investigator is defined beside them but never attached
  // ---------------------------------------------------------------------------

  /** Where a routing predicate sends the conversation. */
  datatype Route = ToInvestigator | ToGenerator | ToTools | ToEnd

  /** The keywords that call for an investigation. */
  const InvestigacionKeywords: seq<string> := [
    "recomendar", "recomendación", "sugerir", "qué me recomiendas",
    "qué me sugieres", "ayuda a elegir", "no sé qué pedir",
    "romántica", "pareja", "familia", "negocio", "especial",
    "vegetariano", "vegano", "sin gluten", "alergias"
  ]

  /** should_use_investigator on the content of the last message (a
      predicate the compiled graph does not consult). */
  function ShouldUseInvestigator(lastMessage: string): (r: Route)
    ensures r != ToTools
    ensures r == ToInvestigator <==> ContainsAny(Lower(lastMessage), InvestigacionKeywords)
    ensures r == ToGenerator <==>
      (!ContainsAny(Lower(lastMessage), InvestigacionKeywords) &&
       (Contains(Lower(lastMessage), "informe") || Contains(Lower(lastMessage), "resumen")))
  {
    var m := Lower(lastMessage);
    if ContainsAny(m, InvestigacionKeywords) then ToInvestigator
    else if Contains(m, "informe") || Contains(m, "resumen") then ToGenerator
    else ToEnd
  }

  /** The investigation keywords are the keywords of is_complex_query
      without "informe". */
  lemma KeywordsOfComplexQuery()
    ensures TurnRules.ComplexKeywords == InvestigacionKeywords + ["informe"]
  {
  }

  /** Were should_use_investigator consulted, a message it sends to the
      investigator would be one the assistant classifies as complex, and it
      would not end the graph on a complex query. The compiled graph never
      consults it: every message enters at the investigator. */
  lemma InvestigatorRouteAgreesWithComplexQuery(lastMessage: string)
    ensures ShouldUseInvestigator(lastMessage) == ToInvestigator ==> TurnRules.IsComplexQuery(lastMessage)
    ensures TurnRules.IsComplexQuery(lastMessage) ==> ShouldUseInvestigator(lastMessage) != ToEnd
  {
    var m := Lower(lastMessage);
    KeywordsOfComplexQuery();
    if ContainsAny(m, InvestigacionKeywords) {
      var i :| 0 <= i < |InvestigacionKeywords| && Contains(m, InvestigacionKeywords[i]);
      assert TurnRules.ComplexKeywords[i] == InvestigacionKeywords[i];
    } else if TurnRules.IsComplexQuery(lastMessage) {
      var i :| 0 <= i < |TurnRules.ComplexKeywords| && Contains(m, TurnRules.ComplexKeywords[i]);
    }
  }

  /** "Resumen del pedido" goes to the generator, although the assistant
      treats it as a routine query: no investigation keyword occurs in it. */
  lemma ResumenGoesToGenerator()
    ensures ShouldUseInvestigator("Resumen del pedido") == ToGenerator
  {
    var s := "resumen del pedido";
    assert Lower("Resumen del pedido") == s;
    ResumenPicks();
    ResumenAbsent();
    NoneContained(s, InvestigacionKeywords, [2, 2, 2, 0, 0, 0, 6, 8, 1, 1, 2, 4, 2, 2, 4, 0], "acgq");
    assert OccursAt(s, "resumen", 0);
  }

  /** Position `pick[i]` of investigation keyword `i` holds an `a`, `c`, `g`
      or `q`: the `c` of "recomendar", the `g` of "sugerir", the `q` of
      "qué me recomiendas", the `a` of "ayuda a elegir", and so on. */
  lemma ResumenPicks()
    ensures forall i :: 0 <= i < |InvestigacionKeywords| ==>
      [2, 2, 2, 0, 0, 0, 6, 8, 1, 1, 2, 4, 2, 2, 4, 0][i] < |InvestigacionKeywords[i]| &&
      InvestigacionKeywords[i][[2, 2, 2, 0, 0, 0, 6, 8, 1, 1, 2, 4, 2, 2, 4, 0][i]] in "acgq"
  {
  }

  /** "resumen del pedido" has no `a`, `c`, `g` or `q`. */
  lemma ResumenAbsent()
    ensures forall c :: c in "acgq" ==> c !in "resumen del pedido"
  {
  }

  /** should_continue_investigator: tool calls go to the tools; otherwise the
      investigator hands over to the generator, and any other agent ends. */
  function ShouldContinueInvestigator(hasToolCalls: bool, currentAgent: string): (r: Route)
    ensures r != ToInvestigator
    ensures r == ToTools <==> hasToolCalls
    ensures r == ToGenerator <==> !hasToolCalls && currentAgent == "investigator"
  {
    if hasToolCalls then ToTools
    else if currentAgent == "investigator" then ToGenerator
    else ToEnd
  }

  /** should_continue_generator: tool calls go to the tools, else the end. */
  function ShouldContinueGenerator(hasToolCalls: bool): (r: Route)
    ensures r == ToTools <==> hasToolCalls
    ensures r == ToEnd <==> !hasToolCalls
  {
    if hasToolCalls then ToTools else ToEnd
  }

  // ---------------------------------------------------------------------------
  // The system
  // ---------------------------------------------------------------------------

  class MultiAgentMozoVirtual {
    /** Whether a knowledge base was handed in. */
    const hasVectorstore: bool
    /** Whether a Notion client was handed in. */
    const hasNotionClient: bool
    /** `self.current_investigation` */
    var currentInvestigation: Investigation
    /** `self.generated_reports` */
    var generatedReports: seq<Report>
    /** The reports appended to the local report file, in order. */
    var savedLocally: seq<Report>
    /** The blocks appended to the report page in Notion, in order. */
    var notionPage: seq<Block>

    /** A fresh system: empty slot, no reports, nothing saved. */
    constructor (hasVectorstore: bool, hasNotionClient: bool)
      ensures this.hasVectorstore == hasVectorstore && this.hasNotionClient == hasNotionClient
      ensures IsEmpty(currentInvestigation) && generatedReports == []
      ensures savedLocally == [] && notionPage == []
    {
      this.hasVectorstore := hasVectorstore;
      this.hasNotionClient := hasNotionClient;
      currentInvestigation := EmptySlot;
      generatedReports := [];
      savedLocally := [];
      notionPage := [];
    }

    /** investigar_plato_detallado */
    method InvestigarPlatoDetallado(consulta: string, retrieval: Retrieval) returns (r: InvestigateReply)
      modifies this
      ensures (currentInvestigation, r) == Investigate(hasVectorstore, retrieval, consulta, old(currentInvestigation))
      ensures generatedReports == old(generatedReports)
      ensures savedLocally == old(savedLocally) && notionPage == old(notionPage)
    {
      if !hasVectorstore {
        return KnowledgeBaseUnavailable;
      }
      match retrieval {
        case RetrievalFailed(m) =>
          return InvestigationFailed(m);
        case Retrieved(docs) =>
          if docs == [] {
            return NothingFound(consulta);
          }
          var infos := CollectInfo(docs);
          currentInvestigation := Investigation(Some(consulta), Some(|docs|), Some(infos), Some(Recomendaciones(consulta)), None);
          return InvestigationCompleted(|docs|);
      }
    }

    /** analizar_preferencias_cliente: write the preferences key only. */
    method AnalizarPreferenciasCliente(descripcion: string) returns (r: PrefsReply)
      modifies this
      ensures currentInvestigation == WithPreferencias(old(currentInvestigation), AnalizarPreferencias(descripcion))
      ensures r == PreferencesAnalyzed(AnalizarPreferencias(descripcion).ocasion, AnalizarPreferencias(descripcion).presupuesto)
      ensures generatedReports == old(generatedReports)
      ensures savedLocally == old(savedLocally) && notionPage == old(notionPage)
    {
      var p := AnalizarPreferencias(descripcion);
      currentInvestigation := currentInvestigation.(preferencias := Some(p));
      r := PreferencesAnalyzed(p.ocasion, p.presupuesto);
    }

    /** generar_informe_recomendacion */
    method GenerarInformeRecomendacion(tipo: string) returns (r: ReportReply)
      modifies this
      ensures (generatedReports, r) == GenerateReport(currentInvestigation, old(generatedReports), tipo, Justificacion(currentInvestigation))
      ensures currentInvestigation == old(currentInvestigation)
      ensures savedLocally == old(savedLocally) && notionPage == old(notionPage)
    {
      if IsEmpty(currentInvestigation) {
        return NoInvestigationData;
      }
      var informe := BuildReport(currentInvestigation, tipo, GenerarJustificacion());
      generatedReports := generatedReports + [informe];
      r := ReportGenerated(tipo, |informe.recomendaciones|);
    }

    /** generar_justificacion */
    function GenerarJustificacion(): string
      reads this
    {
      Justificacion(currentInvestigation)
    }

    /** guardar_informe_notion */
    method GuardarInformeNotion(notionFails: bool) returns (r: SaveReply)
      modifies this
      ensures SaveOutcome(savedLocally, notionPage, r) ==
        Save(generatedReports, hasNotionClient, notionFails, old(savedLocally), old(notionPage))
      ensures currentInvestigation == old(currentInvestigation) && generatedReports == old(generatedReports)
    {
      if generatedReports == [] {
        return NoReports;
      }
      if !hasNotionClient {
        return NoNotionClient;
      }
      var informe := generatedReports[|generatedReports| - 1];
      var blocks := BuildBlocks(informe);
      if notionFails {
        savedLocally := savedLocally + [informe];
        return NotionFailed;
      }
      notionPage := notionPage + blocks;
      savedLocally := savedLocally + [informe];
      r := SavedToNotion;
    }

    /** The block list of guardar_informe_notion, built by appending. */
    method BuildBlocks(informe: Report) returns (blocks: seq<Block>)
      ensures blocks == Blocks(informe)
    {
      blocks := Header(informe);
      var recs := informe.recomendaciones;
      for i := 0 to |recs|
        invariant |blocks| == 4 + i && blocks[..4] == Header(informe)
        invariant forall j :: 0 <= j < i ==> blocks[4 + j] == Bullet(j + 1, recs[j])
      {
        blocks := blocks + [Bullet(i + 1, recs[i])];
      }
      blocks := blocks + [JustificationParagraph(informe.justificacion)];
    }

    /** generar_resumen_decision */
    function GenerarResumenDecision(): SummaryReply
      reads this
    {
      Summary(currentInvestigation, generatedReports)
    }
  }
}
