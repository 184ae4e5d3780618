/**
 * `SimpleMultiAgentMozoVirtual` (src/agents/simple_multi_agent.py): the
 * investigator and generator steps run in a fixed order on one object that
 * keeps the current investigation slot and the list of generated reports,
 * and records each step in a trace of its observer. The language model is
 * never consulted by these steps; the knowledge base is an input: whether
 * one exists, and what its retriever returned for the query.
 */
module SimpleMultiAgent {
  import opened Wrappers
  import opened Text
  import opened Pipeline
  import opened Observer

  /** The justification texts of this system, by occasion. */
  const Justificaciones: Table := [
    ("romantica", "Recomendaciones pensadas para una ocasión especial, con platos elegantes y maridajes perfectos."),
    ("familiar", "Recomendaciones pensadas para compartir en familia, con opciones que agradan a diferentes edades y gustos."),
    ("negocio", "Platos profesionales y presentación impecable, ideales para reuniones de trabajo y networking."),
    ("general", "Recomendaciones basadas en los platos más populares y mejor valorados de nuestro menú.")
  ]

  const NoJustificationData: string := "No hay datos suficientes para generar justificación."

  /** generar_justificacion: a fixed text without a slot, otherwise the text
      for the slot's occasion. */
  function Justificacion(inv: Investigation): string {
    if IsEmpty(inv) then NoJustificationData else Justify(Justificaciones, inv)
  }

  /** Every occasion the analysis can produce has its own text, and a slot
      without preferences gets the general one. */
  lemma JustificationByOccasion(inv: Investigation, descripcion: string)
    ensures IsEmpty(inv) ==> Justificacion(inv) == NoJustificationData
    ensures !IsEmpty(inv) && inv.preferencias.None? ==> Justificacion(inv) == Justificaciones[3].1
    ensures var p := AnalizarPreferencias(descripcion);
      exists i :: 0 <= i < |Justificaciones| && Justificaciones[i].0 == p.ocasion &&
        Justificacion(WithPreferencias(inv, p)) == Justificaciones[i].1
  {
    if !IsEmpty(inv) && inv.preferencias.None? {
      assert Get(Justificaciones, "general") == Some(Justificaciones[3].1);
    }
    var p := AnalizarPreferencias(descripcion);
    assert p.ocasion == Ocasion(Lower(descripcion));
    OcasionIsLabel(Lower(descripcion));
    LabelHasText(WithPreferencias(inv, p));
  }

  /** A non-empty slot whose occasion is one of the four labels gets that
      label's text. */
  lemma LabelHasText(inv: Investigation)
    requires !IsEmpty(inv) && inv.preferencias.Some?
    requires inv.preferencias.value.ocasion in {"romantica", "familiar", "negocio", "general"}
    ensures exists i ::
      0 <= i < |Justificaciones| && Justificaciones[i].0 == inv.preferencias.value.ocasion &&
      Justificacion(inv) == Justificaciones[i].1
  {
    var o := inv.preferencias.value.ocasion;
    var i := if o == "romantica" then 0 else if o == "familiar" then 1 else if o == "negocio" then 2 else 3;
    assert Justificaciones[i].0 == o;
  }

  /** The investigation of this system: without a knowledge base the three
      built-in snippets stand in for a search; with one, the retrieval
      decides. */
  function Investigate(hasVectorstore: bool, retrieval: Retrieval, consulta: string, inv: Investigation): (r: (Investigation, InvestigateReply))
    ensures !hasVectorstore ==> r == (Investigated(consulta, SimulatedInfo), InvestigationCompleted(3))
    ensures hasVectorstore ==> r == InvestigateRetrieved(retrieval, consulta, inv)
  {
    if !hasVectorstore then (Investigated(consulta, SimulatedInfo), InvestigationCompleted(|SimulatedInfo|))
    else InvestigateRetrieved(retrieval, consulta, inv)
  }

  /** One numbered line of the reply. */
  datatype NumberedRec = NumberedRec(n: nat, rec: string)

  /** The recommendations numbered from 1. */
  function Numbered(recs: seq<string>): (r: seq<NumberedRec>)
    ensures |r| == |recs|
    ensures forall i :: 0 <= i < |recs| ==> r[i] == NumberedRec(i + 1, recs[i])
  {
    seq(|recs|, i requires 0 <= i < |recs| => NumberedRec(i + 1, recs[i]))
  }

  /** The reply of process_complex_query: the numbered recommendations with
      the analysis and summary lines, or a request for more detail. */
  datatype ComplexReply =
    | Recommended(query: string, lines: seq<NumberedRec>, analisis: PrefsReply, resumen: SummaryReply)
    | NeedMoreDetail

  /** The payloads of the trace process_complex_query records. */
  datatype TraceData =
    | QueryMetadata(query: string, system: string)
    | Message(text: string)
    | InvestigationOutcome(investigation: InvestigateReply)
    | PreferencesOutcome(preferences: PrefsReply)
    | ReportOutcome(report: ReportReply)
    | QueryResult(response: ComplexReply, recommendationsCount: nat)

  const InvestigationStart: string := "Iniciando investigación con agente investigador"
  const PreferencesStart: string := "Iniciando análisis de preferencias"
  const ReportStart: string := "Iniciando generación de informe"
  const TraceName: string := "simple_multi_agent_query"
  const SystemName: string := "simple_multi_agent_mozo_virtual"
  const DefaultReportType: string := "recomendacion_completa"

  /** `f"Consulta recibida: {query[:50]}..."` */
  function QueryPreview(query: string): string {
    "Consulta recibida: " + (if |query| <= 50 then query else query[..50]) + "..."
  }

  /** The start and completion events of each step. */
  function InvestigationEvents(ir: InvestigateReply): seq<Event<TraceData>> {
    [Event("investigation_start", Message(InvestigationStart)), Event("investigation_complete", InvestigationOutcome(ir))]
  }

  function PreferencesEvents(pr: PrefsReply): seq<Event<TraceData>> {
    [Event("preferences_analysis_start", Message(PreferencesStart)), Event("preferences_analysis_complete", PreferencesOutcome(pr))]
  }

  function ReportEvents(rr: ReportReply): seq<Event<TraceData>> {
    [Event("report_generation_start", Message(ReportStart)), Event("report_generation_complete", ReportOutcome(rr))]
  }

  /** Everything process_complex_query does, as a value. */
  datatype ComplexRun = ComplexRun(
    investigation: Investigation,
    reports: seq<Report>,
    reply: ComplexReply,
    events: seq<Event<TraceData>>,
    recommendationsCount: nat)

  /** process_complex_query: investigate, analyse the same query, report,
      summarise, then reply from the recommendations now in the slot. */
  function ComplexQuery(hasVectorstore: bool, retrieval: Retrieval, query: string,
                        inv: Investigation, reports: seq<Report>): ComplexRun
  {
    var (inv1, ir) := Investigate(hasVectorstore, retrieval, query, inv);
    var p := AnalizarPreferencias(query);
    var inv2 := WithPreferencias(inv1, p);
    var pr := PreferencesAnalyzed(p.ocasion, p.presupuesto);
    var (reports3, rr) := GenerateReport(inv2, reports, DefaultReportType, Justificacion(inv2));
    var sr := Summary(inv2, reports3);
    var recs := inv2.recomendaciones.GetOr([]);
    var reply := if recs != [] then Recommended(query, Numbered(recs), pr, sr) else NeedMoreDetail;
    var events := [Event("query_received", Message(QueryPreview(query)))]
      + InvestigationEvents(ir) + PreferencesEvents(pr) + ReportEvents(rr);
    ComplexRun(inv2, reports3, reply, events, |recs|)
  }

  /** The run of process_complex_query from the outcomes of its steps. */
  lemma ComplexQueryUnfolds(hasVectorstore: bool, retrieval: Retrieval, query: string,
                            inv: Investigation, reports: seq<Report>,
                            ir: InvestigateReply, pr: PrefsReply, rr: ReportReply,
                            inv2: Investigation, reports3: seq<Report>, reply: ComplexReply)
    requires var (inv1, ir') := Investigate(hasVectorstore, retrieval, query, inv);
      ir == ir' && inv2 == WithPreferencias(inv1, AnalizarPreferencias(query))
    requires pr == PreferencesAnalyzed(AnalizarPreferencias(query).ocasion, AnalizarPreferencias(query).presupuesto)
    requires (reports3, rr) == GenerateReport(inv2, reports, DefaultReportType, Justificacion(inv2))
    requires var recs := inv2.recomendaciones.GetOr([]);
      reply == if recs != [] then Recommended(query, Numbered(recs), pr, Summary(inv2, reports3)) else NeedMoreDetail
    ensures ComplexQuery(hasVectorstore, retrieval, query, inv, reports) ==
      ComplexRun(inv2, reports3, reply,
                 [Event("query_received", Message(QueryPreview(query)))] + InvestigationEvents(ir) + PreferencesEvents(pr) + ReportEvents(rr),
                 |inv2.recomendaciones.GetOr([])|)
  {
  }

  /** Every complex query adds exactly one report, because the analysis step
      has made the slot non-empty by then. The report carries the query's
      preferences, the slot's recommendations and the justification of the
      slot; it names the query whenever the investigation completed. The
      summary counts that report's recommendations. */
  lemma ComplexQueryAlwaysReports(hasVectorstore: bool, retrieval: Retrieval, query: string,
                                  inv: Investigation, reports: seq<Report>)
    ensures var run := ComplexQuery(hasVectorstore, retrieval, query, inv, reports);
      && |run.reports| == |reports| + 1
      && run.reports[..|reports|] == reports
      && run.investigation.preferencias == Some(AnalizarPreferencias(query))
      && Last(run.reports).preferenciasDetectadas == Some(AnalizarPreferencias(query))
      && Last(run.reports).tipo == DefaultReportType
      && Last(run.reports).justificacion == Justificacion(run.investigation)
      && Last(run.reports).recomendaciones == run.investigation.recomendaciones.GetOr([])
    ensures Investigate(hasVectorstore, retrieval, query, inv).1.InvestigationCompleted? ==>
      Last(ComplexQuery(hasVectorstore, retrieval, query, inv, reports).reports).consultaOriginal == query
    ensures var run := ComplexQuery(hasVectorstore, retrieval, query, inv, reports);
      && (run.reply.Recommended? ==> run.reply.resumen == SummaryGenerated(run.recommendationsCount))
      && |run.events| == 7
  {
    var run := ComplexQuery(hasVectorstore, retrieval, query, inv, reports);
    assert run.reports[..|reports|] == reports;
  }

  /** The reply lists recommendations exactly when the slot holds some after
      the run, numbered 1..n; without a knowledge base they are the ones the
      query's keywords pick. */
  lemma ReplyListsSlotRecommendations(hasVectorstore: bool, retrieval: Retrieval, query: string,
                                      inv: Investigation, reports: seq<Report>)
    ensures var run := ComplexQuery(hasVectorstore, retrieval, query, inv, reports);
      var recs := run.investigation.recomendaciones.GetOr([]);
      && (run.reply.NeedMoreDetail? <==> recs == [])
      && (run.reply.Recommended? ==> run.reply.lines == Numbered(recs) && run.recommendationsCount == |recs|)
    ensures !hasVectorstore ==>
      ComplexQuery(hasVectorstore, retrieval, query, inv, reports).investigation.recomendaciones == Some(Recomendaciones(query))
  {
  }

  /** When the knowledge base returns nothing, the slot of the previous query
      survives, and the reply lists that query's recommendations. */
  lemma EmptyRetrievalRepeatsOldRecommendations(query: string, inv: Investigation, reports: seq<Report>)
    requires inv.recomendaciones.Some? && inv.recomendaciones.value != []
    ensures var run := ComplexQuery(true, Retrieved([]), query, inv, reports);
      && run.investigation.consulta == inv.consulta
      && run.reply.Recommended?
      && run.reply.lines == Numbered(inv.recomendaciones.value)
  {
  }

  class SimpleMultiAgentMozoVirtual {
    /** Whether a knowledge base was handed in. */
    const hasVectorstore: bool
    /** `self.current_investigation` */
    var currentInvestigation: Investigation
    /** `self.generated_reports` */
    var generatedReports: seq<Report>
    /** `self.observer` */
    const observer: LangSmithObserver<TraceData>

    /** A fresh system: empty slot, no reports, an observer with no traces. */
    constructor (hasVectorstore: bool, langchainApiKey: Option<string>, clientFails: bool)
      ensures this.hasVectorstore == hasVectorstore
      ensures IsEmpty(currentInvestigation) && generatedReports == []
      ensures fresh(observer) && observer.traces == []
    {
      this.hasVectorstore := hasVectorstore;
      currentInvestigation := EmptySlot;
      generatedReports := [];
      observer := new LangSmithObserver(langchainApiKey, clientFails);
    }

    /** investigar_plato_detallado */
    method InvestigarPlatoDetallado(consulta: string, retrieval: Retrieval) returns (r: InvestigateReply)
      modifies this
      ensures (currentInvestigation, r) == Investigate(hasVectorstore, retrieval, consulta, old(currentInvestigation))
      ensures generatedReports == old(generatedReports)
    {
      if !hasVectorstore {
        currentInvestigation := Investigated(consulta, SimulatedInfo);
        return InvestigationCompleted(|SimulatedInfo|);
      }
      match retrieval
      case RetrievalFailed(m) =>
        return InvestigationFailed(m);
      case Retrieved(docs) =>
        if docs == [] {
          return NothingFound(consulta);
        }
        var infos := CollectInfo(docs);
        currentInvestigation := Investigation(Some(consulta), Some(|docs|), Some(infos), Some(Recomendaciones(consulta)), None);
        return InvestigationCompleted(|docs|);
    }

    /** analizar_preferencias_cliente: write the preferences key only. */
    method AnalizarPreferenciasCliente(descripcion: string) returns (r: PrefsReply)
      modifies this
      ensures currentInvestigation == WithPreferencias(old(currentInvestigation), AnalizarPreferencias(descripcion))
      ensures r == PreferencesAnalyzed(AnalizarPreferencias(descripcion).ocasion, AnalizarPreferencias(descripcion).presupuesto)
      ensures generatedReports == old(generatedReports)
    {
      var p := AnalizarPreferencias(descripcion);
      currentInvestigation := currentInvestigation.(preferencias := Some(p));
      r := PreferencesAnalyzed(p.ocasion, p.presupuesto);
    }

    /** generar_informe_recomendacion */
    method GenerarInformeRecomendacion(tipo: string) returns (r: ReportReply)
      modifies this
      ensures (generatedReports, r) == GenerateReport(currentInvestigation, old(generatedReports), tipo, Justificacion(currentInvestigation))
      ensures currentInvestigation == old(currentInvestigation)
    {
      if IsEmpty(currentInvestigation) {
        return NoInvestigationData;
      }
      var informe := BuildReport(currentInvestigation, tipo, GenerarJustificacion());
      generatedReports := generatedReports + [informe];
      r := ReportGenerated(tipo, |informe.recomendaciones|);
    }

    /** generar_justificacion */
    function GenerarJustificacion(): string
      reads this
    {
      Justificacion(currentInvestigation)
    }

    /** generar_resumen_decision */
    function GenerarResumenDecision(): SummaryReply
      reads this
    {
      Summary(currentInvestigation, generatedReports)
    }

    /** process_complex_query: open a trace, run the four steps in order
      logging seven events, build the reply, and close the trace with it. */
    method ProcessComplexQuery(query: string, retrieval: Retrieval) returns (response: ComplexReply)
      modifies this, observer
      ensures var run := ComplexQuery(hasVectorstore, retrieval, query, old(currentInvestigation), old(generatedReports));
        && currentInvestigation == run.investigation
        && generatedReports == run.reports
        && response == run.reply
        && observer.traces == old(observer.traces) +
             [Trace(TraceName, Some(QueryMetadata(query, SystemName)), run.events, true,
                    Some(QueryResult(run.reply, run.recommendationsCount)))]
    {
      var t := observer.StartTrace(TraceName, Some(QueryMetadata(query, SystemName)));
      ghost var base := old(observer.traces);
      ghost var open := Trace(TraceName, Some(QueryMetadata(query, SystemName)), [], false, None);
      ghost var inv0, reports0 := currentInvestigation, generatedReports;
      var ir, pr, rr := RunPhases(query, retrieval, t, base, open);
      ghost var logged := [Event("query_received", Message(QueryPreview(query)))]
        + InvestigationEvents(ir) + PreferencesEvents(pr) + ReportEvents(rr);
      response := Respond(query, pr, t, base, open, logged);
      ComplexQueryUnfolds(hasVectorstore, retrieval, query, inv0, reports0,
                          ir, pr, rr, currentInvestigation, generatedReports, response);
    }

    /** Steps 1 to 3 of process_complex_query with their events, after the
        "query_received" event. */
    method RunPhases(query: string, retrieval: Retrieval, t: nat,
                     ghost base: seq<Trace<TraceData>>, ghost open: Trace<TraceData>)
      returns (ir: InvestigateReply, pr: PrefsReply, rr: ReportReply)
      requires t == |base| && open.events == [] && observer.traces == base + [open]
      modifies this, observer
      ensures var (inv1, ir') := Investigate(hasVectorstore, retrieval, query, old(currentInvestigation));
        ir == ir' && currentInvestigation == WithPreferencias(inv1, AnalizarPreferencias(query))
      ensures pr == PreferencesAnalyzed(AnalizarPreferencias(query).ocasion, AnalizarPreferencias(query).presupuesto)
      ensures (generatedReports, rr) == GenerateReport(currentInvestigation, old(generatedReports), DefaultReportType, Justificacion(currentInvestigation))
      ensures observer.traces == base + [open.(events := [Event("query_received", Message(QueryPreview(query)))]
                                           + InvestigationEvents(ir) + PreferencesEvents(pr) + ReportEvents(rr))]
    {
      var e1 := Event("query_received", Message(QueryPreview(query)));
      assert open.(events := []) == open;
      LogStep(t, base, open, [], e1);
      ghost var logged1 := [e1];
      assert [] + [e1] == logged1;
      var ir1 := InvestigationPhase(query, retrieval, t, base, open, logged1);
      ghost var logged2 := logged1 + InvestigationEvents(ir1);
      var pr1 := PreferencesPhase(query, t, base, open, logged2);
      ghost var logged3 := logged2 + PreferencesEvents(pr1);
      var rr1 := ReportPhase(t, base, open, logged3);
      ir, pr, rr := ir1, pr1, rr1;
    }

    /** Step 1, between its start and completion events. */
    method InvestigationPhase(query: string, retrieval: Retrieval, t: nat,
                              ghost base: seq<Trace<TraceData>>, ghost open: Trace<TraceData>, ghost logged: seq<Event<TraceData>>)
      returns (ir: InvestigateReply)
      requires t == |base| && observer.traces == base + [open.(events := logged)]
      modifies this, observer
      ensures (currentInvestigation, ir) == Investigate(hasVectorstore, retrieval, query, old(currentInvestigation))
      ensures generatedReports == old(generatedReports)
      ensures observer.traces == base + [open.(events := logged + InvestigationEvents(ir))]
    {
      var e2 := Event("investigation_start", Message(InvestigationStart));
      LogStep(t, base, open, logged, e2);
      ir := InvestigarPlatoDetallado(query, retrieval);
      LogStep(t, base, open, logged + [e2], Event("investigation_complete", InvestigationOutcome(ir)));
      assert logged + [e2] + [Event("investigation_complete", InvestigationOutcome(ir))] == logged + InvestigationEvents(ir);
    }

    /** Step 2, between its start and completion events. */
    method PreferencesPhase(query: string, t: nat,
                            ghost base: seq<Trace<TraceData>>, ghost open: Trace<TraceData>, ghost logged: seq<Event<TraceData>>)
      returns (pr: PrefsReply)
      requires t == |base| && observer.traces == base + [open.(events := logged)]
      modifies this, observer
      ensures currentInvestigation == WithPreferencias(old(currentInvestigation), AnalizarPreferencias(query))
      ensures pr == PreferencesAnalyzed(AnalizarPreferencias(query).ocasion, AnalizarPreferencias(query).presupuesto)
      ensures generatedReports == old(generatedReports)
      ensures observer.traces == base + [open.(events := logged + PreferencesEvents(pr))]
    {
      var e4 := Event("preferences_analysis_start", Message(PreferencesStart));
      LogStep(t, base, open, logged, e4);
      pr := AnalizarPreferenciasCliente(query);
      LogStep(t, base, open, logged + [e4], Event("preferences_analysis_complete", PreferencesOutcome(pr)));
      assert logged + [e4] + [Event("preferences_analysis_complete", PreferencesOutcome(pr))] == logged + PreferencesEvents(pr);
    }

    /** Step 3, between its start and completion events. */
    method ReportPhase(t: nat, ghost base: seq<Trace<TraceData>>, ghost open: Trace<TraceData>, ghost logged: seq<Event<TraceData>>)
      returns (rr: ReportReply)
      requires t == |base| && observer.traces == base + [open.(events := logged)]
      modifies this, observer
      ensures (generatedReports, rr) == GenerateReport(currentInvestigation, old(generatedReports), DefaultReportType, Justificacion(currentInvestigation))
      ensures currentInvestigation == old(currentInvestigation)
      ensures observer.traces == base + [open.(events := logged + ReportEvents(rr))]
    {
      var e6 := Event("report_generation_start", Message(ReportStart));
      LogStep(t, base, open, logged, e6);
      rr := GenerarInformeRecomendacion(DefaultReportType);
      LogStep(t, base, open, logged + [e6], Event("report_generation_complete", ReportOutcome(rr)));
      assert logged + [e6] + [Event("report_generation_complete", ReportOutcome(rr))] == logged + ReportEvents(rr);
    }

    /** The reply of process_complex_query, and the end_trace call that
        records it. */
    method Respond(query: string, pr: PrefsReply, t: nat,
                   ghost base: seq<Trace<TraceData>>, ghost open: Trace<TraceData>, ghost logged: seq<Event<TraceData>>)
      returns (response: ComplexReply)
      requires t == |base| && observer.traces == base + [open.(events := logged)]
      modifies observer
      ensures var recs := currentInvestigation.recomendaciones.GetOr([]);
        && response == (if recs != [] then Recommended(query, Numbered(recs), pr, Summary(currentInvestigation, generatedReports))
                        else NeedMoreDetail)
        && observer.traces == base + [open.(events := logged, ended := true, result := Some(QueryResult(response, |recs|)))]
    {
      var sr := GenerarResumenDecision();
      var recs := currentInvestigation.recomendaciones.GetOr([]);
      if recs != [] {
        var lines := NumberRecommendations(recs);
        response := Recommended(query, lines, pr, sr);
      } else {
        response := NeedMoreDetail;
      }
      observer.EndTrace(t, Some(QueryResult(response, |recs|)));
    }

    /** One log_event call into the open trace, the last one. */
    method LogStep(t: nat, ghost base: seq<Trace<TraceData>>, ghost open: Trace<TraceData>,
                   ghost logged: seq<Event<TraceData>>, e: Event<TraceData>)
      requires t == |base| && observer.traces == base + [open.(events := logged)]
      modifies observer
      ensures observer.traces == base + [open.(events := logged + [e])]
    {
      observer.LogEvent(t, e.eventType, e.data);
    }

    /** The numbering loop of the reply. */
    method NumberRecommendations(recs: seq<string>) returns (lines: seq<NumberedRec>)
      ensures lines == Numbered(recs)
    {
      lines := [];
      for i := 0 to |recs|
        invariant |lines| == i
        invariant forall j :: 0 <= j < i ==> lines[j] == NumberedRec(j + 1, recs[j])
      {
        lines := lines + [NumberedRec(i + 1, recs[i])];
      }
    }
  }
}
