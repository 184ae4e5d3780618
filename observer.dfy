/**
 * The trace log of `LangSmithObserver` (langsmith_observer.py): an
 * append-only list of traces, each with the events logged into it and the
 * result it was closed with. Updates through an index that is out of range
 * are ignored. The payload dictionaries are left abstract as the type
 * parameter `D`; clock readings (start and end times, durations) are not
 * modelled.
 */
module Observer {
  import opened Wrappers
  import Settings

  datatype Event<D> = Event(eventType: string, data: D)

  /** One trace. A missing metadata or result dictionary is `None`, which is
      what `metadata or {}` and `result or {}` store as `{}`. */
  datatype Trace<D> = Trace(name: string, metadata: Option<D>, events: seq<Event<D>>, ended: bool, result: Option<D>)

  /** What get_trace_summary reports of a trace (without its duration). */
  datatype TraceSummary<D> = TraceSummary(name: string, eventsCount: nat, metadata: Option<D>, result: Option<D>)

  /** The traces after log_event(index, ...): the event is appended to the
      indexed trace when the index is in range. */
  function Logged<D>(traces: seq<Trace<D>>, index: nat, e: Event<D>): seq<Trace<D>> {
    if index < |traces| then traces[index := traces[index].(events := traces[index].events + [e])]
    else traces
  }

  /** The traces after end_trace(index, result). */
  function Ended<D>(traces: seq<Trace<D>>, index: nat, result: Option<D>): seq<Trace<D>> {
    if index < |traces| then traces[index := traces[index].(ended := true, result := result)]
    else traces
  }

  /** get_trace_summary as a function of the trace list; `None` is the empty
      dictionary it returns for an index out of range. */
  function SummaryAt<D>(traces: seq<Trace<D>>, index: nat): (r: Option<TraceSummary<D>>)
    ensures r.Some? <==> index < |traces|
    ensures r.Some? ==> r.value.eventsCount == |traces[index].events|
    ensures r.Some? ==> r.value.name == traces[index].name && r.value.result == traces[index].result
  {
    if index >= |traces| then None
    else
      var t := traces[index];
      Some(TraceSummary(t.name, |t.events|, t.metadata, t.result))
  }

  /** Logging into trace `index` adds one event there and touches no other
      trace; an out-of-range index changes nothing. */
  lemma LogTouchesOnlyItsTrace<D>(traces: seq<Trace<D>>, index: nat, e: Event<D>)
    ensures |Logged(traces, index, e)| == |traces|
    ensures forall j :: 0 <= j < |traces| && j != index ==> Logged(traces, index, e)[j] == traces[j]
    ensures index < |traces| ==> Logged(traces, index, e)[index] == traces[index].(events := traces[index].events + [e])
    ensures index >= |traces| ==> Logged(traces, index, e) == traces
  {
  }

  /** Ending trace `index` records its result and touches no other trace. */
  lemma EndTouchesOnlyItsTrace<D>(traces: seq<Trace<D>>, index: nat, result: Option<D>)
    ensures |Ended(traces, index, result)| == |traces|
    ensures forall j :: 0 <= j < |traces| && j != index ==> Ended(traces, index, result)[j] == traces[j]
    ensures index < |traces| ==> Ended(traces, index, result)[index] == traces[index].(ended := true, result := result)
    ensures index >= |traces| ==> Ended(traces, index, result) == traces
  {
  }

  /** The events count of a summary grows by one with each logged event. */
  lemma {:induction false} SummaryCountsEvents<D>(traces: seq<Trace<D>>, index: nat, es: seq<Event<D>>)
    requires index < |traces|
    ensures SummaryAt(LogAll(traces, index, es), index).Some?
    ensures SummaryAt(LogAll(traces, index, es), index).value.eventsCount == |traces[index].events| + |es|
    ensures LogAll(traces, index, es)[index].events == traces[index].events + es
    decreases |es|
  {
    if es != [] {
      SummaryCountsEvents(Logged(traces, index, es[0]), index, es[1..]);
      assert traces[index].events + [es[0]] + es[1..] == traces[index].events + es;
    }
  }

  /** Several log_event calls into the same trace, in order. */
  function LogAll<D>(traces: seq<Trace<D>>, index: nat, es: seq<Event<D>>): (r: seq<Trace<D>>)
    ensures |r| == |traces|
    decreases |es|
  {
    if es == [] then traces else LogAll(Logged(traces, index, es[0]), index, es[1..])
  }

  /** The URL get_langsmith_url gives when the client was created. */
  const ProjectUrl: string := "https://smith.langchain.com/projects/proyecto-final-agentes"

  /** The text get_langsmith_url gives without a client. */
  const NotConfigured: string := "LangSmith no configurado"

  /** The observer has a client only when the LangSmith API key is set and
      creating the client did not raise. */
  function HasClient(apiKey: Option<string>, clientFails: bool): (r: bool)
    ensures r ==> apiKey.Some? && apiKey.value != ""
    ensures apiKey.Some? && apiKey.value != "" && !clientFails ==> r
  {
    match apiKey
    case None => false
    case Some(k) => k != "" && !clientFails
  }

  class LangSmithObserver<D> {
    /** Whether `self.client` is not None. */
    const hasClient: bool
    /** `self.traces_data` */
    var traces: seq<Trace<D>>

    /** A fresh observer: no traces yet. */
    constructor (apiKey: Option<string>, clientFails: bool)
      ensures hasClient == HasClient(apiKey, clientFails)
      ensures traces == []
    {
      hasClient := HasClient(apiKey, clientFails);
      traces := [];
    }

    /** start_trace: append a trace with no events and return its index. */
    method StartTrace(name: string, metadata: Option<D>) returns (index: nat)
      modifies this
      ensures traces == old(traces) + [Trace(name, metadata, [], false, None)]
      ensures index == |old(traces)| && index < |traces|
    {
      traces := traces + [Trace(name, metadata, [], false, None)];
      index := |traces| - 1;
    }

    /** log_event */
    method LogEvent(index: nat, eventType: string, data: D)
      modifies this
      ensures traces == Logged(old(traces), index, Event(eventType, data))
    {
      if index < |traces| {
        var t := traces[index];
        traces := traces[index := t.(events := t.events + [Event(eventType, data)])];
      }
    }

    /** end_trace */
    method EndTrace(index: nat, result: Option<D>)
      modifies this
      ensures traces == Ended(old(traces), index, result)
    {
      if index < |traces| {
        traces := traces[index := traces[index].(ended := true, result := result)];
      }
    }

    /** get_trace_summary */
    function GetTraceSummary(index: nat): Option<TraceSummary<D>>
      reads this
    {
      SummaryAt(traces, index)
    }

    /** get_all_traces_summary: one summary per trace, in index order. */
    function GetAllTracesSummary(): (r: seq<Option<TraceSummary<D>>>)
      reads this
      ensures |r| == |traces|
      ensures forall i :: 0 <= i < |r| ==> r[i].Some? && r[i] == SummaryAt(traces, i)
    {
      seq(|traces|, i requires 0 <= i < |traces| reads this => SummaryAt(traces, i))
    }

    /** get_langsmith_url */
    function GetLangsmithUrl(): (r: string)
      ensures hasClient <==> r == Settings.GetLangsmithUrl()
      ensures !hasClient ==> r == NotConfigured
    {
      ProjectUrlAgrees();
      if hasClient then ProjectUrl else NotConfigured
    }
  }

  /** The observer's project URL is the one the settings build. */
  lemma ProjectUrlAgrees()
    ensures ProjectUrl == Settings.GetLangsmithUrl()
    ensures NotConfigured != Settings.GetLangsmithUrl()
  {
    assert ProjectUrl == Settings.LangsmithPrefix + Settings.LangchainProject;
  }
}
