/**
 * The decision logic of `start_conversation` (src/agents/mozo_virtual_agent.py):
 * each turn is either an exit command, which the payment guard lets through
 * or refuses, or a query that one of the two agents answers, possibly calling
 * ledger tools, after which a farewell in the reply can end the session.
 * Console input and output, the language model and the persistence calls are
 * replaced by a script of turns: the query typed, whether the multi-agent
 * pipeline raised on it, whether the single agent's call raised, the ledger
 * tools the single agent called while answering (before raising, if it did),
 * and the reply given. The script running out stands for `input()` ending the
 * loop.
 */
module Conversation {
  import opened Wrappers
  import opened Text
  import opened Orders
  import opened TurnRules
  import opened MozoAgent

  /** One scripted turn. */
  datatype Turn = Turn(query: string, pipelineFails: bool, agentRaises: bool, tools: seq<Op>, reply: string)

  /** What happened in a turn: an exit refused for a pending amount, or an
      answer by one of the agents, saved or (on the farewell turn) not. */
  datatype TurnLog = ExitRefused(pendiente: int) | Answered(handler: Handler, saved: bool)

  /** How the session ended. A single-agent call that raises is outside any
      `try`, so it ends the loop whatever the ledger holds. */
  datatype Ending = CustomerLeft(decision: ExitDecision) | FarewellAfterPayment | AgentRaised | ScriptExhausted

  datatype SessionResult = SessionResult(ledger: LedgerState, log: seq<TurnLog>, ending: Ending)

  /** The agent that actually answers a routed query: a pipeline that raises
      falls back to the single agent. */
  function Answerer(t: Turn, routed: Handler): (h: Handler)
    ensures h == MultiAgent <==> routed == MultiAgent && !t.pipelineFails
  {
    if routed == MultiAgent && t.pipelineFails then SingleAgent else routed
  }

  /** The ledger after an answer: the multi-agent pipeline never calls ledger
      tools; the single agent calls the scripted ones in order. */
  function AfterAnswer(precios: Catalogue, st: LedgerState, t: Turn, h: Handler): LedgerState {
    if h == MultiAgent then st else Run(precios, st, t.tools)
  }

  /** The outcome of one turn: the new ledger, what was logged, and the
      ending if the session stops here. */
  datatype StepResult = StepResult(ledger: LedgerState, logged: seq<TurnLog>, stop: Option<Ending>)

  /** One turn from ledger `st`: an exit command is refused while an order
      is pending and otherwise ends the session; any other query is answered,
      a raising single-agent call ends the session with nothing logged, and
      the answer ends the session when the order is paid and the reply says
      goodbye, and is saved otherwise. */
  function TurnStep(precios: Catalogue, st: LedgerState, t: Turn, multiAgentReady: bool): StepResult {
    if IsExitCommand(t.query) then
      match ExitGuard(st)
      case MustPayFirst(p) => StepResult(st, [ExitRefused(p)], None)
      case d => StepResult(st, [], Some(CustomerLeft(d)))
    else
      var h := Answerer(t, RouteQuery(t.query, multiAgentReady));
      var st' := AfterAnswer(precios, st, t, h);
      if h == SingleAgent && t.agentRaises then StepResult(st', [], Some(AgentRaised))
      else if EndsAfterReply(st', t.reply) then StepResult(st', [Answered(h, false)], Some(FarewellAfterPayment))
      else StepResult(st', [Answered(h, true)], None)
  }

  /** The session result with `log` logged before it. */
  function Prepend(log: seq<TurnLog>, r: SessionResult): SessionResult {
    r.(log := log + r.log)
  }

  /** The whole session from ledger `st` over the remaining turns. */
  function Session(precios: Catalogue, st: LedgerState, turns: seq<Turn>, multiAgentReady: bool): SessionResult
    decreases |turns|
  {
    if turns == [] then SessionResult(st, [], ScriptExhausted)
    else
      var s := TurnStep(precios, st, turns[0], multiAgentReady);
      if s.stop.Some? then SessionResult(s.ledger, s.logged, s.stop.value)
      else Prepend(s.logged, Session(precios, s.ledger, turns[1..], multiAgentReady))
  }

  /** The customer leaves, or is bid farewell, only with an empty or paid
      order: a session with an unpaid order ends only by a raising agent call
      or by the input running out. */
  lemma {:induction false} NeverLeavesUnpaid(precios: Catalogue, st: LedgerState, turns: seq<Turn>, ready: bool)
    ensures var r := Session(precios, st, turns, ready);
      r.ending.CustomerLeft? || r.ending.FarewellAfterPayment? ==> r.ledger.pedido == [] || r.ledger.pagado
    ensures var r := Session(precios, st, turns, ready);
      r.ending.FarewellAfterPayment? ==> r.ledger.pedido != [] && r.ledger.pagado
    ensures var r := Session(precios, st, turns, ready);
      r.ending.CustomerLeft? ==> !r.ending.decision.MustPayFirst?
    decreases |turns|
  {
    if turns != [] {
      var t := turns[0];
      if IsExitCommand(t.query) {
        if ExitGuard(st).MustPayFirst? {
          NeverLeavesUnpaid(precios, st, turns[1..], ready);
        }
      } else {
        var st' := AfterAnswer(precios, st, t, Answerer(t, RouteQuery(t.query, ready)));
        if !EndsAfterReply(st', t.reply) {
          NeverLeavesUnpaid(precios, st', turns[1..], ready);
        }
      }
    }
  }

  /** Over a whole session the total stays the sum of the lines, and a paid
      order stays paid. */
  lemma {:induction false} SessionPreserves(precios: Catalogue, st: LedgerState, turns: seq<Turn>, ready: bool)
    ensures Consistent(st) ==> Consistent(Session(precios, st, turns, ready).ledger)
    ensures st.pagado ==> Session(precios, st, turns, ready).ledger.pagado
    decreases |turns|
  {
    if turns != [] {
      var t := turns[0];
      if !IsExitCommand(t.query) {
        var h := Answerer(t, RouteQuery(t.query, ready));
        RunPreserves(precios, st, t.tools);
        var st' := AfterAnswer(precios, st, t, h);
        if !EndsAfterReply(st', t.reply) {
          SessionPreserves(precios, st', turns[1..], ready);
        }
      } else if ExitGuard(st).MustPayFirst? {
        SessionPreserves(precios, st, turns[1..], ready);
      }
    }
  }

  /** Every answered turn is saved except the farewell turn, which is the
      last one logged; the log never has more entries than the script. */
  lemma {:induction false} OnlyFarewellSkipsSaving(precios: Catalogue, st: LedgerState, turns: seq<Turn>, ready: bool)
    ensures var r := Session(precios, st, turns, ready);
      && |r.log| <= |turns|
      && (forall i :: 0 <= i < |r.log| - 1 ==> r.log[i].ExitRefused? || r.log[i].saved)
      && (r.log != [] && r.log[|r.log| - 1].Answered? && !r.log[|r.log| - 1].saved <==>
          r.ending.FarewellAfterPayment?)
    decreases |turns|
  {
    if turns != [] {
      var s := TurnStep(precios, st, turns[0], ready);
      StepLogged(precios, st, turns[0], ready);
      if s.stop.None? {
        OnlyFarewellSkipsSaving(precios, s.ledger, turns[1..], ready);
        assert Session(precios, st, turns, ready) == Prepend(s.logged, Session(precios, s.ledger, turns[1..], ready));
      }
    }
  }

  /** One turn logs one entry, refused or saved, when the session goes on,
      and at most one when it stops; the entry left unsaved is the farewell. */
  lemma StepLogged(precios: Catalogue, st: LedgerState, t: Turn, ready: bool)
    ensures var s := TurnStep(precios, st, t, ready);
      && (s.stop.None? ==> |s.logged| == 1 && (s.logged[0].ExitRefused? || s.logged[0].saved))
      && (s.stop.Some? ==> |s.logged| <= 1)
      && (s.stop.Some? ==>
            (s.logged != [] && s.logged[0].Answered? && !s.logged[0].saved <==> s.stop.value.FarewellAfterPayment?))
  {
  }

  /** An exit refused for a pending order leaves the ledger untouched, so the
      next exit command is refused too unless a tool paid in between. */
  lemma RefusedExitRepeats(precios: Catalogue, st: LedgerState, ready: bool)
    requires st.pedido != [] && !st.pagado
    ensures Session(precios, st, [Turn("salir", false, false, [], ""), Turn("salir", false, false, [], "")], ready).log ==
      [ExitRefused(st.total), ExitRefused(st.total)]
    ensures Session(precios, st, [Turn("salir", false, false, [], ""), Turn("salir", false, false, [], "")], ready).ending == ScriptExhausted
  {
    assert Lower("salir") == "salir";
  }

  /** A single-agent call that adds a dish and then raises ends the session
      with that dish on an unpaid order and nothing logged. */
  lemma RaisingAgentLeavesOrderUnpaid(precios: Catalogue, item: string, e: OrderItem)
    requires Resolve(precios, item) == Some(e)
    ensures var r := Session(precios, Inicial, [Turn("una tabla", false, true, [AddOp(item, 1)], "")], false);
      && r.ending == AgentRaised
      && r.ledger == LedgerState([e], e.precio, false)
      && r.log == []
  {
    assert Lower("una tabla") == "una tabla";
    var ops := [AddOp(item, 1)];
    assert Repeat(e, 1) == [e];
    assert [] + [e] == [e];
    assert Apply(precios, Inicial, ops[0]) == LedgerState([e], e.precio, false);
    assert Run(precios, Inicial, ops) == Run(precios, LedgerState([e], e.precio, false), ops[1..]);
    assert ops[1..] == [];
  }

  /** Calls the scripted ledger tools on the agent, in order. */
  method RunTools(agent: MozoVirtualAgent, ops: seq<Op>)
    modifies agent
    ensures agent.State() == Run(agent.precios, old(agent.State()), ops)
  {
    var i := 0;
    while i < |ops|
      invariant 0 <= i <= |ops|
      invariant Run(agent.precios, old(agent.State()), ops) == Run(agent.precios, agent.State(), ops[i..])
    {
      var st := agent.State();
      match ops[i] {
        case AddOp(item, cantidad) =>
          var _ := agent.AgregarAlPedido(item, cantidad);
        case RemoveOp(numero) =>
          var _ := agent.EliminarDelPedido(numero);
        case PayOp =>
          var _ := agent.ProcesarPago();
        case ViewOp =>
          var _ := agent.VerPedidoActual();
        case StatusOp =>
          var _ := agent.VerificarEstadoPago();
      }
      assert agent.State() == Apply(agent.precios, st, ops[i]);
      assert ops[i..][1..] == ops[i + 1..];
      i := i + 1;
    }
  }

  /** Answers one query that is not an exit command: the router picks the
      agent, a failing pipeline hands the query to the single agent, and only
      the single agent calls the scripted ledger tools. */
  method AnswerQuery(agent: MozoVirtualAgent, t: Turn, multiAgentReady: bool) returns (h: Handler)
    modifies agent
    ensures h == Answerer(t, RouteQuery(t.query, multiAgentReady))
    ensures agent.State() == AfterAnswer(agent.precios, old(agent.State()), t, h)
  {
    h := RouteQuery(t.query, multiAgentReady);
    if h == MultiAgent && t.pipelineFails {
      h := SingleAgent;
    }
    if h == SingleAgent {
      RunTools(agent, t.tools);
    }
  }

  /** The body of the conversation loop for one turn. */
  method TakeTurn(agent: MozoVirtualAgent, t: Turn, multiAgentReady: bool)
    returns (logged: seq<TurnLog>, stop: Option<Ending>)
    modifies agent
    ensures StepResult(agent.State(), logged, stop) == TurnStep(agent.precios, old(agent.State()), t, multiAgentReady)
  {
    if IsExitCommand(t.query) {
      if agent.pedidoActual != [] && !agent.pagado {
        return [ExitRefused(agent.totalPedido)], None;
      }
      return [], Some(CustomerLeft(ExitGuard(agent.State())));
    }
    var h := AnswerQuery(agent, t, multiAgentReady);
    if h == SingleAgent && t.agentRaises {
      return [], Some(AgentRaised);
    }
    if agent.pagado && agent.pedidoActual != [] && ContainsAny(Lower(t.reply), FarewellWords) {
      return [Answered(h, false)], Some(FarewellAfterPayment);
    }
    return [Answered(h, true)], None;
  }

  /** One pass of the conversation loop keeps its invariant: the session
      from the first ledger is what was logged so far followed by the session
      from the current ledger over the turns not yet read. */
  lemma LoopStep(precios: Catalogue, st0: LedgerState, turns: seq<Turn>, ready: bool,
                 i: nat, log: seq<TurnLog>, st: LedgerState, s: StepResult)
    requires i < |turns|
    requires Session(precios, st0, turns, ready) == Prepend(log, Session(precios, st, turns[i..], ready))
    requires s == TurnStep(precios, st, turns[i], ready)
    ensures s.stop.Some? ==> Session(precios, st0, turns, ready) == SessionResult(s.ledger, log + s.logged, s.stop.value)
    ensures s.stop.None? ==>
      Session(precios, st0, turns, ready) == Prepend(log + s.logged, Session(precios, s.ledger, turns[i + 1..], ready))
  {
    assert turns[i..][0] == turns[i] && turns[i..][1..] == turns[i + 1..];
  }

  /** start_conversation: read turns until an exit is let through, a
      farewell ends the session, or the script runs out. */
  method StartConversation(agent: MozoVirtualAgent, turns: seq<Turn>, multiAgentReady: bool)
    returns (log: seq<TurnLog>, ending: Ending)
    modifies agent
    ensures SessionResult(agent.State(), log, ending) == Session(agent.precios, old(agent.State()), turns, multiAgentReady)
  {
    log := [];
    var i := 0;
    while i < |turns|
      invariant 0 <= i <= |turns|
      invariant Session(agent.precios, old(agent.State()), turns, multiAgentReady) ==
        Prepend(log, Session(agent.precios, agent.State(), turns[i..], multiAgentReady))
    {
      ghost var before := agent.State();
      var logged, stop := TakeTurn(agent, turns[i], multiAgentReady);
      LoopStep(agent.precios, old(agent.State()), turns, multiAgentReady, i, log, before, StepResult(agent.State(), logged, stop));
      log := log + logged;
      if stop.Some? {
        ending := stop.value;
        return;
      }
      i := i + 1;
    }
    ending := ScriptExhausted;
  }
}
