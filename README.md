# La Taberna del Río: the ledger, the turn rules and the recommendation pipeline

This project models the deterministic core of "Robino", the virtual waiter of
La Taberna del Río, and proves properties of that model in Dafny.

- **Order ledger** (`Orders`, `MozoAgent`). The agent keeps:
  - the order lines, in the order they were added;
  - a running total;
  - a paid flag.
  The five ledger tools are add, remove by 1-based line number, pay, view
  and payment status. Each is a function from the old ledger to the new ledger
  and the reply (module `Orders`). The class `MozoAgent.MozoVirtualAgent`
  runs the same tools in place and is proved to agree with those functions.
  Names resolve by a first-match scan over the ordered price catalogue. The
  test is substring containment in either direction, after lower-casing.
- **Turn rules** (`TurnRules`, `Conversation`):
  - the complex-query classifier;
  - the exit guard and the farewell check that ends a session after payment;
  - the drink-pairing cascade;
  - the dish-of-the-day lookup, with today's weekday as a parameter.

  `Conversation` replays the conversation loop over a script of turns. Its
  method is proved equal to a session function, and properties of whole
  sessions are proved about that function.
- **Investigate → report pipeline** (`Pipeline`, `SimpleMultiAgent`,
  `MultiAgentSystem`). Both multi-agent systems keep:
  - one investigation slot;
  - an append-only list of reports.

  `Pipeline` holds what they share: the recommendation cascade, snippet
  truncation, preference analysis, justification lookup and report building.
  - The simple system runs its four steps in a fixed order and records seven
    events in a trace.
  - The LangGraph system contributes:
    - its tool closures;
    - the Notion report as a block list;
    - the two routing predicates its graph follows after the investigator
      and after the generator;
    - `should_use_investigator`, a third predicate that the graph defines
      but never consults.
- **Trace log** (`Observer`): an append-only list of traces. Updates go
  through an index and are ignored when it is out of range.
- **Configuration** (`Settings`): the missing-key check and the two
  dashboard URLs.
- **Emoji clean-up script** (`FixEmojis`):
  - Python's `str.replace`;
  - the ordered replacement loop;
  - the success flag;
  - the filter that skips files that do not exist.

Python's `x in s` on strings is `Text.Contains`, and `str.lower()` is
`Text.Lower`. The language model, retrieval, Notion, files, the clock and
the console are inputs:
- whether a knowledge base or client exists;
- what retrieval returned;
- whether a call raised;
- the scripted turns and today's weekday.

## Model

| member | source | states |
|---|---|---|
| Text.Lower | src/agents/mozo_virtual_agent.py:429 | the model's lower-casing, which maps only ASCII capitals and Á É Í Ó Ú Ü Ñ, keeps the length and lower-cases each character on its own (Python's full case mapping can change the length; see Left out) |
| Text.LowerIdempotent | src/agents/mozo_virtual_agent.py:429 | lower-casing twice is lower-casing once |
| Text.LowerOccurs | src/agents/mozo_virtual_agent.py:822-831 | a text found in a string is still found, at the same place, after both are lower-cased |
| Text.FirstBucket | src/agents/mozo_virtual_agent.py:400-419 | an `if`/`elif` cascade over keyword groups picks the first group with a word in the text, and none exactly when no group has one |
| Orders.PreciosTruthy | src/agents/mozo_virtual_agent.py:63-103 | every entry of the shipped catalogue has a non-empty name and a non-zero price, so the truthiness test on a match never rejects it |
| Orders.FirstMatch | src/agents/mozo_virtual_agent.py:428-432 | the position found matches the request and no earlier entry does; there is no position exactly when no entry matches |
| Orders.Repeat | src/agents/mozo_virtual_agent.py:436-440 | the `range(cantidad)` loop yields `cantidad` copies of the line, or none when `cantidad` is not positive |
| Orders.View | src/agents/mozo_virtual_agent.py:448-462 | an empty order gives the empty answer; otherwise every line is listed, numbered from 1 in order of addition, with the total and the paid flag |
| Orders.Status | src/agents/mozo_virtual_agent.py:492-500 | no active order exactly when the order is empty, paid exactly when non-empty and paid, else pending with the current total |
| Orders.AddResolvesFirstMatch | src/agents/mozo_virtual_agent.py:428-445 | with a truthy catalogue, add succeeds exactly when some entry matches; the line added is the first matching entry in catalogue order, otherwise the error names the request |
| Orders.AddAppendsCopies | src/agents/mozo_virtual_agent.py:434-445 | a successful add appends exactly `cantidad` copies of the resolved line and raises the total by `cantidad` times its price; a failed add changes nothing |
| Orders.NonPositiveQuantityAddsNothing | src/agents/mozo_virtual_agent.py:434-443 | a quantity of zero or less leaves the ledger as it was, but the reply still reports success whenever the name resolves |
| Orders.EmptyNameMatchesFirst | src/agents/mozo_virtual_agent.py:428-432 | an empty name is contained in every key, so it resolves to the first catalogue entry, the cheese board at 18000 |
| Orders.AddItem | src/agents/mozo_virtual_agent.py:422-445 | the add tool on a ledger; its properties are stated by `AddResolvesFirstMatch`, `AddAppendsCopies`, `NonPositiveQuantityAddsNothing` and `AddKeepsConsistent` |
| Orders.Sum | src/agents/mozo_virtual_agent.py:436-441 | the sum of the line prices that the running total must equal; `SumRepeat` and `SumRemoveAt` state how adding and removing change it |
| Orders.SumRepeat | src/agents/mozo_virtual_agent.py:436-441 | the prices of `n` copies add up to `n` times the price (0 for non-positive `n`) |
| Orders.SumRemoveAt | src/agents/mozo_virtual_agent.py:474-475 | taking out line `i` lowers the sum of the prices by that line's price |
| Orders.AddKeepsConsistent | src/agents/mozo_virtual_agent.py:436-441 | adding keeps the total equal to the sum of the line prices |
| Orders.RemoveRejects | src/agents/mozo_virtual_agent.py:467-471 | removing from an empty order, or by a number outside 1..length, is an error that quotes the length and changes nothing |
| Orders.RemoveDeletesLine | src/agents/mozo_virtual_agent.py:474-477 | otherwise exactly line `numero` goes, the other lines keep their order, the total drops by its price and the paid flag is kept |
| Orders.RemoveKeepsConsistent | src/agents/mozo_virtual_agent.py:474-475 | removing keeps the total equal to the sum of the line prices |
| Orders.RemoveItem | src/agents/mozo_virtual_agent.py:465-477 | the remove tool on a ledger; its properties are stated by `RemoveRejects`, `RemoveDeletesLine` and `RemoveKeepsConsistent` |
| Orders.PayOutcomes | src/agents/mozo_virtual_agent.py:482-489 | paying an empty order is an error, paying a paid order says so, and otherwise only the paid flag is set; non-successful calls change nothing |
| Orders.PayIdempotent | src/agents/mozo_virtual_agent.py:485-486 | a second payment answers AlreadyPaid and leaves the ledger as the first left it |
| Orders.Pay | src/agents/mozo_virtual_agent.py:480-489 | the pay tool on a ledger; its outcomes are stated by `PayOutcomes` and `PayIdempotent` |
| Orders.Apply | src/agents/mozo_virtual_agent.py:421-500 | one ledger tool call; `ApplyPreserves` states the invariant it keeps |
| Orders.Run | src/agents/mozo_virtual_agent.py:421-500 | a sequence of tool calls in order; `RunPreserves` states the invariant it keeps |
| Orders.ApplyPreserves | src/agents/mozo_virtual_agent.py:421-500 | no ledger tool clears the paid flag, only a payment of a non-empty order sets it, and every tool keeps total = sum of prices |
| Orders.RunPreserves | src/agents/mozo_virtual_agent.py:421-500 | over any sequence of tool calls the total stays the sum of the prices and a paid order stays paid |
| Orders.AddTwoRemoveOnePay | src/agents/mozo_virtual_agent.py:422-489 | adding two of a dish, removing line 1 and paying leaves one paid line whose price is the total |
| Orders.CheeseBoardScenario | src/agents/mozo_virtual_agent.py:422-489 | the same session on the real menu with the request "TABLA": 36000 after adding, 18000 after removing, then paid |
| Orders.CheeseBoardResolves | src/agents/mozo_virtual_agent.py:428-434 | the request "TABLA" resolves to the first catalogue entry |
| Orders.CheeseBoardMatchesFirst | src/agents/mozo_virtual_agent.py:429 | the lower-cased first key contains the lower-cased "TABLA" |
| MozoAgent.MozoVirtualAgent.constructor | src/agents/mozo_virtual_agent.py:59-103 | a new agent has the shipped catalogue, no lines, a zero total and is unpaid |
| MozoAgent.MozoVirtualAgent.BuscarItem | src/agents/mozo_virtual_agent.py:428-434 | the scan loop returns the line `Resolve` specifies: the first matching entry, when it is truthy |
| MozoAgent.MozoVirtualAgent.AgregarAlPedido | src/agents/mozo_virtual_agent.py:422-445 | the new ledger and the reply are those of `Orders.AddItem` on the old ledger, and total = sum of prices is kept |
| MozoAgent.MozoVirtualAgent.AppendCopies | src/agents/mozo_virtual_agent.py:436-441 | the loop appends `Repeat(e, cantidad)` and adds `Times(cantidad)` times the price, leaving the paid flag alone |
| MozoAgent.MozoVirtualAgent.EliminarDelPedido | src/agents/mozo_virtual_agent.py:465-477 | the new ledger and the reply are those of `Orders.RemoveItem`, and total = sum of prices is kept |
| MozoAgent.MozoVirtualAgent.ProcesarPago | src/agents/mozo_virtual_agent.py:480-489 | the new ledger and the reply are those of `Orders.Pay` |
| MozoAgent.MozoVirtualAgent.VerPedidoActual | src/agents/mozo_virtual_agent.py:448-462 | the numbering loop yields `Orders.View` of the current ledger |
| MozoAgent.MozoVirtualAgent.VerificarEstadoPago | src/agents/mozo_virtual_agent.py:492-500 | the answer is `Orders.Status` of the current ledger |
| TurnRules.RouteQuery | src/agents/mozo_virtual_agent.py:861-877 | a query goes to the multi-agent system exactly when it is complex and that system was set up |
| TurnRules.IsComplexQuery | src/agents/mozo_virtual_agent.py:822-831 | the classifier; `ComplexQueryIgnoresCase`, `KeywordMakesComplex` and `ShortQueryIsRoutine` state what it accepts |
| TurnRules.ComplexQueryIgnoresCase | src/agents/mozo_virtual_agent.py:822-831 | a query and its lower-cased form are classified alike |
| TurnRules.KeywordMakesComplex | src/agents/mozo_virtual_agent.py:822-831 | a keyword written in any mix of capitals anywhere in the query makes it complex |
| TurnRules.ShortQueryIsRoutine | src/agents/mozo_virtual_agent.py:824-829 | every keyword has at least six characters, so a shorter query is routine |
| TurnRules.HolaIsRoutine | src/agents/mozo_virtual_agent.py:822-831 | "Hola" is routine |
| TurnRules.CenaEspecialIsComplex | src/agents/mozo_virtual_agent.py:822-831 | "¿Qué me recomiendas para una cena especial?" is complex |
| TurnRules.NoSeQuePedirIsComplex | src/agents/mozo_virtual_agent.py:822-831 | "No sé qué pedir, ayuda" is complex |
| TurnRules.CuantoCuestaIsRoutine | src/agents/mozo_virtual_agent.py:822-831 | "¿Cuánto cuesta la paella?" is routine |
| TurnRules.RomanticoIsRoutine | src/agents/mozo_virtual_agent.py:822-831 | "Quiero algo romántico" is routine: "romántico" does not contain the keyword "romántica" |
| TurnRules.RomanticoMissesTwo | src/agents/mozo_virtual_agent.py:827 | neither "romántica" nor "negocio" occurs in "quiero algo romántico" |
| TurnRules.ExitBlockedIffPending | src/agents/mozo_virtual_agent.py:845-855 | an exit is refused exactly when the status tool reports a pending payment, quoting the same amount; it leaves after an order exactly when paid, and without one exactly when the order is empty |
| TurnRules.PayingUnblocksExit | src/agents/mozo_virtual_agent.py:845-855 | after paying a non-empty order an exit command is no longer refused |
| TurnRules.AddAfterPayingLeavesUnpaid | src/agents/mozo_virtual_agent.py:434-441 | the paid flag is never reset, so lines added after paying leave the order paid and the exit open |
| TurnRules.IsExitCommand | src/agents/mozo_virtual_agent.py:845 | the whole lower-cased query is compared with the exit words; `ExitCommandExamples` states examples both ways |
| TurnRules.ExitGuard | src/agents/mozo_virtual_agent.py:845-855 | the exit decision; `ExitBlockedIffPending` and `PayingUnblocksExit` state when it refuses |
| TurnRules.ExitCommandExamples | src/agents/mozo_virtual_agent.py:845 | "SALIR", "Exit" and "quit" are exit commands; "salir ya" and "adiós" are not, since the whole query is compared |
| TurnRules.FarewellOnlyWhenExitAllowed | src/agents/mozo_virtual_agent.py:880-888 | a reply ends the session only when an exit command would be let through with an order |
| TurnRules.FarewellNeedsAllThree | src/agents/mozo_virtual_agent.py:880-888 | an unpaid order, an empty order or a reply with no farewell word each keep the session going |
| TurnRules.EndsAfterReply | src/agents/mozo_virtual_agent.py:880-884 | the farewell check; `FarewellOnlyWhenExitAllowed`, `FarewellNeedsAllThree` and `PaymentReplyIsFarewell` state when it holds |
| TurnRules.PaymentReplyIsFarewell | src/agents/mozo_virtual_agent.py:883-884 | once a non-empty order is paid, "¡Gracias por tu visita!" ends the session |
| TurnRules.RecomendarBebida | src/agents/mozo_virtual_agent.py:400-419 | the apology, naming the dish, comes exactly when no group matches; otherwise the advice is that of a group the dish hits, and the dish hits no earlier group |
| TurnRules.PairingFollowsCascade | src/agents/mozo_virtual_agent.py:403-416 | a dish hitting group `k` and no earlier group gets group `k`'s advice, whatever later groups it hits |
| TurnRules.SolomilloGetsRioja | src/agents/mozo_virtual_agent.py:403-404 | "Solomillo con pulpo" gets the Rioja: meat is tried before seafood |
| TurnRules.SushiGetsNoAdvice | src/agents/mozo_virtual_agent.py:418-419 | "Sushi" hits no group and gets the apology naming it |
| TurnRules.NextPrevInverse | src/agents/mozo_virtual_agent.py:357-364 | the day after the day before (and the reverse) is the same day |
| TurnRules.FromSpanish | src/agents/mozo_virtual_agent.py:332-340 | a Spanish key resolves to the day it names, and nothing else resolves |
| TurnRules.FromEnglish | src/agents/mozo_virtual_agent.py:368-370 | an English day name resolves to the day it names, and nothing else resolves |
| TurnRules.ObtenerPlatoDelDia | src/agents/mozo_virtual_agent.py:352-384 | with the request lower-cased: a today, tomorrow or yesterday word gives today, the next or the previous day with its own context; a Spanish key or English name gives the day it names; anything else gives today; the latter two are introduced as a named day, and the name shown and the special are those of the chosen day |
| TurnRules.DiaBuscado | src/agents/mozo_virtual_agent.py:353-370 | the day a lower-cased word picks; `DayLookup` states its meaning |
| TurnRules.DayLookup | src/agents/mozo_virtual_agent.py:352-370 | the relative words pick today, tomorrow and yesterday; every Spanish key and English name picks the day it names; any other word leaves today; each with the context the source gives it |
| TurnRules.RelativeDays | src/agents/mozo_virtual_agent.py:355-364 | "Mañana" gives tomorrow, "AYER" yesterday and "hoy" today, each with its own context |
| TurnRules.RelativeWordsResolve | src/agents/mozo_virtual_agent.py:355-364 | the lower-case relative words pick today, tomorrow and yesterday |
| TurnRules.RelativeWordsLower | src/agents/mozo_virtual_agent.py:355-364 | lower-casing "Mañana" and "AYER" gives the words the lookup lists |
| TurnRules.TomorrowThenYesterday | src/agents/mozo_virtual_agent.py:357-364 | asking for yesterday's special tomorrow gives the dish that asking for today's gives today |
| TurnRules.SpanishNamesLower | src/agents/mozo_virtual_agent.py:321-340 | each Spanish day name shown lower-cases to the key the lookup accepts |
| TurnRules.EnglishNamesLower | src/agents/mozo_virtual_agent.py:368 | the English day names are already lower-case |
| TurnRules.SpanishKeyResolves | src/agents/mozo_virtual_agent.py:365-367 | a Spanish key picks its day, introduced as a named day |
| TurnRules.EnglishNameResolves | src/agents/mozo_virtual_agent.py:368-370 | an English name picks its day, introduced as a named day |
| TurnRules.SpanishNamesResolve | src/agents/mozo_virtual_agent.py:365-384 | asking by the capitalised Spanish name gives that day's special, whatever today is |
| TurnRules.EnglishNamesResolve | src/agents/mozo_virtual_agent.py:368-384 | asking by the English name gives that day's special, whatever today is |
| TurnRules.UnknownRequestGivesToday | src/agents/mozo_virtual_agent.py:352-384 | an unrecognised request gives today's special, introduced as if a day had been named |
| TurnRules.UnknownWordGivesToday | src/agents/mozo_virtual_agent.py:353-370 | a lower-case word outside every list leaves the day at today |
| Conversation.Answerer | src/agents/mozo_virtual_agent.py:861-877 | the multi-agent system answers exactly when the query was routed to it and did not raise; otherwise the single agent answers |
| Conversation.NeverLeavesUnpaid | src/agents/mozo_virtual_agent.py:843-888 | the customer leaves, or is bid farewell, only with an empty or paid order, and a farewell needs a paid non-empty one; a non-empty unpaid order ends a session only by a raising single-agent call or the input running out |
| Conversation.RaisingAgentLeavesOrderUnpaid | src/agents/mozo_virtual_agent.py:861-877 | a single-agent call that adds a dish and then raises ends the session with that dish on an unpaid order and nothing saved |
| Conversation.TurnStep | src/agents/mozo_virtual_agent.py:844-906 | one pass of the loop; `LoopStep` and `NeverLeavesUnpaid` state what it does to a session |
| Conversation.Session | src/agents/mozo_virtual_agent.py:843-906 | the whole loop over the turns; `NeverLeavesUnpaid`, `SessionPreserves` and `OnlyFarewellSkipsSaving` state its properties |
| Conversation.SessionPreserves | src/agents/mozo_virtual_agent.py:843-906 | over a whole session the total stays the sum of the prices and a paid order stays paid |
| Conversation.OnlyFarewellSkipsSaving | src/agents/mozo_virtual_agent.py:880-906 | every answered turn is saved except the farewell turn, which is the last one logged; the log has at most one entry per turn |
| Conversation.StepLogged | src/agents/mozo_virtual_agent.py:844-906 | a pass that goes on logs exactly one entry, a refused exit or a saved answer; a pass that stops logs at most one, left unsaved exactly on a farewell |
| Conversation.RefusedExitRepeats | src/agents/mozo_virtual_agent.py:845-849 | with an unpaid order, two "salir" in a row are both refused with the same amount and the session goes on |
| Conversation.RunTools | src/agents/mozo_virtual_agent.py:870-877 | calling the scripted tools on the agent leaves it in the ledger `Orders.Run` computes |
| Conversation.AnswerQuery | src/agents/mozo_virtual_agent.py:861-877 | the agent that answers is `Answerer` of the route, and only the single agent changes the ledger |
| Conversation.TakeTurn | src/agents/mozo_virtual_agent.py:844-906 | one pass of the loop produces the ledger, log entries and ending that `TurnStep` gives, stopping with nothing saved when the single agent raises |
| Conversation.LoopStep | src/agents/mozo_virtual_agent.py:843-906 | one pass keeps the loop invariant: the session so far plus the session over the remaining turns is the whole session |
| Conversation.StartConversation | src/agents/mozo_virtual_agent.py:833-906 | the loop's final ledger, log and ending are those of `Session` over the script; a raising single-agent call (870, 875) stops it, as the exception leaves the loop |
| Settings.MissingMembers | config/settings.py:54-57 | a key is reported exactly when it is required and unset or empty, and no more keys are reported than were checked |
| Settings.Missing | config/settings.py:54-57 | the keys collected by the check; `MissingMembers` states which |
| Settings.CollectMissing | config/settings.py:54-57 | the loop collects `Missing`, in the order of the required keys |
| Settings.ValidateConfig | config/settings.py:45-62 | the result is True exactly when no key is missing; otherwise the error message lists the missing keys |
| Settings.ValidIffAllSet | config/settings.py:48-62 | the configuration is valid exactly when GEMINI, NOTION and LANGCHAIN keys are all set and non-empty |
| Settings.EmptyValuesAreMissing | config/settings.py:56 | with all three keys set to "" all three are reported, in the fixed order |
| Settings.OnlyNotionMissing | config/settings.py:48-57 | with only the Notion key unset, exactly that key is reported |
| Settings.JoinNamesEveryKey | config/settings.py:60 | every key given to `', '.join` appears in the joined text |
| Settings.MessageNamesMissingKeys | config/settings.py:60 | the raised message names every missing key |
| Settings.MissingKeysMessage | config/settings.py:59-60 | the error text; `MessageNamesMissingKeys` states that it names every missing key |
| Settings.UrlFor | config/settings.py:64-72 | a URL is as long as its prefix and the name together |
| Settings.StripPrefix | config/settings.py:64-72 | a URL is stripped exactly when it starts with the prefix, and the prefix plus the rest gives the URL back |
| Settings.UrlRoundTrip | config/settings.py:64-72 | the name put into a URL can be read back from it |
| Settings.GetLangsmithUrl | config/settings.py:64-67 | the LangSmith URL is the projects prefix followed by the project name |
| Settings.GetNotionUrl | config/settings.py:69-72 | the Notion URL is the notion.so prefix followed by the database id |
| Observer.SummaryAt | langsmith_observer.py:95-107 | a summary exists exactly for an index in range, and counts that trace's events and carries its name and result |
| Observer.LogTouchesOnlyItsTrace | langsmith_observer.py:70-79 | logging appends one event to the indexed trace, keeping its name, metadata, ended flag and result, and touches no other trace; an out-of-range index changes nothing |
| Observer.EndTouchesOnlyItsTrace | langsmith_observer.py:81-85 | ending a trace marks it ended and records the result, keeping its name, metadata and events, and touches no other trace; an out-of-range index changes nothing |
| Observer.SummaryCountsEvents | langsmith_observer.py:70-107 | after `n` events logged into a trace, its summary counts `n` more events, which follow the earlier ones in order |
| Observer.HasClient | langsmith_observer.py:40-52 | a client exists only with a non-empty API key, and always then unless creating it raised |
| Observer.LangSmithObserver.constructor | langsmith_observer.py:25-29 | a new observer has no traces |
| Observer.LangSmithObserver.StartTrace | langsmith_observer.py:58-68 | one trace with no events is appended and its index, the old length, is returned |
| Observer.LangSmithObserver.LogEvent | langsmith_observer.py:70-79 | the traces become `Logged` of the old ones: one event is appended to the indexed trace and nothing else changes (`LogTouchesOnlyItsTrace`) |
| Observer.LangSmithObserver.EndTrace | langsmith_observer.py:81-85 | the traces become `Ended` of the old ones: the indexed trace is closed with the result and nothing else changes (`EndTouchesOnlyItsTrace`) |
| Observer.LangSmithObserver.GetAllTracesSummary | langsmith_observer.py:109-111 | one summary per trace, in index order, each present |
| Observer.LangSmithObserver.GetTraceSummary | langsmith_observer.py:95-107 | the summary of one trace; `SummaryAt` states when it exists and what it counts |
| Observer.LangSmithObserver.GetLangsmithUrl | langsmith_observer.py:139-143 | the project URL exactly when a client exists, otherwise "LangSmith no configurado" |
| Observer.ProjectUrlAgrees | langsmith_observer.py:139-143 | the observer's project URL is the one the settings build |
| Pipeline.Truncate | src/agents/simple_multi_agent.py:105 | a snippet of at most 500 characters is kept; a longer one keeps its first 500 characters and ends in "..." |
| Pipeline.TruncateIdempotent | src/agents/simple_multi_agent.py:105 | truncating twice is truncating once |
| Pipeline.Recomendaciones | src/agents/simple_multi_agent.py:112-130 | there are no recommendations exactly when the query hits no keyword group, and three otherwise |
| Pipeline.RecommendationsFollowCascade | src/agents/simple_multi_agent.py:112-130 | the first group the lower-cased query hits decides the three recommendations |
| Pipeline.Investigated | src/agents/simple_multi_agent.py:96-132 | a completed investigation replaces the slot: it records the query, the collected entries, their count and the query's recommendations, and drops earlier preferences |
| Pipeline.InvestigateRetrieved | src/agents/simple_multi_agent.py:86-133 | only a retrieval with documents completes and replaces the slot; no documents or a raising retriever keep the old slot |
| Pipeline.Map | src/agents/simple_multi_agent.py:103-107 | one entry per document, in order, truncated and with "desconocida" for a missing source |
| Pipeline.CollectInfo | src/agents/simple_multi_agent.py:103-107 | the loop builds `Map` of the documents |
| Pipeline.TipoComida | src/agents/simple_multi_agent.py:150-155 | each food label is present exactly when one of its words occurs, only the three labels carnes, pescados_mariscos, vegetariano occur, and they come in that order |
| Pipeline.Ocasion | src/agents/simple_multi_agent.py:157-163 | the first group hit decides: "romantica" exactly when the romantic group is hit, "familiar" exactly when the family group is hit and the romantic one is not, "negocio" exactly when only the business group of the three is hit, "general" exactly when none is |
| Pipeline.Presupuesto | src/agents/simple_multi_agent.py:165-169 | "bajo" exactly when a cheap word occurs, "alto" exactly when no cheap but a luxury word occurs, else "medio" |
| Pipeline.OcasionIsLabel | src/agents/simple_multi_agent.py:139-163 | the occasion is one of romantica, familiar, negocio, general |
| Pipeline.AnalizarPreferencias | src/agents/simple_multi_agent.py:135-169 | the three analyses together; `TipoComida`, `Ocasion`, `Presupuesto` and `EspecialIsRomanticAndHigh` state them |
| Pipeline.WithPreferencias | src/agents/simple_multi_agent.py:171 | analysis writes the preferences key and nothing else, and leaves the slot non-empty |
| Pipeline.EspecialIsRomanticAndHigh | src/agents/simple_multi_agent.py:158-169 | "especial" without a cheap word gives a romantic occasion and a high budget |
| Pipeline.Get | src/agents/simple_multi_agent.py:219 | a key found has that entry in the table; a key not found has none |
| Pipeline.Justify | src/agents/simple_multi_agent.py:204-219 | the occasion's text, or the general one; `JustificationByOccasion` in both systems states which |
| Pipeline.BuildReport | src/agents/simple_multi_agent.py:184-196 | the report copies the slot's query, document count, preferences and recommendations, with their count; missing keys default to "N/A", 0 and none; the type and the justification are those given |
| Pipeline.IsEmpty | src/agents/simple_multi_agent.py:180-181 | Python's falsiness of the slot dictionary; `GenerateReport` and `AnalysisUnlocksReport` state its effect |
| Pipeline.GenerateReport | src/agents/simple_multi_agent.py:180-199 | an empty slot appends nothing and says so; otherwise exactly one report is appended and its recommendation count is answered |
| Pipeline.AnalysisUnlocksReport | src/agents/simple_multi_agent.py:171-199 | after preference analysis a report is always appended, even from an empty slot, with "N/A", 0 documents and no recommendations |
| Pipeline.Summary | src/agents/simple_multi_agent.py:224-238 | a summary is given exactly when the slot and the report list are both non-empty, counting the last report's recommendations |
| SimpleMultiAgent.JustificationByOccasion | src/agents/simple_multi_agent.py:204-219 | an empty slot gets the fixed "no data" text, a slot without preferences the general text, and every analysed occasion its own entry |
| SimpleMultiAgent.LabelHasText | src/agents/simple_multi_agent.py:204-219 | a non-empty slot whose occasion is one of the four labels gets that label's own entry |
| SimpleMultiAgent.Justificacion | src/agents/simple_multi_agent.py:204-219 | the simple system's justification, with its empty-slot guard; `JustificationByOccasion` states it |
| SimpleMultiAgent.Investigate | src/agents/simple_multi_agent.py:65-133 | without a knowledge base the three built-in snippets complete the investigation; with one, the retrieval decides as in `InvestigateRetrieved` |
| SimpleMultiAgent.Numbered | src/agents/simple_multi_agent.py:316-317 | the recommendations numbered from 1, one line each, in order |
| SimpleMultiAgent.ComplexQuery | src/agents/simple_multi_agent.py:243-338 | the whole complex query as a function of the inputs; `ComplexQueryAlwaysReports`, `ReplyListsSlotRecommendations` and `EmptyRetrievalRepeatsOldRecommendations` state its properties |
| SimpleMultiAgent.ComplexQueryAlwaysReports | src/agents/simple_multi_agent.py:269-327 | every complex query appends exactly one report after the old ones; it carries the query's preferences, the default type, the slot's justification and recommendations, and the query itself whenever the investigation completed; seven events are logged |
| SimpleMultiAgent.ReplyListsSlotRecommendations | src/agents/simple_multi_agent.py:307-327 | the reply lists the slot's recommendations numbered 1..n exactly when there are some; without a knowledge base they are those the query's keywords pick |
| SimpleMultiAgent.EmptyRetrievalRepeatsOldRecommendations | src/agents/simple_multi_agent.py:92-93 | when retrieval finds nothing the previous query's slot survives, and the reply lists its recommendations |
| SimpleMultiAgent.SimpleMultiAgentMozoVirtual.constructor | src/agents/simple_multi_agent.py:30-39 | a new system has an empty slot, no reports and an observer with no traces |
| SimpleMultiAgent.SimpleMultiAgentMozoVirtual.InvestigarPlatoDetallado | src/agents/simple_multi_agent.py:63-133 | the new slot and the answer are those of `Investigate`; the reports are untouched |
| SimpleMultiAgent.SimpleMultiAgentMozoVirtual.AnalizarPreferenciasCliente | src/agents/simple_multi_agent.py:135-172 | the slot gets the analysed preferences and nothing else changes |
| SimpleMultiAgent.SimpleMultiAgentMozoVirtual.GenerarInformeRecomendacion | src/agents/simple_multi_agent.py:177-199 | the reports and the answer are those of `GenerateReport` with this system's justification |
| SimpleMultiAgent.SimpleMultiAgentMozoVirtual.ProcessComplexQuery | src/agents/simple_multi_agent.py:243-340 | the slot, the reports and the reply are those of `ComplexQuery`; exactly one closed trace with its seven events and the result is appended |
| SimpleMultiAgent.SimpleMultiAgentMozoVirtual.RunPhases | src/agents/simple_multi_agent.py:256-302 | the three steps investigate, add the query's preferences and report in that order, and log "query_received" followed by their six events |
| SimpleMultiAgent.SimpleMultiAgentMozoVirtual.InvestigationPhase | src/agents/simple_multi_agent.py:263-274 | step 1 updates the slot as `Investigate` does and logs its start and completion events |
| SimpleMultiAgent.SimpleMultiAgentMozoVirtual.PreferencesPhase | src/agents/simple_multi_agent.py:277-288 | step 2 adds the query's preferences to the slot and logs its two events |
| SimpleMultiAgent.SimpleMultiAgentMozoVirtual.ReportPhase | src/agents/simple_multi_agent.py:291-302 | step 3 appends as `GenerateReport` does and logs its two events |
| SimpleMultiAgent.SimpleMultiAgentMozoVirtual.Respond | src/agents/simple_multi_agent.py:305-338 | the reply lists the slot's recommendations or asks for detail, and the trace is closed with it and the count |
| SimpleMultiAgent.SimpleMultiAgentMozoVirtual.LogStep | src/agents/simple_multi_agent.py:256-260 | one event is appended to the open trace |
| SimpleMultiAgent.SimpleMultiAgentMozoVirtual.NumberRecommendations | src/agents/simple_multi_agent.py:316-317 | the numbering loop yields `Numbered` |
| SimpleMultiAgent.SimpleMultiAgentMozoVirtual.GenerarJustificacion | src/agents/simple_multi_agent.py:204-219 | `Justificacion` of the current slot; `JustificationByOccasion` states it |
| SimpleMultiAgent.SimpleMultiAgentMozoVirtual.GenerarResumenDecision | src/agents/simple_multi_agent.py:221-241 | `Summary` of the current slot and reports; `Pipeline.Summary` states when a summary is given |
| MultiAgentSystem.Investigate | src/agents/multi_agent_system.py:121-172 | without a knowledge base the slot is untouched and the answer says none is available; with one, the retrieval decides |
| MultiAgentSystem.OnlySuccessOverwrites | src/agents/multi_agent_system.py:123-168 | only a retrieval with documents completes; then the slot holds the query's recommendations, the documents' entries and no preferences; otherwise it is untouched |
| MultiAgentSystem.JustificationByOcasion | src/agents/multi_agent_system.py:372-384 | with no empty-slot guard, a slot without preferences gets the general text and every analysed occasion its own entry |
| MultiAgentSystem.LabelHasText | src/agents/multi_agent_system.py:372-384 | a slot whose occasion is one of the four labels gets that label's own entry |
| MultiAgentSystem.Justificacion | src/agents/multi_agent_system.py:372-384 | this system's justification, without the empty-slot guard; `JustificationByOcasion` states it |
| MultiAgentSystem.Blocks | src/agents/multi_agent_system.py:266-312 | 5 + n blocks: the four header blocks, one bullet per recommendation numbered from 1, then the justification |
| MultiAgentSystem.BulletsListRecommendations | src/agents/multi_agent_system.py:296-303 | the bullets are exactly blocks 4..4+n, and reading them back gives the recommendations in order |
| MultiAgentSystem.Save | src/agents/multi_agent_system.py:253-329 | with no reports or no client nothing is saved anywhere; otherwise the last report is saved locally, and its blocks reach the page exactly when the Notion call does not raise |
| MultiAgentSystem.LocalCopyWithClientOnly | src/agents/multi_agent_system.py:255-329 | a local copy is written exactly when there is a report and a client; success adds 5 + n blocks to the page |
| MultiAgentSystem.ShouldUseInvestigator | src/agents/multi_agent_system.py:478-495 | what the unused predicate answers: the investigator exactly when an investigation keyword occurs; else the generator exactly when "informe" or "resumen" occurs; else the end (the compiled graph never consults it) |
| MultiAgentSystem.KeywordsOfComplexQuery | src/agents/multi_agent_system.py:483-488 | the investigation keywords are the assistant's complex-query keywords without "informe" |
| MultiAgentSystem.InvestigatorRouteAgreesWithComplexQuery | src/agents/multi_agent_system.py:478-495 | what the unused predicate would do: a message it sends to the investigator is complex for the assistant, and it never answers the end for a complex query; this says nothing about the graph, which always enters at the investigator |
| MultiAgentSystem.ResumenGoesToGenerator | src/agents/multi_agent_system.py:490-493 | "Resumen del pedido" goes to the generator |
| MultiAgentSystem.ShouldContinueInvestigator | src/agents/multi_agent_system.py:497-504 | tools exactly when there are tool calls; else the generator exactly when the current agent is the investigator; never back to the investigator |
| MultiAgentSystem.ShouldContinueGenerator | src/agents/multi_agent_system.py:506-511 | tools exactly when there are tool calls, the end exactly when there are none |
| MultiAgentSystem.MultiAgentMozoVirtual.constructor | src/agents/multi_agent_system.py:61-70 | a new system has an empty slot, no reports and nothing saved |
| MultiAgentSystem.MultiAgentMozoVirtual.InvestigarPlatoDetallado | src/agents/multi_agent_system.py:121-172 | the new slot and the answer are those of `Investigate`; nothing else changes |
| MultiAgentSystem.MultiAgentMozoVirtual.AnalizarPreferenciasCliente | src/agents/multi_agent_system.py:177-217 | the slot gets the analysed preferences and nothing else changes |
| MultiAgentSystem.MultiAgentMozoVirtual.GenerarInformeRecomendacion | src/agents/multi_agent_system.py:223-248 | the reports and the answer are those of `GenerateReport` with this system's justification |
| MultiAgentSystem.MultiAgentMozoVirtual.GuardarInformeNotion | src/agents/multi_agent_system.py:253-329 | the local copies, the page and the answer are those of `Save`; the slot and the reports are untouched |
| MultiAgentSystem.MultiAgentMozoVirtual.BuildBlocks | src/agents/multi_agent_system.py:266-312 | the appending loop yields `Blocks` of the report |
| MultiAgentSystem.MultiAgentMozoVirtual.GenerarJustificacion | src/agents/multi_agent_system.py:372-384 | `Justificacion` of the current slot; `JustificationByOcasion` states it |
| MultiAgentSystem.MultiAgentMozoVirtual.GenerarResumenDecision | src/agents/multi_agent_system.py:334-354 | `Summary` of the current slot and reports; `Pipeline.Summary` states when a summary is given |
| FixEmojis.ReplaceAbsent | scripts/setup/fix_emojis.py:54 | `str.replace` leaves a string without the (non-empty) pattern as it is |
| FixEmojis.ReplaceWhole | scripts/setup/fix_emojis.py:54 | a key on its own becomes its token |
| FixEmojis.Replace | scripts/setup/fix_emojis.py:54 | Python's `str.replace`; `ReplaceAbsent` and `ReplaceWhole` state its behaviour |
| FixEmojis.ApplyAll | scripts/setup/fix_emojis.py:53-54 | the replacement loop over a table; `ApplyAllSplit`, `ApplyAllUnchanged` and `ReplaceEach` state it |
| FixEmojis.ApplyAllSplit | scripts/setup/fix_emojis.py:53-54 | applying a table is applying its first `k` entries and then the rest |
| FixEmojis.ApplyAllUnchanged | scripts/setup/fix_emojis.py:53-58 | content holding none of the keys is written back unchanged |
| FixEmojis.ReplaceEach | scripts/setup/fix_emojis.py:53-54 | the loop applies the entries in the table's order, each to the result of the previous ones |
| FixEmojis.DifferNotContained | scripts/setup/fix_emojis.py:23-50 | a shaped key that is not a prefix of another shaped key does not occur in it |
| FixEmojis.KeyBecomesToken | scripts/setup/fix_emojis.py:23-54 | in a shaped table, a key that no earlier key is a prefix of comes out as its own token |
| FixEmojis.CorrectedIsReordering | scripts/setup/fix_emojis.py:23-50 | the corrected table holds the script's 26 entries, with [LINK] moved ahead of [BUSCAR] and [ANALISIS] ahead of [NOTA] |
| FixEmojis.CorrectedShaped | scripts/setup/fix_emojis.py:23-50 | every key starts with U+00E2 or U+011F and has neither later, and no token holds either |
| FixEmojis.EveryKeyBecomesItsToken | scripts/setup/fix_emojis.py:23-54 | with the corrected order every one of the 26 keys comes out as its own token |
| FixEmojis.OnlyEntryApplies | scripts/setup/fix_emojis.py:53-54 | when only entry `k` occurs in a text and its output has no lead character, the whole table gives what entry `k` gives |
| FixEmojis.BuscarEatsLink | scripts/setup/fix_emojis.py:27-46 | replacing the [BUSCAR] key inside the [LINK] key leaves "[BUSCAR]" followed by a dash |
| FixEmojis.NotaEatsAnalisis | scripts/setup/fix_emojis.py:48-49 | replacing the [NOTA] key inside the [ANALISIS] key leaves "[NOTA]" followed by its last character |
| FixEmojis.AsWrittenLosesLink | scripts/setup/fix_emojis.py:27-46 | with the script's order, the [LINK] key comes out as "[BUSCAR]" followed by a dash |
| FixEmojis.AsWrittenLosesAnalisis | scripts/setup/fix_emojis.py:48-49 | with the script's order, the [ANALISIS] key comes out as "[NOTA]" followed by its last character |
| FixEmojis.RemoveEmojisFromFile | scripts/setup/fix_emojis.py:9-65 | True exactly when the read and the write succeed, and then the text written is the content with the table applied |
| FixEmojis.Step | scripts/setup/fix_emojis.py:77-81 | an existing path is processed and, unless its write fails, rewritten; a missing one is reported; no file is created or removed |
| FixEmojis.FixAllTouchesOnlyListed | scripts/setup/fix_emojis.py:67-83 | no file is created or removed, and files not in the list are untouched |
| FixEmojis.OnlyExistingFilesProcessed | scripts/setup/fix_emojis.py:77-81 | one report per path, in order, and a path is reported missing exactly when it does not exist |
| FixEmojis.FixFiles | scripts/setup/fix_emojis.py:77-81 | the loop over the paths gives the files and the reports of `FixAll` |
| FixEmojis.FixAll | scripts/setup/fix_emojis.py:67-83 | `main`'s loop over the paths; `FixAllTouchesOnlyListed` and `OnlyExistingFilesProcessed` state its properties |
| FixEmojis.OnlyFirstFileFixed | scripts/setup/fix_emojis.py:77-81 | when only the first listed path exists, only it is rewritten, with the table applied |
| FixEmojis.FixScriptFiles | scripts/setup/fix_emojis.py:67-83 | `main` as written fixes its three files with the script's own table |
| FixEmojis.ScriptManglesLinkFile | scripts/setup/fix_emojis.py:27-46 | `main` as written turns a first listed file holding just the [LINK] key into "[BUSCAR]" followed by a dash |
| FixEmojis.FixScriptFilesCorrected | scripts/setup/fix_emojis.py:67-83 | `main` with the corrected table, under which every key becomes its own token |

## Left out

- The language model and the LangGraph machinery:
  - `setup_graph` and the single agent's replies (the replies are scripted turns);
  - `setup_multi_agent_graph` apart from its routing predicates. The graph's entry point is fixed at the investigator (multi_agent_system.py:527), so every query enters there and `should_use_investigator` is never consulted;
  - `MultiAgentMozoVirtual.process_complex_query`, which only invokes the compiled graph.
- Chroma, embeddings and retrieval internals: what the retriever returned for a query is an input.
- All Notion calls:
  - the conversation saving (`guardar_conversacion` and its local fallbacks), which is kept only as a flag saying whether a turn was saved;
  - the Notion integration scripts.
- File I/O:
  - the local report file is a list of the reports appended to it; `guardar_informe_local`'s own write error is not modelled;
  - in the emoji script, reading a file is its content or `None`, and writing either succeeds or fails. Decoding errors and races between the existence test and the read are not modelled.
- Clocks: timestamps, trace start and end times, and durations.
- Console input and output, and every printed message.
- Reply texts and block payloads are datatypes carrying the values they show. Their wording, number formatting (`:,`) and `.title()` casing are not modelled.
- Floating point: the running total starts as `0.0` in the source and is an `int` here. Every price is an integer, so no value is lost.
- Text.Lower: maps only ASCII capitals and Á É Í Ó Ú Ü Ñ, not the whole of Unicode's case mapping. Its length-preservation is a fact of this restriction: `str.lower()` turns U+0130 into two characters.
- TurnRules.ObtenerPlatoDelDia: assumes an English locale for the weekday name. Under it the day looked up is always a known English name, so the 'Hoy' and "no special" fallbacks cannot occur and are not modelled.
- Observer: the trace index is a natural number. Python's negative indexes, which pass the `< len` guard and address traces from the end, are not modelled. Also not modelled:
  - `CustomCallbackHandler`;
  - `save_traces_to_file`;
  - `create_langsmith_report`;
  - the client itself, which is reduced to whether it exists.
- Pipeline.AnalizarPreferencias: the `restricciones` and `gustos` lists, which are always empty, are not kept.
- Pipeline.BuildReport: the timestamp and the fixed next action are not kept.
- The simple system's retriever failure (simple_multi_agent.py:109-110) is modelled, as `RetrievalFailed`. Its other `except` branches are not modelled, because nothing in the modelled steps can raise. These are the branches of `analizar_preferencias_cliente` (174), `generar_informe_recomendacion` (201), `generar_resumen_decision` (240) and `process_complex_query` (342).
- SimpleMultiAgent.SimpleMultiAgentMozoVirtual.ProcessComplexQuery: the trace metadata keeps the query and the system name but not the timestamp. The logged messages are the step outcomes rather than their formatted text.
- Conversation: the conversation history passed to the single agent is not kept. A failing multi-agent call is a per-turn flag, and the single agent then answers. A raising single-agent call is a per-turn flag too and ends the session (`AgentRaised`). `input()` is the script: its running out (`ScriptExhausted`) stands for end of input or an interrupt.
- FixEmojis.RemoveEmojisFromFile: is stated for any table. `FixScriptFiles` runs `main` with the table as written; `FixScriptFilesCorrected` runs it with the corrected one.
- FixEmojis.Step: a failing write leaves the file unchanged, as when `open(filepath, 'w')` itself fails. A write that fails after the open has truncated the file is not modelled.

## Findings

| source | as written | input that shows it | evidently intended | confidence | as-written member | corrected member |
|---|---|---|---|---|---|---|
| scripts/setup/fix_emojis.py:27-46 | the [BUSCAR] key (U+011F U+0178 U+201D) is listed, and therefore replaced, before the [LINK] key, which starts with those three characters | the [LINK] key U+011F U+0178 U+201D U+2014 comes out as "[BUSCAR]" followed by U+2014 | every key becomes its own token, so [LINK] should be replaced before [BUSCAR] | not executed | FixEmojis.AsWrittenLosesLink | FixEmojis.EveryKeyBecomesItsToken |
| scripts/setup/fix_emojis.py:48-49 | the [NOTA] key (U+011F U+0178 U+201C) is listed before the [ANALISIS] key, which starts with those three characters | the [ANALISIS] key U+011F U+0178 U+201C U+02C6 comes out as "[NOTA]" followed by U+02C6 | [ANALISIS] should be replaced before [NOTA] | not executed | FixEmojis.AsWrittenLosesAnalisis | FixEmojis.EveryKeyBecomesItsToken |
