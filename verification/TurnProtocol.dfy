/** One agent turn as a state machine: the agent loop, the gateway (engine 2), the LLM engine
    (engine 3) and the tools engine (engine 1) take interleaved steps over the coordinator file.
    Every process has a program counter, and a step is one read or one locked mutation of the file,
    or the arrival of a reply.  A step that its process cannot take leaves the state as it is, so a
    run is any list of actions.  Timeouts and crashes may happen wherever a process waits. */
module TurnProtocol {
  import opened Common
  import opened Coordinator

  const MAX_TOOL_ITERATIONS: nat := 8
  const DEFAULT_RESPONSE := "Acknowledged."
  const DEFAULT_USER_TEXT := "Hello from gateway"

  datatype LoopPc =
    | LoopStart
    | LoopHandshake
    | LoopAwaitReady
    | LoopDispatch
    | LoopAwaitTerminal(turn: Uuid)
    | LoopAborting(turn: Uuid)
    | LoopReturned(ok: bool)

  datatype GatewayPc =
    | GatewayBoot
    | GatewayAwaitDispatch
    | GatewayReadTurn
    | GatewaySubmitQuery(turn: Uuid, text: string)
    | GatewayWriteCollect(turn: Uuid, text: string)
    | GatewayAwaitRespond(turn: Uuid)
    | GatewayReadResponse(turn: Uuid)
    | GatewaySubmitResponse(turn: Uuid, text: string)
    | GatewayWriteDone(turn: Uuid)
    | GatewayAborting(reason: Reason, turnId: Option<Uuid>)
    | GatewayExit

  /** The `id` of a tool call as the provider sent it: no such key, a null, or a string. */
  datatype RawId = NoId | NullId | GivenId(id: string)
  datatype RawCall = RawCall(id: RawId, name: string, arguments: string)

  datatype Message =
    | UserMessage(content: string)
    | AssistantMessage(content: string, calls: seq<RawCall>)
    | ToolMessage(callId: string, result: Option<string>)

  /** One completed iteration of the tool loop. */
  datatype Round = Round(
    content: string,
    raw: seq<RawCall>,
    batch: Uuid,
    published: seq<ToolCall>,
    results: seq<ToolResult>)

  datatype LlmPc =
    | LlmBoot
    | LlmAwaitCollect
    | LlmReadTurn
    | LlmReadText(turn: Uuid)
    | LlmRequest(turn: Uuid)
    | LlmPublish(turn: Uuid, content: string, raw: seq<RawCall>, calls: seq<ToolCall>)
    | LlmAwaitBatch(turn: Uuid, content: string, raw: seq<RawCall>, batch: Uuid, calls: seq<ToolCall>)
    | LlmWriteRespond(turn: Uuid, text: string)
    | LlmAborting(reason: Reason, turnId: Option<Uuid>)
    | LlmExit

  /** Engine 3 with its local variables; `replies` and `rounds` record the replies to its requests and
      the tool rounds it completed. */
  datatype LlmEngine = LlmEngine(
    pc: LlmPc,
    userText: string,
    iteration: nat,
    replies: seq<Reply>,
    messages: seq<Message>,
    rounds: seq<Round>)

  datatype ToolsPc =
    | ToolsBoot
    | ToolsAwaitCollect
    | ToolsCheck
    | ToolsAwaitBatch
    | ToolsRun(batch: Uuid, calls: seq<ToolCall>, results: seq<ToolResult>)
    | ToolsComplete(batch: Uuid, calls: seq<ToolCall>, results: seq<ToolResult>)
    | ToolsExit

  /** The events by which a turn makes progress, in the order in which they happened. */
  datatype Milestone =
    | Dispatched(turn: Uuid)
    | QueryAccepted(turn: Uuid, text: string)
    | LlmFinished(turn: Uuid, text: string)
    | Answered(turn: Uuid, userText: string, text: string)
    | ResponseAccepted(turn: Uuid, text: string)
    | Completed(turn: Uuid)

  datatype Sys = Sys(
    file: Option<TurnState>,
    loop: LoopPc,
    gateway: GatewayPc,
    llm: LlmEngine,
    tools: ToolsPc,
    used: set<Uuid>,                         // identifiers already drawn
    log: seq<Milestone>,
    published: map<Uuid, seq<ToolCall>>,     // every batch ever offered to engine 1
    completions: seq<Uuid>)                  // every batch whose results were recorded
  {
    function Doc(): TurnState { Load(file) }
  }

  datatype LoopAction =
    | Start
    | Handshake(ok: bool)
    | SeeReady
    | ReadyTimeout
    | Dispatch(turn: Uuid)
    | SeeTerminal
    | TurnTimeout
    | LoopAbort
    | LoopCrash

  datatype GatewayAction =
    | GatewayReady
    | SeeDispatch
    | DispatchTimeout
    | ReadTurn(text: string, fallback: Uuid)
    | QueryReply(ok: bool)
    | WriteCollect
    | SeeRespond
    | RespondTimeout
    | ReadResponse
    | ResponseReply(ok: bool)
    | WriteDone
    | GatewayAbort
    | GatewayCrash

  datatype Reply =
    | Failed
    | Answer(content: string)
    | CallTools(content: string, raw: seq<RawCall>, freshIds: seq<string>)

  datatype LlmAction =
    | LlmReady
    | SeeCollect
    | CollectTimeout
    | ReadTurnId(fallback: Uuid)
    | ReadText
    | LlmReply(reply: Reply)
    | Publish(batch: Uuid)
    | SeeResults
    | BatchTimeout
    | WriteRespond
    | LlmAbort
    | LlmCrash

  datatype ToolsAction =
    | ToolsReady
    | ToolsSeeCollect
    | CheckPhase
    | SeeBatch
    | NoBatchYet
    | RunTool(result: Option<string>)
    | MergeResults(notes: map<string, string>)
    | RecordResults
    | ToolsStop

  datatype MemoryAction = MemoryReady | MergeMemory(notes: map<string, string>)

  datatype Action =
    | LoopStep(l: LoopAction)
    | GatewayStep(g: GatewayAction)
    | LlmStep(m: LlmAction)
    | ToolsStep(t: ToolsAction)
    | MemoryStep(e: MemoryAction)

  function Write(s: Sys, doc: TurnState): Sys
  {
    s.(file := Some(doc))
  }

  function TurnExtra(turn: Option<Uuid>): Extra
  {
    NO_EXTRA.(correlationId := turn)
  }

  function LoopNext(s: Sys, a: LoopAction): Sys
  {
    match a
    case Start =>
      if s.loop != LoopStart then s
      else Write(s, WithPhase(s.Doc(), INIT, NO_EXTRA)).(loop := LoopHandshake)
    case Handshake(ok) =>
      if s.loop != LoopHandshake then s
      else if ok then Write(s, WithPhase(s.Doc(), RECEIVE, NO_EXTRA)).(loop := LoopAwaitReady)
      else s.(loop := LoopReturned(false))
    case SeeReady =>
      if s.loop == LoopAwaitReady && Engine2 in s.Doc().ready && Engine3 in s.Doc().ready
      then s.(loop := LoopDispatch) else s
    case ReadyTimeout =>
      if s.loop == LoopAwaitReady then s.(loop := LoopReturned(false)) else s
    case Dispatch(turn) =>
      if s.loop != LoopDispatch || turn in s.used then s
      else Write(s, WithPhase(s.Doc(), DISPATCH, TurnExtra(Some(turn))))
           .(loop := LoopAwaitTerminal(turn), used := s.used + {turn}, log := s.log + [Dispatched(turn)])
    case SeeTerminal =>
      if s.loop.LoopAwaitTerminal? && s.Doc().phase.Terminal()
      then s.(loop := LoopReturned(s.Doc().phase == DONE)) else s
    case TurnTimeout =>
      if s.loop.LoopAwaitTerminal? then s.(loop := LoopAborting(s.loop.turn)) else s
    case LoopAbort =>
      if !s.loop.LoopAborting? then s
      else Write(s, WithAbort(s.Doc(), LoopTurnTimeout, TurnExtra(Some(s.loop.turn))))
           .(loop := LoopReturned(false))
    case LoopCrash =>
      if s.loop.LoopReturned? then s else s.(loop := LoopReturned(false))
  }

  function GatewayNext(s: Sys, a: GatewayAction): Sys
  {
    var pc := s.gateway;
    match a
    case GatewayReady =>
      if pc != GatewayBoot then s
      else Write(s, WithReady(s.Doc(), Engine2)).(gateway := GatewayAwaitDispatch)
    case SeeDispatch =>
      if pc == GatewayAwaitDispatch && s.Doc().phase == DISPATCH then s.(gateway := GatewayReadTurn) else s
    case DispatchTimeout =>
      if pc != GatewayAwaitDispatch then s
      else s.(gateway := GatewayAborting(Engine2DispatchTimeout, None))
    case ReadTurn(text, fallback) =>
      if pc != GatewayReadTurn then s
      else
        var turn := if s.Doc().correlationId.Some? then s.Doc().correlationId.value else fallback;
        s.(gateway := GatewaySubmitQuery(turn, if text == "" then DEFAULT_USER_TEXT else text))
    case QueryReply(ok) =>
      if !pc.GatewaySubmitQuery? then s
      else if ok then
        s.(gateway := GatewayWriteCollect(pc.turn, pc.text), log := s.log + [QueryAccepted(pc.turn, pc.text)])
      else s.(gateway := GatewayAborting(Engine2UserQueryFailed, Some(pc.turn)))
    case WriteCollect =>
      if !pc.GatewayWriteCollect? then s
      else Write(s, WithPhase(s.Doc(), COLLECT, Extra(Some(pc.turn), Some(pc.text), None)))
           .(gateway := GatewayAwaitRespond(pc.turn))
    case SeeRespond =>
      if !pc.GatewayAwaitRespond? then s
      else if s.Doc().phase == RESPOND then s.(gateway := GatewayReadResponse(pc.turn))
      else if s.Doc().phase == ABORTED then s.(gateway := GatewayExit)
      else s
    case RespondTimeout =>
      if !pc.GatewayAwaitRespond? then s
      else s.(gateway := GatewayAborting(Engine2RespondTimeout, Some(pc.turn)))
    case ReadResponse =>
      if !pc.GatewayReadResponse? then s
      else
        var text := if s.Doc().responseText.Some? then s.Doc().responseText.value else DEFAULT_RESPONSE;
        s.(gateway := GatewaySubmitResponse(pc.turn, text))
    case ResponseReply(ok) =>
      if !pc.GatewaySubmitResponse? then s
      else if ok then s.(gateway := GatewayWriteDone(pc.turn), log := s.log + [ResponseAccepted(pc.turn, pc.text)])
      else s.(gateway := GatewayAborting(Engine2AgentResponseFailed, Some(pc.turn)))
    case WriteDone =>
      if !pc.GatewayWriteDone? then s
      else Write(s, WithPhase(s.Doc(), DONE, TurnExtra(Some(pc.turn))))
           .(gateway := GatewayExit, log := s.log + [Completed(pc.turn)])
    case GatewayAbort =>
      if !pc.GatewayAborting? then s
      else Write(s, WithAbort(s.Doc(), pc.reason, TurnExtra(pc.turnId))).(gateway := GatewayExit)
    case GatewayCrash => s.(gateway := GatewayExit)
  }

  /** The identifier under which a provider's tool call is published. */
  function CallId(id: RawId, drawn: string): string
  {
    match id
    case NoId => drawn
    case NullId => "None"
    case GivenId(given) => given
  }

  function PublishedCalls(raw: seq<RawCall>, freshIds: seq<string>): (calls: seq<ToolCall>)
    requires |raw| == |freshIds|
    ensures |calls| == |raw|
  {
    seq(|raw|, i requires 0 <= i < |raw| =>
      ToolCall(CallId(raw[i].id, freshIds[i]), raw[i].name, raw[i].arguments))
  }

  function ToolMessages(results: seq<ToolResult>): (ms: seq<Message>)
    ensures |ms| == |results|
    ensures forall i | 0 <= i < |ms| :: ms[i] == ToolMessage(results[i].id, results[i].result)
  {
    seq(|results|, i requires 0 <= i < |results| => ToolMessage(results[i].id, results[i].result))
  }

  function LlmFail(s: Sys, reason: Reason, turn: Uuid): Sys
  {
    s.(llm := s.llm.(pc := LlmAborting(reason, Some(turn))))
  }

  /** Engine 3 leaves its loop with a text. */
  function LlmDone(s: Sys, turn: Uuid, text: string): Sys
  {
    s.(llm := s.llm.(pc := LlmWriteRespond(turn, text)), log := s.log + [LlmFinished(turn, text)])
  }

  /** Engine 3 receives the reply to an LLM request. */
  function LlmReplied(s: Sys, turn: Uuid, reply: Reply): Sys
  {
    var asked := s.(llm := s.llm.(replies := s.llm.replies + [reply]));
    match reply
    case Failed => LlmFail(asked, Engine3LlmFailed, turn)
    case Answer(content) => LlmDone(asked, turn, content)
    case CallTools(content, raw, freshIds) =>
      if raw == [] then LlmDone(asked, turn, content)
      else if |raw| != |freshIds| then s
      else asked.(llm := asked.llm.(pc := LlmPublish(turn, content, raw, PublishedCalls(raw, freshIds))))
  }

  /** Engine 3 appends the round's messages and goes on to the next iteration, or gives up. */
  function LlmContinue(s: Sys, pc: LlmPc, results: seq<ToolResult>): Sys
    requires pc.LlmAwaitBatch?
  {
    var e := s.llm;
    var next := e.(
      messages := e.messages + [AssistantMessage(pc.content, pc.raw)] + ToolMessages(results),
      rounds := e.rounds + [Round(pc.content, pc.raw, pc.batch, pc.calls, results)],
      iteration := e.iteration + 1,
      pc := LlmRequest(pc.turn));
    if next.iteration < MAX_TOOL_ITERATIONS then s.(llm := next)
    else LlmFail(s.(llm := next), Engine3MaxToolIterations, pc.turn)
  }

  function LlmNext(s: Sys, a: LlmAction): Sys
  {
    var pc := s.llm.pc;
    match a
    case LlmReady =>
      if pc != LlmBoot then s
      else Write(s, WithReady(s.Doc(), Engine3)).(llm := s.llm.(pc := LlmAwaitCollect))
    case SeeCollect =>
      if pc == LlmAwaitCollect && s.Doc().phase == COLLECT then s.(llm := s.llm.(pc := LlmReadTurn)) else s
    case CollectTimeout =>
      if pc != LlmAwaitCollect then s
      else s.(llm := s.llm.(pc := LlmAborting(Engine3CollectTimeout, None)))
    case ReadTurnId(fallback) =>
      if pc != LlmReadTurn then s
      else
        var turn := if s.Doc().correlationId.Some? then s.Doc().correlationId.value else fallback;
        s.(llm := s.llm.(pc := LlmReadText(turn)))
    case ReadText =>
      if !pc.LlmReadText? then s
      else
        var text := if s.Doc().userText.Some? then s.Doc().userText.value else DEFAULT_USER_TEXT;
        s.(llm := s.llm.(pc := LlmRequest(pc.turn), userText := text, messages := [UserMessage(text)]))
    case LlmReply(reply) =>
      if !pc.LlmRequest? then s else LlmReplied(s, pc.turn, reply)
    case Publish(batch) =>
      if !pc.LlmPublish? || batch in s.used then s
      else Write(s, WithBatch(s.Doc(), batch, pc.calls))
           .(used := s.used + {batch}, published := s.published[batch := pc.calls],
             llm := s.llm.(pc := LlmAwaitBatch(pc.turn, pc.content, pc.raw, batch, pc.calls)))
    case SeeResults =>
      if pc.LlmAwaitBatch? && s.Doc().batchId == Some(pc.batch) && s.Doc().batchStatus == Complete
      then LlmContinue(s, pc, if s.Doc().toolResults.Some? then s.Doc().toolResults.value else [])
      else s
    case BatchTimeout =>
      if pc.LlmAwaitBatch? then LlmFail(s, Engine3ToolBatchTimeout, pc.turn) else s
    case WriteRespond =>
      if !pc.LlmWriteRespond? then s
      else Write(s, WithPhase(s.Doc(), RESPOND, Extra(Some(pc.turn), None, Some(pc.text))))
           .(llm := s.llm.(pc := LlmExit), log := s.log + [Answered(pc.turn, s.llm.userText, pc.text)])
    case LlmAbort =>
      if !pc.LlmAborting? then s
      else Write(s, WithAbort(s.Doc(), pc.reason, TurnExtra(pc.turnId))).(llm := s.llm.(pc := LlmExit))
    case LlmCrash => s.(llm := s.llm.(pc := LlmExit))
  }

  function ToolsNext(s: Sys, a: ToolsAction): Sys
  {
    var pc := s.tools;
    match a
    case ToolsReady =>
      if pc != ToolsBoot then s
      else Write(s, WithReady(s.Doc(), Engine1)).(tools := ToolsAwaitCollect)
    case ToolsSeeCollect =>
      if pc == ToolsAwaitCollect && s.Doc().phase == COLLECT then s.(tools := ToolsCheck) else s
    case CheckPhase =>
      if pc != ToolsCheck then s
      else s.(tools := if s.Doc().phase == COLLECT then ToolsAwaitBatch else ToolsExit)
    case SeeBatch =>
      if pc == ToolsAwaitBatch && s.Doc().batchStatus == Pending && s.Doc().batchId.Some?
         && s.Doc().pendingCalls != []
      then s.(tools := ToolsRun(s.Doc().batchId.value, s.Doc().pendingCalls, []))
      else s
    case NoBatchYet =>
      if pc == ToolsAwaitBatch then s.(tools := ToolsCheck) else s
    case RunTool(result) =>
      if pc.ToolsRun? && |pc.results| < |pc.calls|
      then var call := pc.calls[|pc.results|];
           s.(tools := ToolsRun(pc.batch, pc.calls, pc.results + [ToolResult(call.id, call.name, result)]))
      else s
    case MergeResults(notes) =>
      if !pc.ToolsRun? || |pc.results| < |pc.calls| then s
      else if notes == map[] then s.(tools := ToolsComplete(pc.batch, pc.calls, pc.results))
      else Write(s, WithFields(s.Doc(), notes)).(tools := ToolsComplete(pc.batch, pc.calls, pc.results))
    case RecordResults =>
      if !pc.ToolsComplete? then s
      else Write(s, WithResults(s.Doc(), pc.batch, pc.results))
           .(tools := ToolsCheck,
             completions := if AcceptsResults(s.Doc(), pc.batch) then s.completions + [pc.batch] else s.completions)
    case ToolsStop => s.(tools := ToolsExit)
  }

  function MemoryNext(s: Sys, a: MemoryAction): Sys
  {
    match a
    case MemoryReady => Write(s, WithReady(s.Doc(), Engine4))
    case MergeMemory(notes) => Write(s, WithFields(s.Doc(), notes))
  }

  function Next(s: Sys, a: Action): Sys
  {
    match a
    case LoopStep(l) => LoopNext(s, l)
    case GatewayStep(g) => GatewayNext(s, g)
    case LlmStep(m) => LlmNext(s, m)
    case ToolsStep(t) => ToolsNext(s, t)
    case MemoryStep(e) => MemoryNext(s, e)
  }

  function Run(s: Sys, actions: seq<Action>): Sys
    decreases |actions|
  {
    if actions == [] then s
    else Next(Run(s, actions[..|actions| - 1]), actions[|actions| - 1])
  }

  /** A fresh turn: no file yet, or a file in phase INIT that may still hold fields of an earlier turn. */
  ghost predicate Init(s: Sys)
  {
    && s.Doc().phase == INIT
    && s.loop == LoopStart
    && s.gateway == GatewayBoot
    && s.llm == LlmEngine(LlmBoot, "", 0, [], [], [])
    && s.tools == ToolsBoot
    && s.log == [] && s.completions == []
    && (s.Doc().batchId.Some? ==> s.Doc().batchId.value in s.used)
    && (if s.Doc().batchId.Some? && s.Doc().batchStatus == Pending
        then s.published == map[s.Doc().batchId.value := s.Doc().pendingCalls]
        else s.published == map[])
  }
}
