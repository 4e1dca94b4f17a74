/** The turn coordinator: one JSON document, guarded by a file lock, shared by the agent loop and
    the engine processes.  The functions give the effect of each locked mutation on the document;
    the class performs them on the file. */
module Coordinator {
  import opened Common

  type Uuid = nat

  datatype Phase = INIT | RECEIVE | DISPATCH | COLLECT | RESPOND | DONE | ABORTED {
    predicate Terminal() { DONE? || ABORTED? }
  }

  datatype EngineId = Engine1 | Engine2 | Engine3 | Engine4

  /** Why a process gave up on the turn. */
  datatype Reason =
    | LoopTurnTimeout
    | Engine2DispatchTimeout
    | Engine2UserQueryFailed
    | Engine2RespondTimeout
    | Engine2AgentResponseFailed
    | Engine3CollectTimeout
    | Engine3LlmFailed
    | Engine3ToolBatchTimeout
    | Engine3MaxToolIterations

  datatype ToolCall = ToolCall(id: string, name: string, arguments: string)

  /** A tool outcome; `result` is missing when the call was refused or failed. */
  datatype ToolResult = ToolResult(id: string, name: string, result: Option<string>)

  datatype BatchStatus = NoBatch | Pending | Complete

  datatype TurnState = TurnState(
    phase: Phase,
    ready: seq<EngineId>,
    correlationId: Option<Uuid>,
    userText: Option<string>,
    responseText: Option<string>,
    abortReason: Option<Reason>,
    batchId: Option<Uuid>,
    pendingCalls: seq<ToolCall>,
    batchStatus: BatchStatus,
    toolResults: Option<seq<ToolResult>>,
    notes: map<string, string>)   // the remaining keys, which no process reads back

  /** The keyword arguments that may accompany a phase change. */
  datatype Extra = Extra(correlationId: Option<Uuid>, userText: Option<string>, responseText: Option<string>)

  const NO_EXTRA := Extra(None, None, None)

  const DEFAULT_STATE :=
    TurnState(INIT, [], None, None, None, None, None, [], NoBatch, None, map[])

  function Load(file: Option<TurnState>): (s: TurnState)
  {
    if file.Some? then file.value else DEFAULT_STATE
  }

  function Update(s: TurnState, extra: Extra): (s': TurnState)
  {
    s.(correlationId := if extra.correlationId.Some? then extra.correlationId else s.correlationId,
       userText := if extra.userText.Some? then extra.userText else s.userText,
       responseText := if extra.responseText.Some? then extra.responseText else s.responseText)
  }

  function WithPhase(s: TurnState, phase: Phase, extra: Extra): (s': TurnState)
  {
    Update(s.(phase := phase), extra)
  }

  function WithFields(s: TurnState, notes: map<string, string>): (s': TurnState)
  {
    s.(notes := s.notes + notes)
  }

  function WithReady(s: TurnState, engine: EngineId): (s': TurnState)
  {
    if engine in s.ready then s else s.(ready := s.ready + [engine])
  }

  /** Unlike a phase change, an abort leaves a finished turn alone. */
  function WithAbort(s: TurnState, reason: Reason, extra: Extra): (s': TurnState)
  {
    if s.phase.Terminal() then s
    else Update(s.(phase := ABORTED, abortReason := Some(reason)), extra)
  }

  function WithBatch(s: TurnState, batch: Uuid, calls: seq<ToolCall>): (s': TurnState)
  {
    s.(batchId := Some(batch), pendingCalls := calls, batchStatus := Pending, toolResults := None)
  }

  predicate AcceptsResults(s: TurnState, batch: Uuid)
  {
    s.batchId == Some(batch) && s.batchStatus == Pending
  }

  function WithResults(s: TurnState, batch: Uuid, results: seq<ToolResult>): (s': TurnState)
  {
    if AcceptsResults(s, batch)
    then s.(toolResults := Some(results), batchStatus := Complete, pendingCalls := [])
    else s
  }

  /** The fields given are the new ones, and the others are kept. */
  predicate Merged(s: TurnState, s': TurnState, extra: Extra)
  {
    && s'.correlationId == (if extra.correlationId == None then s.correlationId else extra.correlationId)
    && s'.userText == (if extra.userText == None then s.userText else extra.userText)
    && s'.responseText == (if extra.responseText == None then s.responseText else extra.responseText)
  }

  /** Everything but the phase, its reason and the fields that come with a phase. */
  predicate SameRest(s: TurnState, s': TurnState)
  {
    && s'.ready == s.ready && s'.batchId == s.batchId && s'.pendingCalls == s.pendingCalls
    && s'.batchStatus == s.batchStatus && s'.toolResults == s.toolResults && s'.notes == s.notes
  }

  /** The file-backed coordinator.  Each method is one critical section of the file lock. */
  class TurnFile {
    var file: Option<TurnState>

    constructor ()
      ensures file == None
    {
      file := None;
    }

    method Read() returns (s: TurnState)
      ensures s == Load(file)
    {
      s := if file.Some? then file.value else DEFAULT_STATE;
    }

    method SetPhase(phase: Phase, extra: Extra)
      modifies this
      ensures file == Some(WithPhase(old(Load(file)), phase, extra))
      ensures Load(file).phase == phase && Load(file).abortReason == old(Load(file)).abortReason
      ensures Merged(old(Load(file)), Load(file), extra) && SameRest(old(Load(file)), Load(file))
    {
      var state := Load(file);
      state := state.(phase := phase);
      state := Update(state, extra);
      file := Some(state);
    }

    method MergeFields(notes: map<string, string>)
      modifies this
      ensures file == Some(WithFields(old(Load(file)), notes))
      ensures forall key :: key in notes ==> key in Load(file).notes && Load(file).notes[key] == notes[key]
      ensures Load(file) == old(Load(file)).(notes := Load(file).notes)
      ensures forall key | key !in notes ::
                if key in old(Load(file)).notes
                then key in Load(file).notes && Load(file).notes[key] == old(Load(file)).notes[key]
                else key !in Load(file).notes
    {
      var state := Load(file);
      file := Some(state.(notes := state.notes + notes));
    }

    method MarkReady(engine: EngineId)
      modifies this
      ensures file == Some(WithReady(old(Load(file)), engine))
      ensures forall e :: e in Load(file).ready <==> e == engine || e in old(Load(file)).ready
      ensures Unique(old(Load(file)).ready) ==> Unique(Load(file).ready)
      ensures Load(file) == old(Load(file)).(ready := Load(file).ready)
    {
      var state := Load(file);
      var ready := state.ready;
      if engine !in ready {
        ready := ready + [engine];
      }
      file := Some(state.(ready := ready));
    }

    method Abort(reason: Reason, extra: Extra)
      modifies this
      ensures file == Some(WithAbort(old(Load(file)), reason, extra))
      ensures old(Load(file)).phase in {DONE, ABORTED} ==> Load(file) == old(Load(file))
      ensures old(Load(file)).phase !in {DONE, ABORTED} ==>
                && Load(file).phase == ABORTED && Load(file).abortReason == Some(reason)
                && Merged(old(Load(file)), Load(file), extra) && SameRest(old(Load(file)), Load(file))
    {
      var state := Load(file);
      if state.phase != DONE && state.phase != ABORTED {
        state := state.(phase := ABORTED);
        state := state.(abortReason := Some(reason));
        state := Update(state, extra);
      }
      file := Some(state);
    }

    method PublishToolBatch(batch: Uuid, calls: seq<ToolCall>)
      modifies this
      ensures file == Some(WithBatch(old(Load(file)), batch, calls))
      ensures var s := Load(file);
        && s.batchId == Some(batch) && s.batchStatus == Pending && s.pendingCalls == calls && s.toolResults == None
        && s == old(Load(file)).(batchId := s.batchId, batchStatus := s.batchStatus, pendingCalls := s.pendingCalls,
                                 toolResults := s.toolResults)
    {
      var state := Load(file);
      state := state.(batchId := Some(batch));
      state := state.(pendingCalls := calls);
      state := state.(batchStatus := Pending);
      file := Some(state.(toolResults := None));
    }

    method CompleteToolBatch(batch: Uuid, results: seq<ToolResult>) returns (ok: bool)
      modifies this
      ensures file == Some(WithResults(old(Load(file)), batch, results))
      ensures ok <==> old(Load(file)).batchId == Some(batch) && old(Load(file)).batchStatus == Pending
      ensures !ok ==> Load(file) == old(Load(file))
      ensures var s := Load(file);
        ok ==>
          && s.toolResults == Some(results) && s.batchStatus == Complete && s.pendingCalls == []
          && s == old(Load(file)).(batchStatus := s.batchStatus, pendingCalls := s.pendingCalls,
                                   toolResults := s.toolResults)
    {
      var state := Load(file);
      ok := false;
      if state.batchId == Some(batch) && state.batchStatus == Pending {
        state := state.(toolResults := Some(results), batchStatus := Complete, pendingCalls := []);
        ok := true;
      }
      file := Some(state);
    }
  }
}
