/** When an aborted turn stays aborted.  A phase change overwrites ABORTED, so an abort is final
    exactly when no process can get to a phase change any more. */
module TurnAbort {
  import opened Common
  import opened Coordinator
  import opened TurnProtocol
  import TurnSafety
  import TurnTools

  predicate LoopMayWrite(s: Sys)
  {
    match s.loop
    case LoopStart | LoopHandshake | LoopDispatch => true
    case LoopAwaitReady =>
      && (Engine2 in s.Doc().ready || s.gateway == GatewayBoot)
      && (Engine3 in s.Doc().ready || s.llm.pc == LlmBoot)
    case _ => false
  }

  predicate GatewayMayWrite(s: Sys)
  {
    match s.gateway
    case GatewayReadTurn | GatewaySubmitQuery(_, _) | GatewayWriteCollect(_, _)
       | GatewayReadResponse(_) | GatewaySubmitResponse(_, _) | GatewayWriteDone(_) => true
    case _ => false
  }

  /** Engine 3 may still answer.  When it needs a tool batch first, engine 1 must be able to complete
      that batch without passing another phase check, and another iteration must be left. */
  predicate LlmMayWrite(s: Sys)
  {
    match s.llm.pc
    case LlmReadTurn | LlmReadText(_) | LlmRequest(_) | LlmWriteRespond(_, _) => true
    case LlmPublish(_, _, _, _) =>
      s.llm.iteration + 1 < MAX_TOOL_ITERATIONS && s.tools == ToolsAwaitBatch
    case LlmAwaitBatch(_, _, _, batch, _) =>
      && s.llm.iteration + 1 < MAX_TOOL_ITERATIONS
      && (s.Doc().batchStatus == Complete || s.tools == ToolsAwaitBatch || WorksOn(s.tools, batch))
    case _ => false
  }

  predicate WorksOn(tools: ToolsPc, batch: Uuid)
  {
    match tools
    case ToolsRun(b, _, _) => b == batch
    case ToolsComplete(b, _, _) => b == batch
    case _ => false
  }

  predicate MayStillWrite(s: Sys)
  {
    LoopMayWrite(s) || GatewayMayWrite(s) || LlmMayWrite(s)
  }

  ghost predicate Inv(s: Sys)
  {
    TurnSafety.Inv(s) && TurnTools.Inv(s)
  }

  lemma ReachableInv(init: Sys, actions: seq<Action>)
    requires Init(init)
    ensures Inv(Run(init, actions))
  {
    TurnSafety.InitInv(init);
    TurnTools.InitInv(init);
    TurnSafety.RunKeeps(init, actions);
    TurnTools.RunKeeps(init, actions);
  }

  // An abort that no process can overwrite is final.

  ghost predicate Settled(s: Sys)
  {
    s.Doc().phase == ABORTED && !MayStillWrite(s)
  }

  lemma LoopSettled(s: Sys, a: LoopAction)
    requires Settled(s)
    ensures Settled(LoopNext(s, a))
  {
  }

  lemma GatewaySettled(s: Sys, a: GatewayAction)
    requires Settled(s)
    ensures Settled(GatewayNext(s, a))
  {
  }

  lemma LlmSettled(s: Sys, a: LlmAction)
    requires TurnTools.FileInv(s) && TurnTools.ToolsInv(s) && TurnTools.WaitInv(s) && Settled(s)
    ensures Settled(LlmNext(s, a))
  {
  }

  lemma ToolsSettled(s: Sys, a: ToolsAction)
    requires TurnTools.WaitInv(s) && Settled(s)
    ensures Settled(ToolsNext(s, a))
  {
  }

  lemma {:induction false} SettledForGood(s: Sys, actions: seq<Action>)
    requires Inv(s) && Settled(s)
    ensures Settled(Run(s, actions))
    decreases |actions|
  {
    if actions != [] {
      var t, a := Run(s, actions[..|actions| - 1]), actions[|actions| - 1];
      SettledForGood(s, actions[..|actions| - 1]);
      TurnSafety.RunKeeps(s, actions[..|actions| - 1]);
      TurnTools.RunKeeps(s, actions[..|actions| - 1]);
      StepSettled(t, a);
    }
  }

  lemma MemorySettled(s: Sys, a: MemoryAction)
    requires Settled(s)
    ensures Settled(MemoryNext(s, a))
  {
  }

  lemma StepSettled(s: Sys, a: Action)
    requires Inv(s) && Settled(s)
    ensures Settled(Next(s, a))
  {
    match a
    case LoopStep(l) => LoopSettled(s, l);
    case GatewayStep(g) => GatewaySettled(s, g);
    case LlmStep(m) => LlmSettled(s, m);
    case ToolsStep(w) => ToolsSettled(s, w);
    case MemoryStep(e) => MemorySettled(s, e);
  }

  // Otherwise some continuation overwrites it.

  lemma Then(s: Sys, xs: seq<Action>, a: Action) returns (ys: seq<Action>)
    ensures ys == xs + [a] && Run(s, ys) == Next(Run(s, xs), a)
  {
    ys := xs + [a];
    assert ys[..|ys| - 1] == xs;
  }

  lemma {:induction false} Unused(used: set<Uuid>) returns (id: Uuid)
    ensures forall u | u in used :: u < id
    ensures id !in used
  {
    if used == {} {
      id := 0;
    } else {
      var u :| u in used;
      var rest := Unused(used - {u});
      id := if rest <= u then u + 1 else rest;
      assert forall v | v in used :: v == u || v in used - {u};
    }
  }

  lemma DispatchWayOut(s: Sys, before: seq<Action>) returns (more: seq<Action>)
    requires Run(s, before).loop == LoopDispatch
    ensures Run(s, more).Doc().phase == DISPATCH
  {
    var turn := Unused(Run(s, before).used);
    more := Then(s, before, LoopStep(Dispatch(turn)));
  }

  lemma ReadyWayOut(s: Sys) returns (more: seq<Action>)
    requires s.loop == LoopAwaitReady && LoopMayWrite(s)
    ensures Run(s, more).Doc().phase == DISPATCH
  {
    more := Then(s, [], GatewayStep(GatewayReady));
    GatewayReports(s);
    more := Then(s, more, LlmStep(LlmReady));
    LlmReports(GatewayNext(s, GatewayReady));
    more := Then(s, more, LoopStep(SeeReady));
    more := DispatchWayOut(s, more);
  }

  lemma GatewayReports(s: Sys)
    requires Engine2 in s.Doc().ready || s.gateway == GatewayBoot
    ensures var t := GatewayNext(s, GatewayReady);
      && Engine2 in t.Doc().ready && t.llm == s.llm && t.loop == s.loop
      && forall e | e in s.Doc().ready :: e in t.Doc().ready
  {
  }

  lemma LlmReports(s: Sys)
    requires Engine3 in s.Doc().ready || s.llm.pc == LlmBoot
    ensures var t := LlmNext(s, LlmReady);
      && Engine3 in t.Doc().ready && t.loop == s.loop
      && forall e | e in s.Doc().ready :: e in t.Doc().ready
  {
  }

  lemma LoopWayOut(s: Sys) returns (more: seq<Action>)
    requires LoopMayWrite(s) && s.Doc().phase == ABORTED
    ensures Run(s, more).Doc().phase != ABORTED
  {
    assert Run(s, []) == s;
    if s.loop == LoopStart {
      more := Then(s, [], LoopStep(Start));
    } else if s.loop == LoopHandshake {
      more := Then(s, [], LoopStep(Handshake(true)));
    } else if s.loop == LoopDispatch {
      more := DispatchWayOut(s, []);
    } else {
      more := ReadyWayOut(s);
    }
  }

  lemma CollectWayOut(s: Sys, before: seq<Action>) returns (more: seq<Action>)
    requires var pc := Run(s, before).gateway;
      pc.GatewayReadTurn? || pc.GatewaySubmitQuery? || pc.GatewayWriteCollect?
    ensures var t, u := Run(s, before), Run(s, more);
      u.Doc().phase == COLLECT && u.gateway.GatewayAwaitRespond? && u.llm == t.llm && u.tools == t.tools
  {
    more := Then(s, before, GatewayStep(ReadTurn("", 0)));
    more := Then(s, more, GatewayStep(QueryReply(true)));
    more := Then(s, more, GatewayStep(WriteCollect));
  }

  lemma DoneWayOut(s: Sys, before: seq<Action>) returns (more: seq<Action>)
    requires var pc := Run(s, before).gateway;
      pc.GatewayReadResponse? || pc.GatewaySubmitResponse? || pc.GatewayWriteDone?
    ensures Run(s, more).Doc().phase == DONE
  {
    more := Then(s, before, GatewayStep(ReadResponse));
    more := Then(s, more, GatewayStep(ResponseReply(true)));
    more := Then(s, more, GatewayStep(WriteDone));
  }

  lemma AnswerWayOut(s: Sys, before: seq<Action>) returns (more: seq<Action>)
    requires var pc := Run(s, before).llm.pc;
      pc.LlmReadTurn? || pc.LlmReadText? || pc.LlmRequest? || pc.LlmWriteRespond?
    ensures Run(s, more).Doc().phase == RESPOND && Run(s, more).gateway == Run(s, before).gateway
  {
    more := Then(s, before, LlmStep(ReadTurnId(0)));
    more := Then(s, more, LlmStep(ReadText));
    more := Then(s, more, LlmStep(LlmReply(Answer(""))));
    more := Then(s, more, LlmStep(WriteRespond));
  }

  /** Engine 1 runs the remaining calls of its batch and records the results. */
  lemma {:induction false} FinishBatch(s: Sys, before: seq<Action>) returns (more: seq<Action>)
    requires var t := Run(s, before);
      t.tools.ToolsRun? && |t.tools.results| <= |t.tools.calls| && AcceptsResults(t.Doc(), t.tools.batch)
    ensures var t, u := Run(s, before), Run(s, more);
      && u.llm == t.llm && u.Doc().phase == t.Doc().phase
      && u.Doc().batchId == t.Doc().batchId && u.Doc().batchStatus == Complete
    decreases |Run(s, before).tools.calls| - |Run(s, before).tools.results|
  {
    var t := Run(s, before);
    if |t.tools.results| < |t.tools.calls| {
      more := Then(s, before, ToolsStep(RunTool(None)));
      more := FinishBatch(s, more);
    } else {
      more := Then(s, before, ToolsStep(MergeResults(map[])));
      more := Then(s, more, ToolsStep(RecordResults));
    }
  }

  lemma BatchWayOut(s: Sys, before: seq<Action>) returns (more: seq<Action>)
    requires var t := Run(s, before);
      TurnTools.Inv(t) && t.llm.pc.LlmAwaitBatch? && LlmMayWrite(t)
    ensures Run(s, more).Doc().phase == RESPOND
  {
    more := CompleteBatch(s, before);
    more := Then(s, more, LlmStep(SeeResults));
    more := AnswerWayOut(s, more);
  }

  lemma CompleteBatch(s: Sys, before: seq<Action>) returns (more: seq<Action>)
    requires var t := Run(s, before);
      TurnTools.Inv(t) && t.llm.pc.LlmAwaitBatch? && LlmMayWrite(t)
    ensures var t, u := Run(s, before), Run(s, more);
      u.llm == t.llm && u.Doc().batchId == t.Doc().batchId && u.Doc().batchStatus == Complete
  {
    var t := Run(s, before);
    more := before;
    if t.Doc().batchStatus != Complete {
      if t.tools.ToolsComplete? {
        more := Then(s, more, ToolsStep(RecordResults));
      } else {
        more := Then(s, more, ToolsStep(SeeBatch));
        more := FinishBatch(s, more);
      }
    }
  }

  lemma LlmWayOut(s: Sys) returns (more: seq<Action>)
    requires TurnTools.Inv(s) && LlmMayWrite(s)
    ensures Run(s, more).Doc().phase == RESPOND
  {
    assert Run(s, []) == s;
    if s.llm.pc.LlmAwaitBatch? {
      more := BatchWayOut(s, []);
    } else if s.llm.pc.LlmPublish? {
      var batch := Unused(s.used);
      more := Then(s, [], LlmStep(Publish(batch)));
      TurnTools.NextKeeps(s, LlmStep(Publish(batch)));
      more := BatchWayOut(s, more);
    } else {
      more := AnswerWayOut(s, []);
    }
  }

  lemma WayOut(s: Sys) returns (more: seq<Action>)
    requires Inv(s) && s.Doc().phase == ABORTED && MayStillWrite(s)
    ensures Run(s, more).Doc().phase != ABORTED
  {
    assert Run(s, []) == s;
    if LoopMayWrite(s) {
      more := LoopWayOut(s);
    } else if GatewayMayWrite(s) {
      if s.gateway.GatewayReadTurn? || s.gateway.GatewaySubmitQuery? || s.gateway.GatewayWriteCollect? {
        more := CollectWayOut(s, []);
      } else {
        more := DoneWayOut(s, []);
      }
    } else {
      more := LlmWayOut(s);
    }
  }

  /** An aborted turn stays aborted in every continuation exactly when no process may still write. */
  lemma AbortFinalIff(init: Sys, actions: seq<Action>)
    requires Init(init)
    requires Run(init, actions).Doc().phase == ABORTED
    ensures (forall more :: Run(init, actions + more).Doc().phase == ABORTED)
            <==> !MayStillWrite(Run(init, actions))
  {
    var s := Run(init, actions);
    ReachableInv(init, actions);
    if MayStillWrite(s) {
      var more := WayOut(s);
      TurnSafety.RunConcat(init, actions, more);
      assert Run(init, actions + more).Doc().phase != ABORTED;
    } else {
      forall more
        ensures Run(init, actions + more).Doc().phase == ABORTED
      {
        TurnSafety.RunConcat(init, actions, more);
        SettledForGood(s, more);
      }
    }
  }

  /** ABORTED is not final in general: from a missing file there is a run in which the loop gives up
      on its turn, writes ABORTED and reports failure, and the turn still ends in DONE. */
  lemma AbortedTurnCanComplete() returns (init: Sys, actions: seq<Action>, more: seq<Action>)
    ensures Init(init) && init.file == None
    ensures Run(init, actions).Doc().phase == ABORTED && Run(init, actions).loop == LoopReturned(false)
    ensures Run(init, actions + more).Doc().phase == DONE
  {
    init := Sys(None, LoopStart, GatewayBoot, LlmEngine(LlmBoot, "", 0, [], [], []), ToolsBoot,
                {}, [], map[], []);
    actions := Then(init, [], LoopStep(Start));
    actions := Then(init, actions, LoopStep(Handshake(true)));
    var t := Run(init, actions);
    assert t.loop == LoopAwaitReady && t.gateway == GatewayBoot && t.llm == init.llm;
    actions := AbortWhileDispatched(init, actions);
    more := AbortedCompletion(Run(init, actions));
    TurnSafety.RunConcat(init, actions, more);
  }

  lemma BothReady(s: Sys, before: seq<Action>) returns (more: seq<Action>)
    requires var t := Run(s, before);
      t.loop == LoopAwaitReady && t.gateway == GatewayBoot && t.llm.pc == LlmBoot
    ensures var t, u := Run(s, before), Run(s, more);
      && u.loop == LoopDispatch && u.gateway == GatewayAwaitDispatch && u.llm.pc == LlmAwaitCollect
      && u.tools == t.tools
  {
    more := Then(s, before, GatewayStep(GatewayReady));
    GatewayReports(Run(s, before));
    more := Then(s, more, LlmStep(LlmReady));
    LlmReports(GatewayNext(Run(s, before), GatewayReady));
    more := Then(s, more, LoopStep(SeeReady));
  }

  lemma AbortWhileDispatched(s: Sys, before: seq<Action>) returns (more: seq<Action>)
    requires var t := Run(s, before);
      t.loop == LoopAwaitReady && t.gateway == GatewayBoot && t.llm.pc == LlmBoot
    ensures var u := Run(s, more);
      && u.Doc().phase == ABORTED && u.loop == LoopReturned(false)
      && u.gateway == GatewayReadTurn && u.llm.pc == LlmAwaitCollect
  {
    more := BothReady(s, before);
    var turn := Unused(Run(s, more).used);
    more := Then(s, more, LoopStep(Dispatch(turn)));
    more := Then(s, more, GatewayStep(SeeDispatch));
    more := Then(s, more, LoopStep(TurnTimeout));
    more := Then(s, more, LoopStep(LoopAbort));
  }

  lemma AbortedCompletion(s: Sys) returns (more: seq<Action>)
    requires s.gateway == GatewayReadTurn && s.llm.pc == LlmAwaitCollect
    ensures Run(s, more).Doc().phase == DONE
  {
    assert Run(s, []) == s;
    more := CollectWayOut(s, []);
    more := Then(s, more, LlmStep(SeeCollect));
    more := AnswerWayOut(s, more);
    more := Then(s, more, GatewayStep(SeeRespond));
    more := DoneWayOut(s, more);
  }

  // A completion that comes too late for engine 3

  lemma CollectWithTools(s: Sys, before: seq<Action>) returns (more: seq<Action>)
    requires var t := Run(s, before);
      t.loop == LoopAwaitReady && t.gateway == GatewayBoot && t.llm.pc == LlmBoot && t.tools == ToolsBoot
    ensures var u := Run(s, more);
      u.Doc().phase == COLLECT && u.llm.pc == LlmAwaitCollect && u.tools == ToolsAwaitBatch
  {
    more := Then(s, before, ToolsStep(ToolsReady));
    more := BothReady(s, more);
    var turn := Unused(Run(s, more).used);
    more := Then(s, more, LoopStep(Dispatch(turn)));
    more := Then(s, more, GatewayStep(SeeDispatch));
    more := CollectWayOut(s, more);
    more := Then(s, more, ToolsStep(ToolsSeeCollect));
    more := Then(s, more, ToolsStep(CheckPhase));
  }

  /** Engine 3 asks for a tool, engine 1 takes up the batch, and engine 3 gives up waiting. */
  lemma GivesUpWaiting(s: Sys, before: seq<Action>) returns (more: seq<Action>)
    requires var t := Run(s, before);
      t.Doc().phase == COLLECT && t.llm.pc == LlmAwaitCollect && t.tools == ToolsAwaitBatch
    ensures var u := Run(s, more);
      && u.Doc().phase == ABORTED && u.llm.pc == LlmExit
      && u.tools.ToolsRun? && |u.tools.results| <= |u.tools.calls| && AcceptsResults(u.Doc(), u.tools.batch)
  {
    more := AsksForTool(s, before);
    more := Then(s, more, ToolsStep(SeeBatch));
    more := Then(s, more, LlmStep(BatchTimeout));
    more := Then(s, more, LlmStep(LlmAbort));
  }

  lemma AsksForTool(s: Sys, before: seq<Action>) returns (more: seq<Action>)
    requires Run(s, before).Doc().phase == COLLECT && Run(s, before).llm.pc == LlmAwaitCollect
    ensures var t, u := Run(s, before), Run(s, more);
      && u.Doc().phase == COLLECT && u.tools == t.tools && u.llm.pc.LlmAwaitBatch?
      && u.Doc().batchId == Some(u.llm.pc.batch) && u.Doc().batchStatus == Pending && |u.Doc().pendingCalls| == 1
  {
    more := Then(s, before, LlmStep(SeeCollect));
    more := Then(s, more, LlmStep(ReadTurnId(0)));
    more := Then(s, more, LlmStep(ReadText));
    more := Then(s, more, LlmStep(LlmReply(CallTools("", [RawCall(NoId, "", "")], [""]))));
    var batch := Unused(Run(s, more).used);
    more := Then(s, more, LlmStep(Publish(batch)));
  }

  /** Results can be recorded after engine 3 has timed out on them, aborted the turn and exited. */
  lemma LateResultsAreTaken() returns (init: Sys, actions: seq<Action>, more: seq<Action>)
    ensures Init(init)
    ensures var s := Run(init, actions);
      s.Doc().phase == ABORTED && s.llm.pc == LlmExit && s.Doc().batchStatus == Pending
    ensures var u := Run(init, actions + more);
      u.Doc().phase == ABORTED && u.llm.pc == LlmExit && u.Doc().batchStatus == Complete
  {
    init := Sys(None, LoopStart, GatewayBoot, LlmEngine(LlmBoot, "", 0, [], [], []), ToolsBoot,
                {}, [], map[], []);
    actions := Then(init, [], LoopStep(Start));
    actions := Then(init, actions, LoopStep(Handshake(true)));
    var t := Run(init, actions);
    assert t.loop == LoopAwaitReady && t.gateway == GatewayBoot && t.llm == init.llm && t.tools == ToolsBoot;
    actions := CollectWithTools(init, actions);
    actions := GivesUpWaiting(init, actions);
    more := FinishLate(Run(init, actions));
    TurnSafety.RunConcat(init, actions, more);
  }

  lemma FinishLate(s: Sys) returns (more: seq<Action>)
    requires s.tools.ToolsRun? && |s.tools.results| <= |s.tools.calls| && AcceptsResults(s.Doc(), s.tools.batch)
    ensures var u := Run(s, more);
      u.llm == s.llm && u.Doc().phase == s.Doc().phase && u.Doc().batchStatus == Complete
  {
    assert Run(s, []) == s;
    more := FinishBatch(s, []);
  }
}
