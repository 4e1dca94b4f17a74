/** What a turn can do: every conversation with fewer than eight tool rounds can run to its end, and the
    eighth round ends the turn. */
module TurnCompletion {
  import opened Common
  import opened Coordinator
  import opened TurnProtocol
  import TurnAbort

  /** A tool round as the LLM and the tools play it: the calls, identifiers drawn for those that have none,
      and the outcome of each call. */
  datatype Scene = Scene(content: string, raw: seq<RawCall>, drawn: seq<string>, outcomes: seq<Option<string>>) {
    predicate Playable() { |raw| > 0 && |drawn| == |raw| && |outcomes| == |raw| }
  }

  /** The round asked for what the scene says, and each call had the outcome that the scene says. */
  predicate Played(r: Round, x: Scene)
  {
    && r.content == x.content && r.raw == x.raw && |r.results| == |x.outcomes|
    && forall k | 0 <= k < |r.results| :: r.results[k].result == x.outcomes[k]
  }

  predicate AllPlayed(rounds: seq<Round>, script: seq<Scene>)
  {
    |rounds| == |script| && forall i | 0 <= i < |script| :: Played(rounds[i], script[i])
  }

  /** Everybody waits for engine 3, which has played the script and is about to ask the LLM. */
  predicate Asking(s: Sys, turn: Uuid, query: string, script: seq<Scene>)
  {
    && s.Doc().phase == COLLECT && s.loop == LoopAwaitTerminal(turn) && s.gateway == GatewayAwaitRespond(turn)
    && s.tools == ToolsCheck && s.llm.pc == LlmRequest(turn) && s.llm.userText == query
    && s.llm.iteration == |s.llm.replies| == |script| && AllPlayed(s.llm.rounds, script)
  }

  function Query(text: string): string
  {
    if text == "" then "Hello from gateway" else text
  }

  lemma Started(init: Sys) returns (more: seq<Action>)
    requires Init(init)
    ensures var s := Run(init, more);
      && s.Doc().phase == RECEIVE && s.loop == LoopAwaitReady && s.gateway == GatewayBoot && s.llm == init.llm
      && s.tools == ToolsAwaitCollect
  {
    assert Run(init, []) == init;
    more := TurnAbort.Then(init, [], LoopStep(Start));
    more := TurnAbort.Then(init, more, LoopStep(Handshake(true)));
    more := TurnAbort.Then(init, more, ToolsStep(ToolsReady));
  }

  lemma Dispatching(s: Sys, before: seq<Action>) returns (more: seq<Action>, turn: Uuid)
    requires var t := Run(s, before);
      t.loop == LoopAwaitReady && t.gateway == GatewayBoot && t.llm.pc == LlmBoot
    ensures var t, u := Run(s, before), Run(s, more);
      && u.Doc().phase == DISPATCH && u.Doc().correlationId == Some(turn) && u.loop == LoopAwaitTerminal(turn)
      && u.gateway == GatewayAwaitDispatch && u.llm == t.llm.(pc := LlmAwaitCollect) && u.tools == t.tools
  {
    more := TurnAbort.Then(s, before, GatewayStep(GatewayReady));
    TurnAbort.GatewayReports(Run(s, before));
    more := TurnAbort.Then(s, more, LlmStep(LlmReady));
    TurnAbort.LlmReports(GatewayNext(Run(s, before), GatewayReady));
    more := TurnAbort.Then(s, more, LoopStep(SeeReady));
    turn := TurnAbort.Unused(Run(s, more).used);
    more := TurnAbort.Then(s, more, LoopStep(Dispatch(turn)));
  }

  lemma Collecting(s: Sys, before: seq<Action>, text: string, turn: Uuid) returns (more: seq<Action>)
    requires var t := Run(s, before);
      t.Doc().phase == DISPATCH && t.Doc().correlationId == Some(turn) && t.gateway == GatewayAwaitDispatch
    ensures var t, u := Run(s, before), Run(s, more);
      && u.Doc().phase == COLLECT && u.Doc().correlationId == Some(turn) && u.Doc().userText == Some(Query(text))
      && u.loop == t.loop && u.gateway == GatewayAwaitRespond(turn) && u.llm == t.llm && u.tools == t.tools
  {
    more := TurnAbort.Then(s, before, GatewayStep(SeeDispatch));
    more := TurnAbort.Then(s, more, GatewayStep(ReadTurn(text, 0)));
    more := TurnAbort.Then(s, more, GatewayStep(QueryReply(true)));
    more := TurnAbort.Then(s, more, GatewayStep(WriteCollect));
  }

  lemma Listening(s: Sys, before: seq<Action>, query: string, turn: Uuid) returns (more: seq<Action>)
    requires var t := Run(s, before);
      && t.Doc().phase == COLLECT && t.Doc().correlationId == Some(turn) && t.Doc().userText == Some(query)
      && t.loop == LoopAwaitTerminal(turn) && t.gateway == GatewayAwaitRespond(turn)
      && t.llm == LlmEngine(LlmAwaitCollect, "", 0, [], [], []) && t.tools == ToolsAwaitCollect
    ensures Asking(Run(s, more), turn, query, [])
  {
    more := TurnAbort.Then(s, before, ToolsStep(ToolsSeeCollect));
    more := TurnAbort.Then(s, more, LlmStep(SeeCollect));
    more := TurnAbort.Then(s, more, LlmStep(ReadTurnId(0)));
    more := TurnAbort.Then(s, more, LlmStep(ReadText));
  }

  lemma Opening(init: Sys, text: string) returns (more: seq<Action>, turn: Uuid)
    requires Init(init)
    ensures Asking(Run(init, more), turn, Query(text), [])
  {
    more := Started(init);
    more, turn := Dispatching(init, more);
    more := Collecting(init, more, text, turn);
    more := Listening(init, more, Query(text), turn);
  }

  predicate Outcomes(results: seq<ToolResult>, outcomes: seq<Option<string>>)
  {
    |results| <= |outcomes| && forall k | 0 <= k < |results| :: results[k].result == outcomes[k]
  }

  /** Engine 1 runs the calls of its batch one after the other. */
  lemma {:induction false} RunTools(s: Sys, before: seq<Action>, outcomes: seq<Option<string>>)
    returns (more: seq<Action>)
    requires var pc := Run(s, before).tools;
      pc.ToolsRun? && |pc.calls| == |outcomes| && Outcomes(pc.results, outcomes)
    ensures var t, u := Run(s, before), Run(s, more);
      && u == t.(tools := u.tools) && u.tools.ToolsRun? && u.tools.batch == t.tools.batch
      && u.tools.calls == t.tools.calls && |u.tools.results| == |outcomes| && Outcomes(u.tools.results, outcomes)
    decreases |outcomes| - |Run(s, before).tools.results|
  {
    var done := |Run(s, before).tools.results|;
    if done == |outcomes| {
      more := before;
    } else {
      more := TurnAbort.Then(s, before, ToolsStep(RunTool(outcomes[done])));
      more := RunTools(s, more, outcomes);
    }
  }

  /** Engine 3 waits for the batch of a scene. */
  predicate Waiting(s: Sys, turn: Uuid, x: Scene, batch: Uuid)
  {
    && s.llm.pc.LlmAwaitBatch? && s.llm.pc.turn == turn && s.llm.pc.content == x.content && s.llm.pc.raw == x.raw
    && s.llm.pc.batch == batch && AcceptsResults(s.Doc(), batch) && |s.Doc().pendingCalls| == |x.raw|
  }

  /** What a scene leaves alone until its end. */
  predicate Elsewhere(s: Sys, s': Sys)
  {
    && s'.Doc().phase == s.Doc().phase && s'.loop == s.loop && s'.gateway == s.gateway
    && s'.llm == s.llm.(pc := s'.llm.pc, replies := s'.llm.replies)
  }

  lemma Publishing(s: Sys, before: seq<Action>, turn: Uuid, x: Scene) returns (more: seq<Action>, batch: Uuid)
    requires Run(s, before).llm.pc == LlmRequest(turn) && x.Playable()
    ensures var t, u := Run(s, before), Run(s, more);
      && Waiting(u, turn, x, batch) && Elsewhere(t, u) && u.tools == t.tools
      && |u.llm.replies| == |t.llm.replies| + 1
  {
    more := TurnAbort.Then(s, before, LlmStep(LlmReply(CallTools(x.content, x.raw, x.drawn))));
    batch := TurnAbort.Unused(Run(s, more).used);
    more := TurnAbort.Then(s, more, LlmStep(Publish(batch)));
  }

  /** Engine 1 takes the batch up, runs its calls and records the results. */
  lemma Working(s: Sys, before: seq<Action>, turn: Uuid, x: Scene, batch: Uuid) returns (more: seq<Action>)
    requires x.Playable() && Waiting(Run(s, before), turn, x, batch)
    requires Run(s, before).Doc().phase == COLLECT && Run(s, before).tools == ToolsCheck
    ensures var t, u := Run(s, before), Run(s, more);
      && Elsewhere(t, u) && u.llm == t.llm && u.tools == ToolsCheck
      && u.Doc().batchId == Some(batch) && u.Doc().batchStatus == Complete && u.Doc().toolResults.Some?
      && |u.Doc().toolResults.value| == |x.outcomes| && Outcomes(u.Doc().toolResults.value, x.outcomes)
  {
    more := TurnAbort.Then(s, before, ToolsStep(CheckPhase));
    more := TurnAbort.Then(s, more, ToolsStep(SeeBatch));
    more := RunTools(s, more, x.outcomes);
    more := TurnAbort.Then(s, more, ToolsStep(MergeResults(map[])));
    more := TurnAbort.Then(s, more, ToolsStep(RecordResults));
  }

  /** One tool round.  After the eighth, engine 3 gives up. */
  lemma PlayScene(s: Sys, before: seq<Action>, turn: Uuid, query: string, script: seq<Scene>, x: Scene)
    returns (more: seq<Action>)
    requires Asking(Run(s, before), turn, query, script) && x.Playable()
    ensures |script| < 7 ==> Asking(Run(s, more), turn, query, script + [x])
    ensures |script| >= 7 ==>
      var u := Run(s, more);
      && GivingUp(u, turn, Engine3MaxToolIterations)
      && |u.llm.replies| == |script| + 1 && AllPlayed(u.llm.rounds, script + [x])
  {
    var batch;
    more, batch := Publishing(s, before, turn, x);
    more := Working(s, more, turn, x, batch);
    more := TurnAbort.Then(s, more, LlmStep(SeeResults));
  }

  lemma {:induction false} PlayScript(init: Sys, text: string, script: seq<Scene>)
    returns (more: seq<Action>, turn: Uuid)
    requires Init(init) && |script| < 8 && forall x | x in script :: x.Playable()
    ensures Asking(Run(init, more), turn, Query(text), script)
    decreases |script|
  {
    if script == [] {
      more, turn := Opening(init, text);
    } else {
      var front, last := script[..|script| - 1], script[|script| - 1];
      more, turn := PlayScript(init, text, front);
      assert front + [last] == script && last in script;
      more := PlayScene(init, more, turn, Query(text), front, last);
    }
  }

  /** Engine 3 answers. */
  lemma Answering(s: Sys, before: seq<Action>, turn: Uuid, query: string, script: seq<Scene>, answer: string)
    returns (more: seq<Action>)
    requires Asking(Run(s, before), turn, query, script)
    ensures var t, u := Run(s, before), Run(s, more);
      && u.Doc().phase == RESPOND && u.Doc().responseText == Some(answer) && u.loop == t.loop && u.gateway == t.gateway
      && u.tools == t.tools && u.llm.pc == LlmExit && u.llm.userText == query && u.llm.rounds == t.llm.rounds
  {
    more := TurnAbort.Then(s, before, LlmStep(LlmReply(Answer(answer))));
    more := TurnAbort.Then(s, more, LlmStep(WriteRespond));
  }

  /** The gateway picks up the answer. */
  lemma Fetching(s: Sys, before: seq<Action>) returns (more: seq<Action>)
    requires Run(s, before).Doc().phase == RESPOND && Run(s, before).gateway.GatewayAwaitRespond?
    ensures var t, u := Run(s, before), Run(s, more);
      u == t.(gateway := u.gateway) && u.gateway.GatewaySubmitResponse?
  {
    more := TurnAbort.Then(s, before, GatewayStep(SeeRespond));
    more := TurnAbort.Then(s, more, GatewayStep(ReadResponse));
  }

  /** The gateway delivers the answer. */
  lemma Delivering(s: Sys, before: seq<Action>) returns (more: seq<Action>)
    requires Run(s, before).Doc().phase == RESPOND && Run(s, before).gateway.GatewayAwaitRespond?
    ensures var t, u := Run(s, before), Run(s, more);
      && u.Doc().phase == DONE && u.Doc().responseText == t.Doc().responseText && u.loop == t.loop
      && u.gateway == GatewayExit && u.llm == t.llm && u.tools == t.tools
  {
    more := Fetching(s, before);
    more := TurnAbort.Then(s, more, GatewayStep(ResponseReply(true)));
    more := TurnAbort.Then(s, more, GatewayStep(WriteDone));
  }

  /** Every process has left the turn, and the loop has reported how it went. */
  predicate AllOut(s: Sys, ok: bool)
  {
    s.loop == LoopReturned(ok) && s.gateway == GatewayExit && s.llm.pc == LlmExit && s.tools == ToolsExit
  }

  /** What the turn came to stays when the last processes leave. */
  predicate SameEnd(s: Sys, s': Sys)
  {
    s'.Doc() == s.Doc() && s'.llm == s.llm
  }

  lemma LastOnesLeave(s: Sys, before: seq<Action>) returns (more: seq<Action>)
    requires var t := Run(s, before);
      t.Doc().phase.Terminal() && t.loop.LoopAwaitTerminal? && t.llm.pc == LlmExit && t.tools == ToolsCheck
    ensures var t, u := Run(s, before), Run(s, more);
      SameEnd(t, u) && u.loop == LoopReturned(t.Doc().phase == DONE) && u.gateway == t.gateway && u.tools == ToolsExit
  {
    more := TurnAbort.Then(s, before, ToolsStep(CheckPhase));
    more := TurnAbort.Then(s, more, LoopStep(SeeTerminal));
  }

  /** From every fresh turn, for every text of the user, every script of at most seven tool rounds and every
      answer: there is a run in which exactly these rounds are played, the answer is given, the turn is
      DONE, the loop reports success and every process has left. */
  lemma EveryScriptCompletes(init: Sys, text: string, script: seq<Scene>, answer: string) returns (actions: seq<Action>)
    requires Init(init) && |script| <= 7 && forall x | x in script :: x.Playable()
    ensures var s := Run(init, actions);
      && s.Doc().phase == DONE && s.Doc().responseText == Some(answer) && AllOut(s, true)
      && s.llm.userText == Query(text) && AllPlayed(s.llm.rounds, script)
  {
    var turn;
    actions, turn := PlayScript(init, text, script);
    actions := Answering(init, actions, turn, Query(text), script, answer);
    actions := Delivering(init, actions);
    actions := LastOnesLeave(init, actions);
  }

  /** Engine 3 is about to give up on the turn. */
  predicate GivingUp(s: Sys, turn: Uuid, reason: Reason)
  {
    && s.Doc().phase == COLLECT && s.loop == LoopAwaitTerminal(turn) && s.gateway == GatewayAwaitRespond(turn)
    && s.llm.pc == LlmAborting(reason, Some(turn)) && s.tools == ToolsCheck
  }

  lemma GiveUp(s: Sys, before: seq<Action>, turn: Uuid, reason: Reason) returns (more: seq<Action>)
    requires GivingUp(Run(s, before), turn, reason)
    ensures var t, u := Run(s, before), Run(s, more);
      && u.Doc().phase == ABORTED && u.Doc().abortReason == Some(reason) && AllOut(u, false)
      && u.llm.replies == t.llm.replies && u.llm.rounds == t.llm.rounds
  {
    more := TurnAbort.Then(s, before, LlmStep(LlmAbort));
    more := TurnAbort.Then(s, more, GatewayStep(SeeRespond));
    more := LastOnesLeave(s, more);
  }

  /** After every script of at most seven tool rounds the LLM can fail, and then the turn is ABORTED for this
      reason and every process has left. */
  lemma FailedRequestAborts(init: Sys, text: string, script: seq<Scene>) returns (actions: seq<Action>)
    requires Init(init) && |script| <= 7 && forall x | x in script :: x.Playable()
    ensures var s := Run(init, actions);
      && s.Doc().phase == ABORTED && s.Doc().abortReason == Some(Engine3LlmFailed) && AllOut(s, false)
      && AllPlayed(s.llm.rounds, script)
  {
    var turn;
    actions, turn := PlayScript(init, text, script);
    actions := TurnAbort.Then(init, actions, LlmStep(LlmReply(Failed)));
    actions := GiveUp(init, actions, turn, Engine3LlmFailed);
  }

  /** Every script of eight tool rounds can be played, and then the turn is ABORTED for this reason without
      another request to the LLM. */
  lemma EighthRoundAborts(init: Sys, text: string, script: seq<Scene>) returns (actions: seq<Action>)
    requires Init(init) && |script| == 8 && forall x | x in script :: x.Playable()
    ensures var s := Run(init, actions);
      && s.Doc().phase == ABORTED && s.Doc().abortReason == Some(Engine3MaxToolIterations) && AllOut(s, false)
      && |s.llm.replies| == 8 && AllPlayed(s.llm.rounds, script)
  {
    var turn;
    actions, turn := PlayScript(init, text, script[..7]);
    assert script[..7] + [script[7]] == script && script[7] in script;
    actions := PlayScene(init, actions, turn, Query(text), script[..7], script[7]);
    actions := GiveUp(init, actions, turn, Engine3MaxToolIterations);
  }

  // The other ways to fail

  predicate AbortedFor(s: Sys, reason: Reason)
  {
    s.Doc().phase == ABORTED && s.Doc().abortReason == Some(reason)
  }

  /** The gateway is about to give up on a turn that is not finished. */
  predicate GatewayGivesUp(s: Sys, reason: Reason)
  {
    !s.Doc().phase.Terminal() && s.gateway.GatewayAborting? && s.gateway.reason == reason
  }

  lemma DispatchTimesOut(init: Sys) returns (more: seq<Action>)
    requires Init(init)
    ensures GatewayGivesUp(Run(init, more), Engine2DispatchTimeout)
  {
    more := Started(init);
    more := TurnAbort.Then(init, more, GatewayStep(GatewayReady));
    more := TurnAbort.Then(init, more, GatewayStep(DispatchTimeout));
  }

  lemma QueryRefused(init: Sys, text: string) returns (more: seq<Action>)
    requires Init(init)
    ensures GatewayGivesUp(Run(init, more), Engine2UserQueryFailed)
  {
    var turn;
    more := Started(init);
    more, turn := Dispatching(init, more);
    more := TurnAbort.Then(init, more, GatewayStep(SeeDispatch));
    more := TurnAbort.Then(init, more, GatewayStep(ReadTurn(text, 0)));
    more := TurnAbort.Then(init, more, GatewayStep(QueryReply(false)));
  }

  lemma RespondTimesOut(init: Sys, text: string) returns (more: seq<Action>)
    requires Init(init)
    ensures GatewayGivesUp(Run(init, more), Engine2RespondTimeout)
  {
    var turn;
    more, turn := Opening(init, text);
    more := TurnAbort.Then(init, more, GatewayStep(RespondTimeout));
  }

  lemma AnswerRefused(s: Sys, before: seq<Action>) returns (more: seq<Action>)
    requires Run(s, before).Doc().phase == RESPOND && Run(s, before).gateway.GatewayAwaitRespond?
    ensures GatewayGivesUp(Run(s, more), Engine2AgentResponseFailed)
  {
    more := Fetching(s, before);
    more := TurnAbort.Then(s, more, GatewayStep(ResponseReply(false)));
  }

  lemma ResponseRefused(init: Sys, text: string) returns (more: seq<Action>)
    requires Init(init)
    ensures GatewayGivesUp(Run(init, more), Engine2AgentResponseFailed)
  {
    var turn;
    more, turn := Opening(init, text);
    more := Answering(init, more, turn, Query(text), [], "");
    more := AnswerRefused(init, more);
  }

  lemma GatewayAborts(s: Sys, before: seq<Action>, reason: Reason) returns (more: seq<Action>)
    requires GatewayGivesUp(Run(s, before), reason)
    ensures AbortedFor(Run(s, more), reason)
  {
    more := TurnAbort.Then(s, before, GatewayStep(GatewayAbort));
  }

  lemma LoopTimesOut(init: Sys, text: string) returns (more: seq<Action>)
    requires Init(init)
    ensures AbortedFor(Run(init, more), LoopTurnTimeout)
  {
    var turn;
    more, turn := Opening(init, text);
    more := TurnAbort.Then(init, more, LoopStep(TurnTimeout));
    more := TurnAbort.Then(init, more, LoopStep(LoopAbort));
  }

  lemma CollectTimesOut(init: Sys) returns (more: seq<Action>)
    requires Init(init)
    ensures AbortedFor(Run(init, more), Engine3CollectTimeout)
  {
    more := Started(init);
    more := TurnAbort.Then(init, more, LlmStep(LlmReady));
    more := TurnAbort.Then(init, more, LlmStep(CollectTimeout));
    more := TurnAbort.Then(init, more, LlmStep(LlmAbort));
  }

  lemma BatchAborts(s: Sys, before: seq<Action>) returns (more: seq<Action>)
    requires !Run(s, before).Doc().phase.Terminal() && Run(s, before).llm.pc.LlmAwaitBatch?
    ensures AbortedFor(Run(s, more), Engine3ToolBatchTimeout)
  {
    more := TurnAbort.Then(s, before, LlmStep(BatchTimeout));
    more := TurnAbort.Then(s, more, LlmStep(LlmAbort));
  }

  lemma BatchTimesOut(init: Sys, text: string) returns (more: seq<Action>)
    requires Init(init)
    ensures AbortedFor(Run(init, more), Engine3ToolBatchTimeout)
  {
    var turn, batch;
    more, turn := Opening(init, text);
    more, batch := Publishing(init, more, turn, Scene("", [RawCall(NoId, "", "")], [""], [None]));
    more := BatchAborts(init, more);
  }

  lemma GatewayReasonOccurs(init: Sys, text: string, reason: Reason) returns (actions: seq<Action>)
    requires Init(init)
    requires reason in {Engine2DispatchTimeout, Engine2UserQueryFailed, Engine2RespondTimeout,
                        Engine2AgentResponseFailed}
    ensures AbortedFor(Run(init, actions), reason)
  {
    if reason == Engine2DispatchTimeout {
      actions := DispatchTimesOut(init);
    } else if reason == Engine2UserQueryFailed {
      actions := QueryRefused(init, text);
    } else if reason == Engine2RespondTimeout {
      actions := RespondTimesOut(init, text);
    } else {
      actions := ResponseRefused(init, text);
    }
    actions := GatewayAborts(init, actions, reason);
  }

  /** From every fresh turn and for every text, each of the nine reasons can come to abort the turn. */
  lemma EveryReasonOccurs(init: Sys, text: string, reason: Reason) returns (actions: seq<Action>)
    requires Init(init)
    ensures AbortedFor(Run(init, actions), reason)
  {
    match reason
    case LoopTurnTimeout => actions := LoopTimesOut(init, text);
    case Engine3CollectTimeout => actions := CollectTimesOut(init);
    case Engine3ToolBatchTimeout => actions := BatchTimesOut(init, text);
    case Engine3LlmFailed => actions := FailedRequestAborts(init, text, []);
    case Engine3MaxToolIterations =>
      actions := EighthRoundAborts(init, text, seq(8, _ => Scene("", [RawCall(NoId, "", "")], [""], [None])));
    case _ => actions := GatewayReasonOccurs(init, text, reason);
  }
}
