/** Why a turn was aborted: the reason in the file names something that happened in the run. */
module TurnReasons {
  import opened Common
  import opened Coordinator
  import opened TurnProtocol
  import TurnSafety

  /** What each reason says has happened. */
  predicate Cause(reason: Reason, a: Action)
  {
    match reason
    case LoopTurnTimeout => a == LoopStep(TurnTimeout)
    case Engine2DispatchTimeout => a == GatewayStep(DispatchTimeout)
    case Engine2UserQueryFailed => a == GatewayStep(QueryReply(false))
    case Engine2RespondTimeout => a == GatewayStep(RespondTimeout)
    case Engine2AgentResponseFailed => a == GatewayStep(ResponseReply(false))
    case Engine3CollectTimeout => a == LlmStep(CollectTimeout)
    case Engine3LlmFailed => a == LlmStep(LlmReply(Failed))
    case Engine3ToolBatchTimeout => a == LlmStep(BatchTimeout)
    case Engine3MaxToolIterations => a == LlmStep(SeeResults)
  }

  ghost predicate Happened(actions: seq<Action>, reason: Reason)
  {
    exists a :: a in actions && Cause(reason, a)
  }

  /** A process that is about to abort, and a file that says so, do so for something that happened; tool
      rounds are only blamed after eight of them. */
  ghost predicate Inv(s: Sys, actions: seq<Action>)
  {
    && (s.loop.LoopAborting? ==> Happened(actions, LoopTurnTimeout))
    && (s.gateway.GatewayAborting? ==>
          Happened(actions, s.gateway.reason) && s.gateway.reason != Engine3MaxToolIterations)
    && (s.llm.pc.LlmAborting? ==> Blames(s, actions, s.llm.pc.reason))
    && (s.Doc().phase == ABORTED ==> s.Doc().abortReason.Some? && Blames(s, actions, s.Doc().abortReason.value))
  }

  ghost predicate Blames(s: Sys, actions: seq<Action>, reason: Reason)
  {
    Happened(actions, reason) && (reason == Engine3MaxToolIterations ==> |s.llm.rounds| >= 8)
  }

  lemma StillHappened(before: seq<Action>, a: Action)
    ensures forall reason | Happened(before, reason) :: Happened(before + [a], reason)
    ensures forall reason | Cause(reason, a) :: Happened(before + [a], reason)
  {
    var actions := before + [a];
    assert a in actions && forall b | b in before :: b in actions;
  }

  lemma LoopKeeps(s: Sys, before: seq<Action>, a: LoopAction)
    requires Inv(s, before)
    ensures Inv(LoopNext(s, a), before + [LoopStep(a)])
  {
    StillHappened(before, LoopStep(a));
  }

  lemma GatewayKeeps(s: Sys, before: seq<Action>, a: GatewayAction)
    requires Inv(s, before)
    ensures Inv(GatewayNext(s, a), before + [GatewayStep(a)])
  {
    StillHappened(before, GatewayStep(a));
  }

  /** What engine 3 can come to blame, and write. */
  lemma LlmBlames(s: Sys, a: LlmAction)
    requires s.llm.iteration == |s.llm.rounds|
    ensures var s' := LlmNext(s, a);
      && s'.loop == s.loop && s'.gateway == s.gateway && |s'.llm.rounds| >= |s.llm.rounds|
      && (s'.llm.pc.LlmAborting? ==>
            || s'.llm.pc == s.llm.pc
            || (Cause(s'.llm.pc.reason, LlmStep(a))
                && (s'.llm.pc.reason == Engine3MaxToolIterations ==> |s'.llm.rounds| >= 8)))
      && (s'.Doc().phase == ABORTED ==>
            || (s.Doc().phase == ABORTED && s'.Doc().abortReason == s.Doc().abortReason)
            || (s.llm.pc.LlmAborting? && s'.Doc().abortReason == Some(s.llm.pc.reason)))
  {
  }

  lemma LlmKeeps(s: Sys, before: seq<Action>, a: LlmAction)
    requires Inv(s, before) && s.llm.iteration == |s.llm.rounds|
    ensures Inv(LlmNext(s, a), before + [LlmStep(a)])
  {
    StillHappened(before, LlmStep(a));
    LlmBlames(s, a);
  }

  lemma ToolsKeep(s: Sys, before: seq<Action>, a: ToolsAction)
    requires Inv(s, before)
    ensures Inv(ToolsNext(s, a), before + [ToolsStep(a)])
  {
    StillHappened(before, ToolsStep(a));
  }

  lemma RoundsCounted(init: Sys, actions: seq<Action>)
    requires Init(init)
    ensures Run(init, actions).llm.iteration == |Run(init, actions).llm.rounds|
  {
    TurnSafety.InitInv(init);
    TurnSafety.RunKeeps(init, actions);
  }

  lemma {:induction false} RunKeeps(init: Sys, actions: seq<Action>)
    requires Init(init)
    ensures Inv(Run(init, actions), actions)
  {
    if actions != [] {
      var before, a := actions[..|actions| - 1], actions[|actions| - 1];
      RunKeeps(init, before);
      var s := Run(init, before);
      assert actions == before + [a];
      match a
      case LoopStep(l) => LoopKeeps(s, before, l);
      case GatewayStep(g) => GatewayKeeps(s, before, g);
      case LlmStep(m) =>
        RoundsCounted(init, before);
        LlmKeeps(s, before, m);
      case ToolsStep(t) => ToolsKeep(s, before, t);
      case MemoryStep(e) => StillHappened(before, a);
    }
  }

  /** In every run, an aborted turn names a reason, and what the reason says has happened; the limit on tool
      rounds is only named after eight rounds. */
  lemma AbortNamesCause(init: Sys, actions: seq<Action>)
    requires Init(init)
    ensures var s := Run(init, actions);
      s.Doc().phase == ABORTED ==>
        && s.Doc().abortReason.Some? && Happened(actions, s.Doc().abortReason.value)
        && (s.Doc().abortReason == Some(Engine3MaxToolIterations) ==> |s.llm.rounds| >= 8)
  {
    RunKeeps(init, actions);
  }

  // Giving up is written down

  predicate GivesUp(s: Sys, a: Action, reason: Reason, turn: Option<Uuid>)
  {
    || (a == LoopStep(LoopAbort) && s.loop.LoopAborting? && reason == LoopTurnTimeout && turn == Some(s.loop.turn))
    || (a == GatewayStep(GatewayAbort) && s.gateway == GatewayAborting(reason, turn))
    || (a == LlmStep(LlmAbort) && s.llm.pc == LlmAborting(reason, turn))
  }

  /** In any state, a process that gives up leaves a finished turn as it is, and writes ABORTED with its reason
      and its turn for any other. */
  lemma GivingUpIsWritten(s: Sys, a: Action, reason: Reason, turn: Option<Uuid>)
    requires GivesUp(s, a, reason, turn)
    ensures var doc, doc' := s.Doc(), Next(s, a).Doc();
      if doc.phase in {DONE, ABORTED} then doc' == doc
      else
        && doc'.phase == ABORTED && doc'.abortReason == Some(reason)
        && doc'.correlationId == (if turn.Some? then turn else doc.correlationId)
        && SameRest(doc, doc') && doc'.userText == doc.userText && doc'.responseText == doc.responseText
  {
  }

  // A turn is not dispatched for nothing

  /** The handshake succeeded, and both engines that the loop needs have reported, in this run or in the file
      it started from. */
  ghost predicate Prepared(init: Sys, actions: seq<Action>)
  {
    && LoopStep(Handshake(true)) in actions
    && (Engine2 in init.Doc().ready || GatewayStep(GatewayReady) in actions)
    && (Engine3 in init.Doc().ready || LlmStep(LlmReady) in actions)
  }

  ghost predicate LoopPrepared(init: Sys, s: Sys, actions: seq<Action>)
  {
    && (s.loop != LoopStart && s.loop != LoopHandshake && !s.loop.LoopReturned? ==>
          LoopStep(Handshake(true)) in actions)
    && (Engine2 in s.Doc().ready ==> Engine2 in init.Doc().ready || GatewayStep(GatewayReady) in actions)
    && (Engine3 in s.Doc().ready ==> Engine3 in init.Doc().ready || LlmStep(LlmReady) in actions)
    && (s.loop == LoopDispatch || s.loop.LoopAwaitTerminal? || s.loop.LoopAborting? || s.log != [] ==>
          Prepared(init, actions))
  }

  /** A step of another process than the loop may report itself ready, and dispatches nothing. */
  predicate Bystander(s: Sys, s': Sys, reported: set<EngineId>)
  {
    && s'.loop == s.loop && (forall e | e in s'.Doc().ready :: e in s.Doc().ready || e in reported)
    && (s.log == [] && s'.log != [] ==> !s'.log[0].Dispatched?)
  }

  lemma GatewayStandsBy(s: Sys, a: GatewayAction)
    ensures Bystander(s, GatewayNext(s, a), if a == GatewayReady then {Engine2} else {})
  {
  }

  lemma LlmStandsBy(s: Sys, a: LlmAction)
    ensures Bystander(s, LlmNext(s, a), if a == LlmReady then {Engine3} else {})
  {
  }

  lemma ToolsStandBy(s: Sys, a: ToolsAction)
    ensures Bystander(s, ToolsNext(s, a), {Engine1})
  {
  }

  lemma MemoryStandsBy(s: Sys, a: MemoryAction)
    ensures Bystander(s, MemoryNext(s, a), {Engine4})
  {
  }

  lemma OthersStandBy(s: Sys, a: Action)
    requires !a.LoopStep?
    ensures Bystander(s, Next(s, a), Reported(a))
  {
    match a
    case GatewayStep(g) => GatewayStandsBy(s, g);
    case LlmStep(m) => LlmStandsBy(s, m);
    case ToolsStep(t) => ToolsStandBy(s, t);
    case MemoryStep(e) => MemoryStandsBy(s, e);
  }

  function Reported(a: Action): set<EngineId>
  {
    if a == GatewayStep(GatewayReady) then {Engine2} else if a == LlmStep(LlmReady) then {Engine3}
    else {Engine1, Engine4}
  }

  lemma LoopGoesOn(s: Sys, a: LoopAction)
    ensures var s' := LoopNext(s, a);
      && s'.Doc().ready == s.Doc().ready
      && (s'.loop == LoopAwaitReady ==> s.loop == LoopAwaitReady || a == Handshake(true))
      && (s'.loop == LoopDispatch ==>
            s.loop == LoopDispatch
            || (s.loop == LoopAwaitReady && Engine2 in s.Doc().ready && Engine3 in s.Doc().ready))
      && (s'.loop.LoopAwaitTerminal? || s'.loop.LoopAborting? || s'.log != s.log ==>
            s.loop == LoopDispatch || s.loop.LoopAwaitTerminal? || s.loop.LoopAborting?)
  {
  }

  lemma LoopStepPrepared(init: Sys, s: Sys, before: seq<Action>, a: LoopAction)
    requires LoopPrepared(init, s, before)
    ensures LoopPrepared(init, LoopNext(s, a), before + [LoopStep(a)])
  {
    var actions := before + [LoopStep(a)];
    assert LoopStep(a) in actions && forall b | b in before :: b in actions;
    LoopGoesOn(s, a);
  }

  lemma OtherStepPrepared(init: Sys, s: Sys, s': Sys, before: seq<Action>, a: Action)
    requires LoopPrepared(init, s, before) && Bystander(s, s', Reported(a))
    requires s'.log != [] ==> s'.log[0].Dispatched?
    ensures LoopPrepared(init, s', before + [a])
  {
    var actions := before + [a];
    assert a in actions && forall b | b in before :: b in actions;
  }

  lemma FirstMilestone(init: Sys, actions: seq<Action>)
    requires Init(init)
    ensures Run(init, actions).log != [] ==> Run(init, actions).log[0].Dispatched?
  {
    TurnSafety.InitInv(init);
    TurnSafety.RunKeeps(init, actions);
  }

  lemma {:induction false} RunPrepared(init: Sys, actions: seq<Action>)
    requires Init(init)
    ensures LoopPrepared(init, Run(init, actions), actions)
  {
    if actions != [] {
      var before, a := actions[..|actions| - 1], actions[|actions| - 1];
      RunPrepared(init, before);
      assert actions == before + [a];
      if a.LoopStep? {
        LoopStepPrepared(init, Run(init, before), before, a.l);
      } else {
        OthersStandBy(Run(init, before), a);
        FirstMilestone(init, actions);
        OtherStepPrepared(init, Run(init, before), Run(init, actions), before, a);
      }
    }
  }

  /** In every run, a turn is dispatched, and anything further happens, only after a successful handshake and
      after both engines have reported. */
  lemma DispatchIsEarned(init: Sys, actions: seq<Action>)
    requires Init(init)
    ensures Run(init, actions).log != [] ==> Prepared(init, actions)
  {
    RunPrepared(init, actions);
  }
}
