/** What every interleaving of a turn keeps: DONE is written only at the end of a complete turn and
    is final, while ABORTED may be overwritten. */
module TurnSafety {
  import opened Common
  import opened Coordinator
  import opened TurnProtocol

  /** The log is an initial part of: dispatched, query accepted, LLM loop finished, answered, response
      accepted, completed; all for one turn, with the LLM's text carried by the answer and by the
      response. */
  ghost predicate Orderly(log: seq<Milestone>)
  {
    && |log| <= 6
    && (|log| > 0 ==> log[0].Dispatched?)
    && (|log| > 1 ==> log[1].QueryAccepted? && log[1].turn == log[0].turn)
    && (|log| > 2 ==> log[2].LlmFinished? && log[2].turn == log[0].turn)
    && (|log| > 3 ==> log[3] == Answered(log[0].turn, log[1].text, log[2].text))
    && (|log| > 4 ==> log[4] == ResponseAccepted(log[0].turn, log[2].text))
    && (|log| > 5 ==> log[5] == Completed(log[0].turn))
  }

  /** A reply without tool calls ends the loop with its text. */
  predicate Final(reply: Reply, text: string)
  {
    match reply
    case Failed => false
    case Answer(content) => content == text
    case CallTools(content, raw, _) => raw == [] && content == text
  }

  /** The calls are published under the provider's ids; one without an id gets the one drawn for it. */
  predicate Identified(raw: seq<RawCall>, drawn: seq<string>, calls: seq<ToolCall>)
  {
    && |calls| == |raw| == |drawn|
    && forall i | 0 <= i < |raw| ::
         && (raw[i].id.NoId? ==> calls[i].id == drawn[i])
         && (raw[i].id.NullId? ==> calls[i].id == "None")
         && (raw[i].id.GivenId? ==> calls[i].id == raw[i].id.id)
  }

  /** A reply with tool calls leads to a round about exactly these calls. */
  predicate Continues(reply: Reply, round: Round)
  {
    && reply.CallTools? && reply.raw != [] && reply.content == round.content && reply.raw == round.raw
    && Identified(reply.raw, reply.freshIds, round.published)
  }

  ghost predicate EachContinues(replies: seq<Reply>, rounds: seq<Round>)
  {
    |rounds| <= |replies| && forall i | 0 <= i < |rounds| :: Continues(replies[i], rounds[i])
  }

  /** The LLM loop ended well: every reply but the last asked for tools and got its round, the last one
      is the text, and there were no more requests than the limit. */
  ghost predicate Finished(e: LlmEngine, text: string)
  {
    && |e.replies| == |e.rounds| + 1 <= 8
    && EachContinues(e.replies, e.rounds)
    && Final(e.replies[|e.rounds|], text)
  }

  /** The replies received so far, against the rounds completed and the program counter. */
  ghost predicate RepliesInv(s: Sys)
  {
    var e := s.llm;
    && e.iteration == |e.rounds| && EachContinues(e.replies, e.rounds)
    && (match e.pc
        case LlmBoot | LlmAwaitCollect | LlmReadTurn | LlmReadText(_) => |e.replies| == 0
        case LlmRequest(_) => |e.replies| == |e.rounds| < MAX_TOOL_ITERATIONS
        case LlmPublish(_, content, raw, calls) => Pending(e, content, raw, calls)
        case LlmAwaitBatch(_, content, raw, _, calls) => Pending(e, content, raw, calls)
        case _ => true)
    && (|s.log| > 2 ==> s.log[2].LlmFinished? && Finished(e, s.log[2].text))
  }

  /** The last reply asked for the calls that engine 3 is busy with. */
  ghost predicate Pending(e: LlmEngine, content: string, raw: seq<RawCall>, calls: seq<ToolCall>)
  {
    && |e.replies| == |e.rounds| + 1 <= MAX_TOOL_ITERATIONS
    && var last := e.replies[|e.rounds|];
       && last.CallTools? && last.raw != [] && last.content == content && last.raw == raw
       && Identified(raw, last.freshIds, calls)
  }

  /** Before dispatch the loop is on its way to it; afterwards it can only read or abort. */
  ghost predicate LoopInv(s: Sys)
  {
    match s.loop
    case LoopAwaitTerminal(turn) => |s.log| > 0 && s.log[0] == Dispatched(turn)
    case LoopAborting(turn) => |s.log| > 0 && s.log[0] == Dispatched(turn)
    case LoopReturned(ok) => ok ==> |s.log| == 6
    case _ => |s.log| == 0
  }

  ghost predicate GatewayInv(s: Sys)
    requires Orderly(s.log)
  {
    var n := |s.log|;
    match s.gateway
    case GatewayBoot => n <= 1
    case GatewayAwaitDispatch => n <= 1
    case GatewayReadTurn => n == 1
    case GatewaySubmitQuery(turn, _) => n == 1 && turn == s.log[0].turn
    case GatewayWriteCollect(turn, text) =>
      n == 2 && s.log[1] == QueryAccepted(turn, text) && !CollectSeen(s) && s.Doc().phase != COLLECT
    case GatewayAwaitRespond(turn) => 2 <= n <= 4 && turn == s.log[0].turn
    case GatewayReadResponse(turn) => n == 4 && turn == s.log[0].turn
    case GatewaySubmitResponse(turn, text) => n == 4 && turn == s.log[0].turn && text == s.log[2].text
    case GatewayWriteDone(turn) => n == 5 && turn == s.log[0].turn
    case GatewayAborting(_, turn) => n <= 4 && (turn.Some? ==> n >= 1 && turn.value == s.log[0].turn)
    case GatewayExit => true
  }

  /** Engine 3 has read phase COLLECT and has not yet finished. */
  predicate CollectSeen(s: Sys)
  {
    match s.llm.pc
    case LlmReadTurn | LlmReadText(_) | LlmRequest(_) | LlmPublish(_, _, _, _)
       | LlmAwaitBatch(_, _, _, _, _) | LlmWriteRespond(_, _) => true
    case _ => false
  }

  ghost predicate LlmInv(s: Sys)
    requires Orderly(s.log)
  {
    && (CollectSeen(s) ==>
          && |s.log| == (if s.llm.pc.LlmWriteRespond? then 3 else 2)
          && s.Doc().userText == Some(s.log[1].text)
          && (s.Doc().phase == COLLECT || s.Doc().phase == ABORTED))
    && (match s.llm.pc
        case LlmReadText(turn) => turn == s.log[0].turn
        case LlmRequest(turn) => turn == s.log[0].turn && s.llm.userText == s.log[1].text
        case LlmPublish(turn, _, _, _) => turn == s.log[0].turn && s.llm.userText == s.log[1].text
        case LlmAwaitBatch(turn, _, _, _, _) => turn == s.log[0].turn && s.llm.userText == s.log[1].text
        case LlmWriteRespond(turn, text) =>
          turn == s.log[0].turn && s.llm.userText == s.log[1].text && text == s.log[2].text
        case LlmAborting(_, turn) => |s.log| <= 2 && (turn.Some? ==> |s.log| == 2 && turn.value == s.log[0].turn)
        case LlmExit => true
        case _ => |s.log| <= 2)
    && (|s.log| > 2 ==> s.llm.userText == s.log[1].text)
  }

  /** The phase agrees with the progress recorded in the log. */
  ghost predicate PhaseInv(s: Sys)
    requires Orderly(s.log)
  {
    var n, doc := |s.log|, s.Doc();
    && (doc.phase == DONE <==> n == 6)
    && (doc.phase == RESPOND ==> 4 <= n <= 5)
    && (doc.phase == COLLECT ==> 2 <= n <= 3 && doc.userText == Some(s.log[1].text))
    && (doc.phase == DISPATCH ==> 1 <= n <= 2)
    && (doc.phase == INIT || doc.phase == RECEIVE ==> n == 0)
    && (n >= 1 ==> doc.correlationId == Some(s.log[0].turn))
    && (n >= 4 ==> doc.responseText == Some(s.log[2].text))
    && (n >= 3 ==> s.llm.pc == LlmExit || s.llm.pc.LlmWriteRespond?)
    && (n >= 4 ==> s.llm.pc == LlmExit)
    && (n == 6 ==> s.gateway == GatewayExit)
  }

  ghost predicate Inv(s: Sys)
  {
    Orderly(s.log) && LoopInv(s) && GatewayInv(s) && LlmInv(s) && PhaseInv(s) && RepliesInv(s)
  }

  lemma InitInv(s: Sys)
    requires Init(s)
    ensures Inv(s)
  {
  }

  lemma LoopKeepsLog(s: Sys, a: LoopAction)
    requires Inv(s)
    ensures Orderly(LoopNext(s, a).log) && LoopInv(LoopNext(s, a))
  {
  }

  /** Only engine 3 adds replies and rounds, and only it finishes the LLM loop. */
  lemma RepliesSame(s: Sys, s': Sys)
    requires RepliesInv(s) && s'.llm == s.llm
    requires |s'.log| > 2 ==> |s.log| > 2 && s'.log[2] == s.log[2]
    ensures RepliesInv(s')
  {
  }

  lemma LoopKeepsGateway(s: Sys, a: LoopAction)
    requires Inv(s) && Orderly(LoopNext(s, a).log)
    ensures GatewayInv(LoopNext(s, a))
  {
  }

  lemma LoopKeepsLlm(s: Sys, a: LoopAction)
    requires Inv(s) && Orderly(LoopNext(s, a).log)
    ensures LlmInv(LoopNext(s, a))
  {
  }

  lemma LoopKeepsPhase(s: Sys, a: LoopAction)
    requires Inv(s) && Orderly(LoopNext(s, a).log)
    ensures PhaseInv(LoopNext(s, a))
  {
  }

  lemma LoopKeepsReplies(s: Sys, a: LoopAction)
    requires Inv(s)
    ensures RepliesInv(LoopNext(s, a))
  {
    RepliesSame(s, LoopNext(s, a));
  }

  lemma LoopKeeps(s: Sys, a: LoopAction)
    requires Inv(s)
    ensures Inv(LoopNext(s, a))
  {
    LoopKeepsLog(s, a);
    LoopKeepsGateway(s, a);
    LoopKeepsLlm(s, a);
    LoopKeepsPhase(s, a);
    LoopKeepsReplies(s, a);
  }

  lemma GatewayKeepsLog(s: Sys, a: GatewayAction)
    requires Inv(s)
    ensures Orderly(GatewayNext(s, a).log)
  {
  }

  lemma GatewayKeepsLoop(s: Sys, a: GatewayAction)
    requires Inv(s) && Orderly(GatewayNext(s, a).log)
    ensures LoopInv(GatewayNext(s, a))
  {
  }

  lemma GatewayKeepsReplies(s: Sys, a: GatewayAction)
    requires Inv(s) && Orderly(GatewayNext(s, a).log)
    ensures RepliesInv(GatewayNext(s, a))
  {
    RepliesSame(s, GatewayNext(s, a));
  }

  lemma GatewayKeepsOwn(s: Sys, a: GatewayAction)
    requires Inv(s) && Orderly(GatewayNext(s, a).log)
    ensures GatewayInv(GatewayNext(s, a))
  {
  }

  lemma GatewayKeepsLlm(s: Sys, a: GatewayAction)
    requires Inv(s) && Orderly(GatewayNext(s, a).log)
    ensures LlmInv(GatewayNext(s, a))
  {
  }

  lemma GatewayKeepsPhase(s: Sys, a: GatewayAction)
    requires Inv(s) && Orderly(GatewayNext(s, a).log)
    ensures PhaseInv(GatewayNext(s, a))
  {
  }

  lemma GatewayKeeps(s: Sys, a: GatewayAction)
    requires Inv(s)
    ensures Inv(GatewayNext(s, a))
  {
    GatewayKeepsLog(s, a);
    GatewayKeepsLoop(s, a);
    GatewayKeepsReplies(s, a);
    GatewayKeepsOwn(s, a);
    GatewayKeepsLlm(s, a);
    GatewayKeepsPhase(s, a);
  }

  lemma LlmKeepsLog(s: Sys, a: LlmAction)
    requires Inv(s) && !a.LlmReply?
    ensures Orderly(LlmNext(s, a).log)
  {
  }

  lemma LlmKeepsLoop(s: Sys, a: LlmAction)
    requires Inv(s) && !a.LlmReply? && Orderly(LlmNext(s, a).log)
    ensures LoopInv(LlmNext(s, a))
  {
  }

  lemma LlmKeepsGateway(s: Sys, a: LlmAction)
    requires Inv(s) && !a.LlmReply? && Orderly(LlmNext(s, a).log)
    ensures GatewayInv(LlmNext(s, a))
  {
  }

  lemma LlmKeepsOwn(s: Sys, a: LlmAction)
    requires Inv(s) && !a.LlmReply? && Orderly(LlmNext(s, a).log)
    ensures LlmInv(LlmNext(s, a))
  {
  }

  lemma LlmKeepsPhase(s: Sys, a: LlmAction)
    requires Inv(s) && !a.LlmReply? && Orderly(LlmNext(s, a).log)
    ensures PhaseInv(LlmNext(s, a))
  {
  }

  lemma ReplyKeepsOthers(s: Sys, turn: Uuid, reply: Reply)
    requires Inv(s) && s.llm.pc == LlmRequest(turn)
    ensures var s' := LlmReplied(s, turn, reply); Orderly(s'.log) && LoopInv(s') && GatewayInv(s')
  {
  }

  lemma ReplyKeepsOwn(s: Sys, turn: Uuid, reply: Reply)
    requires Inv(s) && s.llm.pc == LlmRequest(turn) && Orderly(LlmReplied(s, turn, reply).log)
    ensures LlmInv(LlmReplied(s, turn, reply)) && PhaseInv(LlmReplied(s, turn, reply))
  {
  }

  lemma ReplyKeepsReplies(s: Sys, turn: Uuid, reply: Reply)
    requires Inv(s) && s.llm.pc == LlmRequest(turn)
    ensures RepliesInv(LlmReplied(s, turn, reply))
  {
  }

  lemma ContinueKeepsReplies(s: Sys, results: seq<ToolResult>)
    requires Inv(s) && s.llm.pc.LlmAwaitBatch?
    ensures RepliesInv(LlmContinue(s, s.llm.pc, results))
  {
  }

  /** No other step touches replies or rounds. */
  lemma RepliesFrame(s: Sys, a: LlmAction)
    requires Inv(s) && !a.LlmReply? && !a.SeeResults?
    ensures RepliesInv(LlmNext(s, a))
  {
    var e, e' := s.llm, LlmNext(s, a).llm;
    assert e'.replies == e.replies && e'.rounds == e.rounds && e'.iteration == e.iteration;
  }

  lemma LlmKeepsReplies(s: Sys, a: LlmAction)
    requires Inv(s) && !a.LlmReply?
    ensures RepliesInv(LlmNext(s, a))
  {
    if !a.SeeResults? {
      RepliesFrame(s, a);
    } else if s.llm.pc.LlmAwaitBatch? {
      ContinueKeepsReplies(s, if s.Doc().toolResults.Some? then s.Doc().toolResults.value else []);
    }
  }

  lemma LlmKeeps(s: Sys, a: LlmAction)
    requires Inv(s)
    ensures Inv(LlmNext(s, a))
  {
    if !a.LlmReply? {
      LlmKeepsLog(s, a);
      LlmKeepsLoop(s, a);
      LlmKeepsGateway(s, a);
      LlmKeepsOwn(s, a);
      LlmKeepsPhase(s, a);
      LlmKeepsReplies(s, a);
    } else if s.llm.pc.LlmRequest? {
      ReplyKeepsOthers(s, s.llm.pc.turn, a.reply);
      ReplyKeepsOwn(s, s.llm.pc.turn, a.reply);
      ReplyKeepsReplies(s, s.llm.pc.turn, a.reply);
    }
  }

  /** Nothing outside the tools engine depends on what that engine writes. */
  ghost predicate SameTurn(s: Sys, s': Sys)
  {
    && s'.loop == s.loop && s'.gateway == s.gateway && s'.llm == s.llm && s'.log == s.log
    && s'.Doc().phase == s.Doc().phase
    && s'.Doc().correlationId == s.Doc().correlationId
    && s'.Doc().userText == s.Doc().userText
    && s'.Doc().responseText == s.Doc().responseText
  }

  lemma SameTurnKeeps(s: Sys, s': Sys)
    requires Inv(s) && SameTurn(s, s')
    ensures Inv(s')
  {
  }

  lemma ToolsFrame(s: Sys, a: ToolsAction)
    ensures SameTurn(s, ToolsNext(s, a))
  {
  }

  lemma NextKeeps(s: Sys, a: Action)
    requires Inv(s)
    ensures Inv(Next(s, a))
  {
    match a
    case LoopStep(l) => LoopKeeps(s, l);
    case GatewayStep(g) => GatewayKeeps(s, g);
    case LlmStep(m) => LlmKeeps(s, m);
    case ToolsStep(t) => ToolsFrame(s, t); SameTurnKeeps(s, ToolsNext(s, t));
    case MemoryStep(e) => SameTurnKeeps(s, MemoryNext(s, e));
  }

  /** The invariant holds in every state of every interleaving. */
  lemma {:induction false} RunKeeps(s: Sys, actions: seq<Action>)
    requires Inv(s)
    ensures Inv(Run(s, actions))
    decreases |actions|
  {
    if actions != [] {
      RunKeeps(s, actions[..|actions| - 1]);
      NextKeeps(Run(s, actions[..|actions| - 1]), actions[|actions| - 1]);
    }
  }

  lemma {:induction false} RunConcat(s: Sys, xs: seq<Action>, ys: seq<Action>)
    ensures Run(s, xs + ys) == Run(Run(s, xs), ys)
    decreases |ys|
  {
    if ys == [] {
      assert xs + ys == xs;
    } else {
      var k := |ys| - 1;
      assert (xs + ys)[..|xs + ys| - 1] == xs + ys[..k];
      RunConcat(s, xs, ys[..k]);
    }
  }

  // The user's own text

  /** Action `i` is where the gateway picked up the turn with this text from the user; without one it
      greets. */
  ghost predicate PickedUp(init: Sys, actions: seq<Action>, i: nat, query: string)
  {
    && i < |actions| && Run(init, actions[..i]).gateway == GatewayReadTurn
    && actions[i].GatewayStep? && actions[i].g.ReadTurn?
    && query == if actions[i].g.text != "" then actions[i].g.text else "Hello from gateway"
  }

  ghost predicate UserGave(init: Sys, actions: seq<Action>, query: string)
  {
    exists i :: PickedUp(init, actions, i, query)
  }

  ghost predicate QueryInv(init: Sys, actions: seq<Action>)
  {
    var s := Run(init, actions);
    && (s.gateway.GatewaySubmitQuery? ==> UserGave(init, actions, s.gateway.text))
    && (|s.log| > 1 && s.log[1].QueryAccepted? ==> UserGave(init, actions, s.log[1].text))
  }

  lemma StillGave(init: Sys, actions: seq<Action>, query: string)
    requires actions != [] && UserGave(init, actions[..|actions| - 1], query)
    ensures UserGave(init, actions, query)
  {
    var i: nat :| PickedUp(init, actions[..|actions| - 1], i, query);
    assert actions[..|actions| - 1][..i] == actions[..i];
    assert PickedUp(init, actions, i, query);
  }

  lemma GatewayQuery(s: Sys, a: GatewayAction)
    requires Inv(s)
    ensures var s' := GatewayNext(s, a);
      && (s'.gateway.GatewaySubmitQuery? ==>
            || s'.gateway == s.gateway
            || (s.gateway == GatewayReadTurn && a.ReadTurn?
                && s'.gateway.text == if a.text != "" then a.text else "Hello from gateway"))
      && (|s'.log| > 1 ==>
            || (|s.log| > 1 && s'.log[1] == s.log[1])
            || (s.gateway.GatewaySubmitQuery? && s'.log[1] == QueryAccepted(s.gateway.turn, s.gateway.text)))
  {
  }

  lemma OtherQuery(s: Sys, a: Action)
    requires Inv(s) && !a.GatewayStep?
    ensures var s' := Next(s, a);
      s'.gateway == s.gateway && (|s'.log| > 1 ==> |s.log| > 1 && s'.log[1] == s.log[1])
  {
    match a
    case LoopStep(l) =>
    case LlmStep(m) =>
    case ToolsStep(t) => ToolsFrame(s, t);
    case MemoryStep(e) =>
  }

  lemma {:induction false} QueryIsUsers(init: Sys, actions: seq<Action>)
    requires Init(init)
    ensures QueryInv(init, actions)
    decreases |actions|
  {
    if actions != [] {
      var before, a := actions[..|actions| - 1], actions[|actions| - 1];
      var s := Run(init, before);
      QueryIsUsers(init, before);
      InitInv(init);
      RunKeeps(init, before);
      if a.GatewayStep? {
        GatewayQuery(s, a.g);
      } else {
        OtherQuery(s, a);
      }
      if s.gateway.GatewaySubmitQuery? {
        StillGave(init, actions, s.gateway.text);
      } else if s.gateway == GatewayReadTurn && a.GatewayStep? && a.g.ReadTurn? {
        assert PickedUp(init, actions, |before|, Run(init, actions).gateway.text);
      }
      if |s.log| > 1 {
        StillGave(init, actions, s.log[1].text);
      }
    }
  }

  /** Whatever the interleaving, phase DONE means that the loop dispatched the turn, the user's own text was
      accepted as the query, engine 3 finished its LLM loop with a text and answered that very query with
      it, the response carrying this text was accepted, and only then was DONE written: these six events,
      in this order, once each.  Finishing means that the last of at most eight replies was the text and
      every earlier one asked for tools and got its round. */
  lemma DoneMeansFullTurn(init: Sys, actions: seq<Action>)
    requires Init(init)
    ensures var s := Run(init, actions);
      s.Doc().phase == DONE <==>
      (exists turn: Uuid, query, text ::
        && s.log == [Dispatched(turn), QueryAccepted(turn, query), LlmFinished(turn, text),
                     Answered(turn, query, text), ResponseAccepted(turn, text), Completed(turn)]
        && UserGave(init, actions, query) && Finished(s.llm, text) && s.llm.userText == query
        && s.Doc().correlationId == Some(turn) && s.Doc().responseText == Some(text))
  {
    InitInv(init);
    RunKeeps(init, actions);
    QueryIsUsers(init, actions);
    var s := Run(init, actions);
    if s.Doc().phase == DONE {
      var turn, query, text := s.log[0].turn, s.log[1].text, s.log[2].text;
      assert s.log == [Dispatched(turn), QueryAccepted(turn, query), LlmFinished(turn, text),
                       Answered(turn, query, text), ResponseAccepted(turn, text), Completed(turn)];
    }
  }

  /** Once DONE is written, no continuation changes the phase, the turn id or the response text. */
  lemma {:induction false} DoneIsFinal(init: Sys, before: seq<Action>, after: seq<Action>)
    requires Init(init)
    requires Run(init, before).Doc().phase == DONE
    ensures var s, s' := Run(init, before), Run(init, before + after);
      && s'.Doc().phase == DONE && s'.log == s.log
      && s'.Doc().correlationId == s.Doc().correlationId
      && s'.Doc().responseText == s.Doc().responseText
    decreases |after|
  {
    if after == [] {
      assert before + after == before;
    } else {
      var k := |after| - 1;
      assert (before + after)[..|before + after| - 1] == before + after[..k];
      DoneIsFinal(init, before, after[..k]);
      InitInv(init);
      RunKeeps(init, before + after[..k]);
      DoneStep(Run(init, before + after[..k]), after[k]);
    }
  }

  lemma DoneStep(s: Sys, a: Action)
    requires Inv(s) && s.Doc().phase == DONE
    ensures var s' := Next(s, a);
      && s'.Doc().phase == DONE && s'.log == s.log
      && s'.Doc().correlationId == s.Doc().correlationId
      && s'.Doc().responseText == s.Doc().responseText
  {
  }

  /** The loop reports success only for a turn that reached DONE, which it then still is. */
  lemma LoopSuccessMeansDone(init: Sys, actions: seq<Action>)
    requires Init(init)
    requires Run(init, actions).loop == LoopReturned(true)
    ensures Run(init, actions).Doc().phase == DONE
  {
    InitInv(init);
    RunKeeps(init, actions);
  }
}
