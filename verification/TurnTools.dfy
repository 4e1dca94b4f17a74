/** The tool loop of a turn: batches are answered at most once, engine 3's transcript pairs every
    published call with its result, and the number of LLM requests is bounded. */
module TurnTools {
  import opened Common
  import opened Coordinator
  import opened TurnProtocol

  /** One result per call, in order, under the call's own id and name. */
  ghost predicate Answers(calls: seq<ToolCall>, results: seq<ToolResult>)
  {
    && |results| == |calls|
    && forall i | 0 <= i < |calls| :: results[i].id == calls[i].id && results[i].name == calls[i].name
  }

  /** The calls were published from the provider's list, one for one; an id the provider gave is kept. */
  ghost predicate PublishedFrom(raw: seq<RawCall>, calls: seq<ToolCall>)
  {
    && |calls| == |raw| > 0
    && forall i | 0 <= i < |raw| ::
         && calls[i].name == raw[i].name && calls[i].arguments == raw[i].arguments
         && (raw[i].id.GivenId? ==> calls[i].id == raw[i].id.id)
         && (raw[i].id.NullId? ==> calls[i].id == "None")
  }

  ghost predicate Distinct(ids: seq<Uuid>)
  {
    forall i, j | 0 <= i < j < |ids| :: ids[i] != ids[j]
  }

  /** Batch ids are drawn once, so a pending batch is the one published under its id and unanswered. */
  ghost predicate FileInv(s: Sys)
  {
    var doc := s.Doc();
    && s.published.Keys <= s.used
    && (forall b | b in s.completions :: b in s.used)
    && Distinct(s.completions)
    && (doc.batchId.Some? ==> doc.batchId.value in s.used)
    && (doc.batchId.Some? && doc.batchStatus == Pending ==>
          && doc.batchId.value in s.published
          && s.published[doc.batchId.value] == doc.pendingCalls
          && doc.batchId.value !in s.completions)
    && (doc.batchId.Some? && doc.batchId.value in s.published && doc.batchId.value !in s.completions ==>
          doc.batchStatus == Pending)
  }

  ghost predicate Offered(s: Sys, batch: Uuid, calls: seq<ToolCall>)
  {
    batch in s.published && s.published[batch] == calls
  }

  /** Engine 1 works through a published batch in order. */
  ghost predicate ToolsInv(s: Sys)
  {
    match s.tools
    case ToolsRun(batch, calls, results) =>
      Offered(s, batch, calls) && |results| <= |calls| && Answers(calls[..|results|], results)
    case ToolsComplete(batch, calls, results) => Offered(s, batch, calls) && Answers(calls, results)
    case _ => true
  }

  /** The file holds the batch engine 3 waits for, unanswered or answered in full. */
  ghost predicate WaitInv(s: Sys)
  {
    match s.llm.pc
    case LlmPublish(_, _, raw, calls) => PublishedFrom(raw, calls)
    case LlmAwaitBatch(_, _, raw, batch, calls) =>
      && PublishedFrom(raw, calls) && Offered(s, batch, calls)
      && s.Doc().batchId == Some(batch)
      && (s.Doc().batchStatus == Pending || Recorded(s, batch, calls))
    case _ => true
  }

  ghost predicate Recorded(s: Sys, batch: Uuid, calls: seq<ToolCall>)
  {
    && s.Doc().batchStatus == Complete && batch in s.completions
    && s.Doc().toolResults.Some? && Answers(calls, s.Doc().toolResults.value)
  }

  /** The transcript that a history of tool rounds stands for. */
  function Transcript(userText: string, rounds: seq<Round>): (ms: seq<Message>)
    ensures |ms| > 0
  {
    if rounds == [] then [UserMessage(userText)]
    else
      var last := rounds[|rounds| - 1];
      Transcript(userText, rounds[..|rounds| - 1])
        + [AssistantMessage(last.content, last.raw)] + ToolMessages(last.results)
  }

  ghost predicate RoundOk(s: Sys, r: Round)
  {
    && PublishedFrom(r.raw, r.published)
    && Offered(s, r.batch, r.published) && Answers(r.published, r.results)
    && r.batch in s.completions
  }

  ghost predicate TranscriptInv(s: Sys)
  {
    var e := s.llm;
    && e.iteration == |e.rounds| <= MAX_TOOL_ITERATIONS
    && (forall i | 0 <= i < |e.rounds| :: RoundOk(s, e.rounds[i]))
    && (e.messages == Transcript(e.userText, e.rounds) || (e.messages == [] && e.rounds == []))
    && e.iteration <= |e.replies| <= e.iteration + 1 && |e.replies| <= MAX_TOOL_ITERATIONS
    && (match e.pc
        case LlmRequest(_) =>
          |e.replies| == e.iteration < MAX_TOOL_ITERATIONS && e.messages != []
        case LlmPublish(_, _, _, _) =>
          |e.replies| == e.iteration + 1 <= MAX_TOOL_ITERATIONS && e.messages != []
        case LlmAwaitBatch(_, _, _, _, _) =>
          |e.replies| == e.iteration + 1 <= MAX_TOOL_ITERATIONS && e.messages != []
        case LlmBoot | LlmAwaitCollect | LlmReadTurn | LlmReadText(_) =>
          |e.replies| == 0 && e.rounds == []
        case _ => true)
  }

  ghost predicate Inv(s: Sys)
  {
    FileInv(s) && ToolsInv(s) && WaitInv(s) && TranscriptInv(s)
  }

  lemma InitInv(s: Sys)
    requires Init(s)
    ensures Inv(s)
  {
  }

  /** `s'` differs from `s` only in what the tool loop does not look at. */
  ghost predicate SameBatch(s: Sys, s': Sys)
  {
    && s'.used >= s.used && s'.published == s.published && s'.completions == s.completions
    && s'.Doc().batchId == s.Doc().batchId
    && s'.Doc().batchStatus == s.Doc().batchStatus
    && s'.Doc().pendingCalls == s.Doc().pendingCalls
    && s'.Doc().toolResults == s.Doc().toolResults
  }

  lemma LoopFrame(s: Sys, a: LoopAction)
    ensures SameBatch(s, LoopNext(s, a))
    ensures LoopNext(s, a).tools == s.tools && LoopNext(s, a).llm == s.llm
  {
  }

  lemma GatewayFrame(s: Sys, a: GatewayAction)
    ensures SameBatch(s, GatewayNext(s, a))
    ensures GatewayNext(s, a).tools == s.tools && GatewayNext(s, a).llm == s.llm
  {
  }

  lemma SameBatchKeeps(s: Sys, s': Sys)
    requires Inv(s) && SameBatch(s, s') && s'.tools == s.tools && s'.llm == s.llm
    ensures Inv(s')
  {
    TranscriptFrame(s, s');
  }

  lemma TranscriptFrame(s: Sys, s': Sys)
    requires TranscriptInv(s) && s'.llm == s.llm
    requires forall b | b in s.published :: b in s'.published && s'.published[b] == s.published[b]
    requires forall b | b in s.completions :: b in s'.completions
    ensures TranscriptInv(s')
  {
    assert forall i | 0 <= i < |s.llm.rounds| :: RoundOk(s, s.llm.rounds[i]) ==> RoundOk(s', s.llm.rounds[i]);
  }

  lemma CompleteKeeps(s: Sys)
    requires Inv(s)
    ensures Inv(ToolsNext(s, RecordResults))
  {
    var s' := ToolsNext(s, RecordResults);
    TranscriptFrame(s, s');
    if s.tools.ToolsComplete? {
      assert Answers(s.tools.calls, s.tools.results);
    }
  }

  lemma RunToolKeeps(s: Sys, result: Option<string>)
    requires Inv(s)
    ensures Inv(ToolsNext(s, RunTool(result)))
  {
    var s' := ToolsNext(s, RunTool(result));
    if s.tools.ToolsRun? && |s.tools.results| < |s.tools.calls| {
      var calls, results, results' := s.tools.calls, s.tools.results, s'.tools.results;
      assert forall i | 0 <= i < |results| ::
        calls[..|results|][i] == calls[..|results'|][i] && results'[i] == results[i];
      assert Answers(calls[..|results'|], results');
    }
    TranscriptFrame(s, s');
  }

  lemma MergeKeeps(s: Sys, notes: map<string, string>)
    requires Inv(s)
    ensures Inv(ToolsNext(s, MergeResults(notes)))
  {
    var s' := ToolsNext(s, MergeResults(notes));
    if s.tools.ToolsRun? && |s.tools.results| == |s.tools.calls| {
      assert s.tools.calls[..|s.tools.results|] == s.tools.calls;
    }
    TranscriptFrame(s, s');
  }

  lemma ToolsKeep(s: Sys, a: ToolsAction)
    requires Inv(s)
    ensures Inv(ToolsNext(s, a))
  {
    if a.RecordResults? {
      CompleteKeeps(s);
    } else if a.RunTool? {
      RunToolKeeps(s, a.result);
    } else if a.MergeResults? {
      MergeKeeps(s, a.notes);
    } else {
      TranscriptFrame(s, ToolsNext(s, a));
    }
  }

  lemma PublishKeeps(s: Sys, batch: Uuid)
    requires Inv(s)
    ensures Inv(LlmNext(s, Publish(batch)))
  {
    var s' := LlmNext(s, Publish(batch));
    if s.llm.pc.LlmPublish? && batch !in s.used {
      assert forall i | 0 <= i < |s.llm.rounds| ::
        RoundOk(s, s.llm.rounds[i]) ==> RoundOk(s', s.llm.rounds[i]);
    }
  }

  lemma ContinueKeeps(s: Sys)
    requires Inv(s) && s.llm.pc.LlmAwaitBatch? && Recorded(s, s.llm.pc.batch, s.llm.pc.calls)
    ensures TranscriptInv(LlmContinue(s, s.llm.pc, s.Doc().toolResults.value))
  {
    var s', pc := LlmContinue(s, s.llm.pc, s.Doc().toolResults.value), s.llm.pc;
    var rounds, rounds' := s.llm.rounds, s'.llm.rounds;
    assert rounds'[..|rounds|] == rounds;
    assert RoundOk(s', rounds'[|rounds|]);
    assert forall i | 0 <= i < |rounds| :: RoundOk(s, rounds[i]) && rounds'[i] == rounds[i] ==> RoundOk(s', rounds'[i]);
  }

  lemma SeeResultsKeeps(s: Sys)
    requires Inv(s)
    ensures Inv(LlmNext(s, SeeResults))
  {
    var s', pc := LlmNext(s, SeeResults), s.llm.pc;
    if pc.LlmAwaitBatch? && s.Doc().batchStatus == Complete {
      ContinueKeeps(s);
      assert s' == LlmContinue(s, pc, s.Doc().toolResults.value);
    }
  }

  lemma ReplyKeeps(s: Sys, reply: Reply)
    requires Inv(s)
    ensures Inv(LlmNext(s, LlmReply(reply)))
  {
    var s' := LlmNext(s, LlmReply(reply));
    RoundsFrame(s, s');
    if s.llm.pc.LlmRequest? {
      ReplyWaits(s, s.llm.pc.turn, reply);
    }
  }

  lemma ReplyWaits(s: Sys, turn: Uuid, reply: Reply)
    ensures var s' := LlmReplied(s, turn, reply);
      && SameBatch(s, s') && s'.tools == s.tools
      && (s' == s || WaitInv(s'))
  {
  }

  lemma RoundsFrame(s: Sys, s': Sys)
    requires TranscriptInv(s) && s'.llm.rounds == s.llm.rounds
    requires s'.published == s.published && s'.completions == s.completions
    ensures forall i | 0 <= i < |s'.llm.rounds| :: RoundOk(s', s'.llm.rounds[i])
  {
    forall i | 0 <= i < |s'.llm.rounds|
      ensures RoundOk(s', s'.llm.rounds[i])
    {
      assert RoundOk(s, s.llm.rounds[i]);
    }
  }

  lemma LlmFrame(s: Sys, a: LlmAction)
    requires !a.Publish? && !a.SeeResults?
    ensures SameBatch(s, LlmNext(s, a)) && LlmNext(s, a).tools == s.tools
    ensures LlmNext(s, a).llm.rounds == s.llm.rounds
  {
  }

  lemma LlmOtherKeeps(s: Sys, a: LlmAction)
    requires Inv(s) && !a.Publish? && !a.SeeResults? && !a.LlmReply?
    ensures Inv(LlmNext(s, a))
  {
    var s' := LlmNext(s, a);
    LlmFrame(s, a);
    RoundsFrame(s, s');
    assert WaitInv(s');
  }

  lemma LlmKeeps(s: Sys, a: LlmAction)
    requires Inv(s)
    ensures Inv(LlmNext(s, a))
  {
    if a.Publish? {
      PublishKeeps(s, a.batch);
    } else if a.SeeResults? {
      SeeResultsKeeps(s);
    } else if a.LlmReply? {
      ReplyKeeps(s, a.reply);
    } else {
      LlmOtherKeeps(s, a);
    }
  }

  lemma NextKeeps(s: Sys, a: Action)
    requires Inv(s)
    ensures Inv(Next(s, a))
  {
    match a
    case LoopStep(l) => LoopFrame(s, l); SameBatchKeeps(s, LoopNext(s, l));
    case GatewayStep(g) => GatewayFrame(s, g); SameBatchKeeps(s, GatewayNext(s, g));
    case LlmStep(m) => LlmKeeps(s, m);
    case ToolsStep(t) => ToolsKeep(s, t);
    case MemoryStep(e) => SameBatchKeeps(s, MemoryNext(s, e));
  }

  lemma {:induction false} RunKeeps(s: Sys, actions: seq<Action>)
    requires Inv(s)
    ensures Inv(Run(s, actions))
    decreases |actions|
  {
    if actions != [] {
      RunKeeps(s, actions[..|actions| - 1]);
      NextKeeps(Run(s, actions[..|actions| - 1]), actions[|actions| - 1]);
    }
  }

  /** At position `i` stands an assistant message of round `r`, followed by exactly one tool message
      per published call, in order and under that call's id. */
  ghost predicate Paired(ms: seq<Message>, i: nat, r: Round)
    requires i < |ms|
  {
    var n := |r.published|;
    && ms[i] == AssistantMessage(r.content, r.raw)
    && |r.results| == n && i + n < |ms|
    && (forall k | 0 <= k < n :: ms[i + 1 + k] == ToolMessage(r.published[k].id, r.results[k].result))
    && (i + 1 + n == |ms| || ms[i + 1 + n].AssistantMessage?)
  }

  lemma {:induction false} TranscriptPaired(userText: string, rounds: seq<Round>, i: nat) returns (k: nat)
    requires forall j | 0 <= j < |rounds| :: Answers(rounds[j].published, rounds[j].results)
    requires i < |Transcript(userText, rounds)| && Transcript(userText, rounds)[i].AssistantMessage?
    ensures k < |rounds| && Paired(Transcript(userText, rounds), i, rounds[k])
    decreases |rounds|
  {
    var ms := Transcript(userText, rounds);
    var front := rounds[..|rounds| - 1];
    var ms0 := Transcript(userText, front);
    if i < |ms0| {
      k := TranscriptPaired(userText, front, i);
    } else {
      k := |rounds| - 1;
      assert i == |ms0|;
    }
  }

  /** In every run, each assistant message that calls tools is followed in engine 3's transcript by
      one tool message per call of the batch it published, in order and with the published ids. */
  lemma TranscriptPairsCalls(init: Sys, actions: seq<Action>, i: nat) returns (r: Round)
    requires Init(init)
    requires i < |Run(init, actions).llm.messages| && Run(init, actions).llm.messages[i].AssistantMessage?
    ensures var s := Run(init, actions);
      && r in s.llm.rounds && Paired(s.llm.messages, i, r)
      && PublishedFrom(r.raw, r.published)
      && r.batch in s.published && s.published[r.batch] == r.published
  {
    InitInv(init);
    RunKeeps(init, actions);
    var s := Run(init, actions);
    forall j | 0 <= j < |s.llm.rounds|
      ensures Answers(s.llm.rounds[j].published, s.llm.rounds[j].results)
    {
      assert RoundOk(s, s.llm.rounds[j]);
    }
    var k := TranscriptPaired(s.llm.userText, s.llm.rounds, i);
    r := s.llm.rounds[k];
    assert RoundOk(s, r);
  }

  lemma RoundAnswered(s: Sys, r: Round)
    requires Inv(s) && r in s.llm.rounds
    ensures Answers(r.published, r.results)
  {
    var j :| 0 <= j < |s.llm.rounds| && s.llm.rounds[j] == r;
    assert RoundOk(s, s.llm.rounds[j]);
  }

  /** In every run a batch's results are recorded at most once.  Results offered for a batch are taken if
      and only if it is the batch in the file, was published and has not been answered; whether engine 3
      still waits for them does not matter.  Otherwise the file stays as it is. */
  lemma BatchesAnsweredOnce(init: Sys, actions: seq<Action>, batch: Uuid, results: seq<ToolResult>)
    requires Init(init)
    ensures var s := Run(init, actions);
      && Distinct(s.completions)
      && (AcceptsResults(s.Doc(), batch) <==>
            s.Doc().batchId == Some(batch) && batch in s.published && batch !in s.completions)
      && (WithResults(s.Doc(), batch, results) == s.Doc() <==> !AcceptsResults(s.Doc(), batch))
  {
    InitInv(init);
    RunKeeps(init, actions);
  }

  /** No step brings back a batch that was drawn and is not in the file. */
  lemma StepKeepsSuperseded(s: Sys, a: Action, batch: Uuid)
    requires batch in s.used && s.Doc().batchId != Some(batch)
    ensures batch in Next(s, a).used && Next(s, a).Doc().batchId != Some(batch)
  {
    match a
    case LoopStep(l) => LoopFrame(s, l);
    case GatewayStep(g) => GatewayFrame(s, g);
    case LlmStep(m) =>
      if !m.Publish? && !m.SeeResults? {
        LlmFrame(s, m);
      }
    case ToolsStep(t) => ToolsKeepBatch(s, t);
    case MemoryStep(e) =>
  }

  lemma ToolsKeepBatch(s: Sys, a: ToolsAction)
    ensures ToolsNext(s, a).used == s.used && ToolsNext(s, a).Doc().batchId == s.Doc().batchId
  {
  }

  /** Once another batch has taken its place, results for a batch are refused for good. */
  lemma {:induction false} SupersededForGood(s: Sys, actions: seq<Action>, batch: Uuid)
    requires batch in s.used && s.Doc().batchId != Some(batch)
    ensures batch in Run(s, actions).used && Run(s, actions).Doc().batchId != Some(batch)
    ensures !AcceptsResults(Run(s, actions).Doc(), batch)
    decreases |actions|
  {
    if actions != [] {
      SupersededForGood(s, actions[..|actions| - 1], batch);
      StepKeepsSuperseded(Run(s, actions[..|actions| - 1]), actions[|actions| - 1], batch);
    }
  }

  /** Engine 3 sends at most eight LLM requests in a turn: one for each completed tool
      round, and at most one beyond them. */
  lemma RequestsBounded(init: Sys, actions: seq<Action>)
    requires Init(init)
    ensures var e := Run(init, actions).llm;
      |e.rounds| <= |e.replies| <= |e.rounds| + 1 && |e.replies| <= 8
  {
    InitInv(init);
    RunKeeps(init, actions);
  }
}
