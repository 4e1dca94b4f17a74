/** Where the results in engine 3's transcript come from: each is what engine 1 got when it ran that very
    call of that batch. */
module TurnResults {
  import opened Common
  import opened Coordinator
  import opened TurnProtocol
  import TurnTools

  /** Action `i` ran call number `k` of the batch with this outcome. */
  ghost predicate RanAt(init: Sys, actions: seq<Action>, i: nat, batch: Uuid, k: nat, result: ToolResult)
  {
    && i < |actions| && actions[i].ToolsStep? && actions[i].t.RunTool?
    && var pc := Run(init, actions[..i]).tools;
       && pc.ToolsRun? && pc.batch == batch && |pc.results| == k < |pc.calls|
       && result == ToolResult(pc.calls[k].id, pc.calls[k].name, actions[i].t.result)
  }

  ghost predicate Ran(init: Sys, actions: seq<Action>, batch: Uuid, k: nat, result: ToolResult)
  {
    exists i :: RanAt(init, actions, i, batch, k, result)
  }

  ghost predicate AllRan(init: Sys, actions: seq<Action>, batch: Uuid, results: seq<ToolResult>)
  {
    forall k | 0 <= k < |results| :: Ran(init, actions, batch, k, results[k])
  }

  ghost predicate Inv(init: Sys, actions: seq<Action>)
  {
    var s := Run(init, actions);
    && (s.tools.ToolsRun? ==> AllRan(init, actions, s.tools.batch, s.tools.results))
    && (s.tools.ToolsComplete? ==> AllRan(init, actions, s.tools.batch, s.tools.results))
    && (forall b | s.Doc().batchId == Some(b) && b in s.completions && s.Doc().toolResults.Some? ::
          AllRan(init, actions, b, s.Doc().toolResults.value))
    && (forall r | r in s.llm.rounds :: AllRan(init, actions, r.batch, r.results))
  }

  lemma StillRan(init: Sys, actions: seq<Action>, batch: Uuid, results: seq<ToolResult>)
    requires actions != [] && AllRan(init, actions[..|actions| - 1], batch, results)
    ensures AllRan(init, actions, batch, results)
  {
    var before := actions[..|actions| - 1];
    forall k | 0 <= k < |results|
      ensures Ran(init, actions, batch, k, results[k])
    {
      assert Ran(init, before, batch, k, results[k]);
      var i: nat :| RanAt(init, before, i, batch, k, results[k]);
      assert before[..i] == actions[..i];
      assert RanAt(init, actions, i, batch, k, results[k]);
    }
  }

  /** What a step can do to the results engine 1 holds. */
  lemma ToolsHold(s: Sys, a: ToolsAction)
    ensures var pc, pc' := s.tools, ToolsNext(s, a).tools;
      && (pc'.ToolsRun? ==>
            || pc' == pc || pc'.results == []
            || (a.RunTool? && pc.ToolsRun? && |pc.results| < |pc.calls| && pc'.batch == pc.batch
                && pc'.results == pc.results + [ToolResult(pc.calls[|pc.results|].id, pc.calls[|pc.results|].name,
                                                           a.result)]))
      && (pc'.ToolsComplete? ==>
            pc' == pc || (pc.ToolsRun? && pc'.batch == pc.batch && pc'.results == pc.results))
  {
  }

  /** What a step can do to the results in the file. */
  lemma ToolsRecord(s: Sys, a: ToolsAction, b: Uuid)
    requires TurnTools.Inv(s)
    requires var s' := ToolsNext(s, a); s'.Doc().batchId == Some(b) && b in s'.completions && s'.Doc().toolResults.Some?
    ensures var s' := ToolsNext(s, a);
      || (s.Doc().batchId == Some(b) && b in s.completions && s'.Doc().toolResults == s.Doc().toolResults)
      || (s.tools.ToolsComplete? && s.tools.batch == b && s'.Doc().toolResults == Some(s.tools.results))
  {
  }

  lemma AllAndOneMore(init: Sys, actions: seq<Action>, batch: Uuid, results: seq<ToolResult>, last: ToolResult)
    requires AllRan(init, actions, batch, results) && Ran(init, actions, batch, |results|, last)
    ensures AllRan(init, actions, batch, results + [last])
  {
  }

  lemma OneMoreRan(init: Sys, before: seq<Action>, result: Option<string>)
    requires var pc := Run(init, before).tools;
      pc.ToolsRun? && |pc.results| < |pc.calls| && AllRan(init, before, pc.batch, pc.results)
    ensures var pc := Run(init, before).tools;
      var call := pc.calls[|pc.results|];
      AllRan(init, before + [ToolsStep(RunTool(result))], pc.batch,
             pc.results + [ToolResult(call.id, call.name, result)])
  {
    var actions, pc := before + [ToolsStep(RunTool(result))], Run(init, before).tools;
    var last := ToolResult(pc.calls[|pc.results|].id, pc.calls[|pc.results|].name, result);
    assert actions[..|before|] == before;
    StillRan(init, actions, pc.batch, pc.results);
    assert RanAt(init, actions, |before|, pc.batch, |pc.results|, last);
    AllAndOneMore(init, actions, pc.batch, pc.results, last);
  }

  lemma ToolsStepHolds(init: Sys, before: seq<Action>, a: ToolsAction)
    requires Inv(init, before)
    ensures var s' := Run(init, before + [ToolsStep(a)]);
      s'.tools.ToolsRun? || s'.tools.ToolsComplete? ==>
        AllRan(init, before + [ToolsStep(a)], s'.tools.batch, s'.tools.results)
  {
    var actions, s := before + [ToolsStep(a)], Run(init, before);
    assert actions[..|actions| - 1] == before;
    ToolsHold(s, a);
    if s.tools.ToolsRun? || s.tools.ToolsComplete? {
      StillRan(init, actions, s.tools.batch, s.tools.results);
    }
    if a.RunTool? && s.tools.ToolsRun? && |s.tools.results| < |s.tools.calls| {
      OneMoreRan(init, before, a.result);
    }
  }

  lemma ToolsStepRecords(init: Sys, before: seq<Action>, a: ToolsAction, b: Uuid)
    requires Inv(init, before) && TurnTools.Inv(Run(init, before))
    requires var s' := Run(init, before + [ToolsStep(a)]);
      s'.Doc().batchId == Some(b) && b in s'.completions && s'.Doc().toolResults.Some?
    ensures AllRan(init, before + [ToolsStep(a)], b, Run(init, before + [ToolsStep(a)]).Doc().toolResults.value)
  {
    var actions, s := before + [ToolsStep(a)], Run(init, before);
    assert actions[..|actions| - 1] == before;
    ToolsRecord(s, a, b);
    StillRan(init, actions, b, Run(init, actions).Doc().toolResults.value);
  }

  lemma ToolsStepKeeps(init: Sys, before: seq<Action>, a: ToolsAction)
    requires Inv(init, before) && TurnTools.Inv(Run(init, before))
    ensures Inv(init, before + [ToolsStep(a)])
  {
    var actions := before + [ToolsStep(a)];
    assert actions[..|actions| - 1] == before;
    var s' := Run(init, actions);
    ToolsStepHolds(init, before, a);
    forall b | s'.Doc().batchId == Some(b) && b in s'.completions && s'.Doc().toolResults.Some?
      ensures AllRan(init, actions, b, s'.Doc().toolResults.value)
    {
      ToolsStepRecords(init, before, a, b);
    }
    RoundsStill(init, actions);
    assert s'.llm == Run(init, before).llm;
  }

  lemma RoundsStill(init: Sys, actions: seq<Action>)
    requires actions != [] && Inv(init, actions[..|actions| - 1])
    ensures forall r | r in Run(init, actions[..|actions| - 1]).llm.rounds :: AllRan(init, actions, r.batch, r.results)
  {
    forall r | r in Run(init, actions[..|actions| - 1]).llm.rounds
      ensures AllRan(init, actions, r.batch, r.results)
    {
      StillRan(init, actions, r.batch, r.results);
    }
  }

  /** What engine 3 can do to the file's results and to its rounds. */
  lemma LlmTakes(s: Sys, a: LlmAction)
    requires TurnTools.Inv(s)
    ensures var s' := LlmNext(s, a);
      && s'.tools == s.tools && s'.completions == s.completions
      && (s'.Doc().toolResults.Some? ==>
            s'.Doc().batchId == s.Doc().batchId && s'.Doc().toolResults == s.Doc().toolResults)
      && (forall r | r in s'.llm.rounds :: r in s.llm.rounds || FromFile(s, r))
  {
    var pc := s.llm.pc;
    if a.SeeResults? && pc.LlmAwaitBatch? && s.Doc().batchStatus == Complete && s.Doc().batchId == Some(pc.batch) {
      assert TurnTools.Recorded(s, pc.batch, pc.calls);
    }
  }

  ghost predicate FromFile(s: Sys, r: Round)
  {
    s.Doc().batchId == Some(r.batch) && r.batch in s.completions && s.Doc().toolResults == Some(r.results)
  }

  lemma LlmStepKeeps(init: Sys, before: seq<Action>, a: LlmAction)
    requires Inv(init, before) && TurnTools.Inv(Run(init, before))
    ensures Inv(init, before + [LlmStep(a)])
  {
    var actions, s := before + [LlmStep(a)], Run(init, before);
    assert actions[..|actions| - 1] == before;
    LlmTakes(s, a);
    HeldStill(init, actions);
    RoundsStill(init, actions);
  }

  /** Whatever engine 1 holds and the file records stays accounted for. */
  lemma HeldStill(init: Sys, actions: seq<Action>)
    requires actions != [] && Inv(init, actions[..|actions| - 1])
    ensures var s := Run(init, actions[..|actions| - 1]);
      && (s.tools.ToolsRun? ==> AllRan(init, actions, s.tools.batch, s.tools.results))
      && (s.tools.ToolsComplete? ==> AllRan(init, actions, s.tools.batch, s.tools.results))
      && (forall b | s.Doc().batchId == Some(b) && b in s.completions && s.Doc().toolResults.Some? ::
            AllRan(init, actions, b, s.Doc().toolResults.value))
  {
    var s := Run(init, actions[..|actions| - 1]);
    if s.tools.ToolsRun? || s.tools.ToolsComplete? {
      StillRan(init, actions, s.tools.batch, s.tools.results);
    }
    forall b | s.Doc().batchId == Some(b) && b in s.completions && s.Doc().toolResults.Some?
      ensures AllRan(init, actions, b, s.Doc().toolResults.value)
    {
      StillRan(init, actions, b, s.Doc().toolResults.value);
    }
  }

  lemma OthersLeave(s: Sys, a: Action)
    requires !a.ToolsStep? && !a.LlmStep?
    ensures var s' := Next(s, a);
      && s'.tools == s.tools && s'.completions == s.completions && s'.llm.rounds == s.llm.rounds
      && s'.Doc().batchId == s.Doc().batchId && s'.Doc().toolResults == s.Doc().toolResults
  {
    match a
    case LoopStep(l) => TurnTools.LoopFrame(s, l);
    case GatewayStep(g) => TurnTools.GatewayFrame(s, g);
    case MemoryStep(e) =>
  }

  lemma {:induction false} RunKeeps(init: Sys, actions: seq<Action>)
    requires Init(init)
    ensures Inv(init, actions)
    decreases |actions|
  {
    if actions != [] {
      var before, a := actions[..|actions| - 1], actions[|actions| - 1];
      assert actions == before + [a];
      RunKeeps(init, before);
      TurnTools.InitInv(init);
      TurnTools.RunKeeps(init, before);
      if a.ToolsStep? {
        ToolsStepKeeps(init, before, a.t);
      } else if a.LlmStep? {
        LlmStepKeeps(init, before, a.m);
      } else {
        OthersLeave(Run(init, before), a);
        HeldStill(init, actions);
        RoundsStill(init, actions);
      }
    }
  }

  /** In every run, each tool message in engine 3's transcript carries the outcome of running that very call:
      the assistant message before it belongs to a round, and the `k`-th tool message after it has the
      result of the step in which engine 1 ran call number `k` of the round's batch. */
  lemma TranscriptCarriesOutcomes(init: Sys, actions: seq<Action>, i: nat, k: nat) returns (r: Round)
    requires Init(init)
    requires i < |Run(init, actions).llm.messages| && Run(init, actions).llm.messages[i].AssistantMessage?
    ensures r in Run(init, actions).llm.rounds && TurnTools.Paired(Run(init, actions).llm.messages, i, r)
    ensures k < |r.published| ==>
              && i + 1 + k < |Run(init, actions).llm.messages|
              && var m := Run(init, actions).llm.messages[i + 1 + k];
                 m.ToolMessage? && Ran(init, actions, r.batch, k, ToolResult(m.callId, r.published[k].name, m.result))
  {
    r := TurnTools.TranscriptPairsCalls(init, actions, i);
    RunKeeps(init, actions);
    TurnTools.InitInv(init);
    TurnTools.RunKeeps(init, actions);
    assert AllRan(init, actions, r.batch, r.results);
    if k < |r.published| {
      TurnTools.RoundAnswered(Run(init, actions), r);
      assert Ran(init, actions, r.batch, k, r.results[k]);
    }
  }
}
