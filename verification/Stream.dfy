/** Streaming LLM answers: the provider adapter numbers the pieces of text and assembles interleaved
    fragments of tool calls.  An empty string stands for a missing or empty field. */
module Stream {
  import opened Common

  // The provider's event stream

  /** One fragment of a tool call. */
  datatype Delta = Delta(index: int, id: string, kind: string, name: string, arguments: string)

  datatype Choice = Choice(finishReason: string, content: string, toolCalls: seq<Delta>)

  datatype Usage = Usage(prompt: nat, completion: nat)

  datatype Payload = Payload(usage: Option<Usage>, choices: seq<Choice>)

  /** A line of the response: not a data line, the end marker, data that is not JSON, or a payload. */
  datatype Line = NotData | EndOfStream | Garbled | Data(payload: Payload)

  datatype ToolCall = ToolCall(id: Option<string>, kind: string, name: string, arguments: string)

  const EMPTY_CALL := ToolCall(None, "function", "", "")

  datatype Completion = Completion(
    content: Option<string>,
    toolCalls: seq<ToolCall>,
    usage: Usage,
    finishReason: string)

  datatype Chunk = Text(index: nat, delta: string) | Terminal(index: nat, completion: Completion)

  // What the stream stands for

  function BeforeEnd(lines: seq<Line>): seq<Line>
  {
    if lines == [] || lines[0].EndOfStream? then [] else [lines[0]] + BeforeEnd(lines[1..])
  }

  function Choices(lines: seq<Line>): seq<Choice>
  {
    if lines == [] then []
    else
      var last := lines[|lines| - 1];
      Choices(lines[..|lines| - 1]) + if last.Data? then last.payload.choices else []
  }

  /** The non-empty pieces of text, in arrival order. */
  function Texts(choices: seq<Choice>): (texts: seq<string>)
    ensures forall t | t in texts :: t != ""
  {
    if choices == [] then []
    else
      var last := choices[|choices| - 1];
      Texts(choices[..|choices| - 1]) + if last.content != "" then [last.content] else []
  }

  function Deltas(choices: seq<Choice>): seq<Delta>
  {
    if choices == [] then []
    else Deltas(choices[..|choices| - 1]) + choices[|choices| - 1].toolCalls
  }

  function LastUsage(lines: seq<Line>): Usage
  {
    if lines == [] then Usage(0, 0)
    else
      var last := lines[|lines| - 1];
      if last.Data? && last.payload.usage.Some? then last.payload.usage.value
      else LastUsage(lines[..|lines| - 1])
  }

  function LastFinish(choices: seq<Choice>): string
  {
    if choices == [] then ""
    else
      var last := choices[|choices| - 1];
      if last.finishReason != "" then last.finishReason else LastFinish(choices[..|choices| - 1])
  }

  function Join(parts: seq<string>): string
  {
    if parts == [] then "" else Join(parts[..|parts| - 1]) + parts[|parts| - 1]
  }

  /** The concatenation, in arrival order, of one field of the fragments of one index. */
  function Names(deltas: seq<Delta>, k: int): string
  {
    if deltas == [] then ""
    else
      var last := deltas[|deltas| - 1];
      Names(deltas[..|deltas| - 1], k) + if last.index == k then last.name else ""
  }

  function Arguments(deltas: seq<Delta>, k: int): string
  {
    if deltas == [] then ""
    else
      var last := deltas[|deltas| - 1];
      Arguments(deltas[..|deltas| - 1], k) + if last.index == k then last.arguments else ""
  }

  /** The latest id given for an index. */
  function LastId(deltas: seq<Delta>, k: int): Option<string>
  {
    if deltas == [] then None
    else
      var last := deltas[|deltas| - 1];
      if last.index == k && last.id != "" then Some(last.id) else LastId(deltas[..|deltas| - 1], k)
  }

  function LastKind(deltas: seq<Delta>, k: int): string
  {
    if deltas == [] then "function"
    else
      var last := deltas[|deltas| - 1];
      if last.index == k && last.kind != "" then last.kind else LastKind(deltas[..|deltas| - 1], k)
  }

  predicate Mentioned(deltas: seq<Delta>, k: int)
  {
    exists d | d in deltas :: d.index == k
  }

  /** The call that the fragments of index `k` stand for. */
  function Assembled(deltas: seq<Delta>, k: int): ToolCall
  {
    ToolCall(LastId(deltas, k), LastKind(deltas, k), Names(deltas, k), Arguments(deltas, k))
  }

  /** The assembled calls, one for each index that occurs, by increasing index. */
  ghost predicate InIndexOrder(deltas: seq<Delta>, calls: seq<ToolCall>, keys: seq<int>)
  {
    && StrictlyAscending(keys)
    && (forall k :: k in keys <==> Mentioned(deltas, k))
    && |calls| == |keys|
    && forall i | 0 <= i < |keys| :: calls[i] == Assembled(deltas, keys[i])
  }

  // The adapter

  /** Merges one fragment into the accumulator. */
  method MergeDelta(acc: map<int, ToolCall>, d: Delta) returns (acc': map<int, ToolCall>)
    ensures acc'.Keys == acc.Keys + {d.index}
    ensures forall k | k in acc && k != d.index :: acc'[k] == acc[k]
    ensures var entry := if d.index in acc then acc[d.index] else EMPTY_CALL;
      acc'[d.index] == ToolCall(
        if d.id != "" then Some(d.id) else entry.id,
        if d.kind != "" then d.kind else entry.kind,
        entry.name + d.name,
        entry.arguments + d.arguments)
  {
    acc' := if d.index in acc then acc else acc[d.index := EMPTY_CALL];
    if d.id != "" {
      acc' := acc'[d.index := acc'[d.index].(id := Some(d.id))];
    }
    if d.kind != "" {
      acc' := acc'[d.index := acc'[d.index].(kind := d.kind)];
    }
    acc' := acc'[d.index := acc'[d.index].(name := acc'[d.index].name + d.name)];
    acc' := acc'[d.index := acc'[d.index].(arguments := acc'[d.index].arguments + d.arguments)];
  }

  /** The accumulator holds exactly the calls assembled so far, its keys listed as they came. */
  ghost predicate Holds(acc: map<int, ToolCall>, keys: seq<int>, deltas: seq<Delta>)
  {
    && (forall k :: k in acc <==> Mentioned(deltas, k))
    && (forall k | k in acc :: acc[k] == Assembled(deltas, k))
    && (forall k :: k in keys <==> k in acc)
    && Unique(keys)
  }

  lemma AssembledSnoc(deltas: seq<Delta>, d: Delta, k: int)
    ensures Mentioned(deltas + [d], k) <==> Mentioned(deltas, k) || d.index == k
    ensures d.index != k ==> Assembled(deltas + [d], k) == Assembled(deltas, k)
    ensures d.index == k ==>
      (var entry := Assembled(deltas, k);
       Assembled(deltas + [d], k) == ToolCall(
         if d.id != "" then Some(d.id) else entry.id,
         if d.kind != "" then d.kind else entry.kind,
         entry.name + d.name,
         entry.arguments + d.arguments))
  {
    assert (deltas + [d])[..|deltas|] == deltas;
    assert forall e :: e in deltas + [d] <==> e in deltas || e == d;
    assert Names(deltas, k) + "" == Names(deltas, k);
    assert Arguments(deltas, k) + "" == Arguments(deltas, k);
  }

  lemma {:induction false} Unmentioned(deltas: seq<Delta>, k: int)
    requires !Mentioned(deltas, k)
    ensures Assembled(deltas, k) == EMPTY_CALL
  {
    if deltas != [] {
      var front, last := deltas[..|deltas| - 1], deltas[|deltas| - 1];
      assert last in deltas && forall d | d in front :: d in deltas;
      Unmentioned(front, k);
    }
  }

  method MergeAll(acc0: map<int, ToolCall>, keys0: seq<int>, ghost before: seq<Delta>, deltas: seq<Delta>)
      returns (acc: map<int, ToolCall>, keys: seq<int>)
    requires Holds(acc0, keys0, before)
    ensures Holds(acc, keys, before + deltas)
  {
    acc, keys := acc0, keys0;
    assert before + [] == before;
    for i := 0 to |deltas|
      invariant Holds(acc, keys, before + deltas[..i])
    {
      var d := deltas[i];
      ghost var seen := before + deltas[..i];
      assert before + deltas[..i + 1] == seen + [d];
      forall k
        ensures Mentioned(seen + [d], k) <==> Mentioned(seen, k) || d.index == k
        ensures d.index != k ==> Assembled(seen + [d], k) == Assembled(seen, k)
      {
        AssembledSnoc(seen, d, k);
      }
      AssembledSnoc(seen, d, d.index);
      if d.index !in acc {
        Unmentioned(seen, d.index);
        keys := keys + [d.index];
      }
      acc := MergeDelta(acc, d);
    }
    assert deltas[..|deltas|] == deltas;
  }

  function Numbered(texts: seq<string>): (chunks: seq<Chunk>)
    ensures |chunks| == |texts| && forall i | 0 <= i < |texts| :: chunks[i] == Text(i, texts[i])
  {
    seq(|texts|, i requires 0 <= i < |texts| => Text(i, texts[i]))
  }

  function ContentOf(texts: seq<string>, calls: seq<ToolCall>): Option<string>
  {
    if Join(texts) != "" then Some(Join(texts)) else if calls != [] then Some("") else None
  }

  /** The adapter's local variables while it reads the stream. */
  datatype Progress = Progress(
    parts: seq<string>,
    chunks: seq<Chunk>,
    index: nat,
    acc: map<int, ToolCall>,
    keys: seq<int>,
    finish: string)

  ghost predicate Tracks(p: Progress, choices: seq<Choice>)
  {
    && p.parts == Texts(choices)
    && p.chunks == Numbered(p.parts) && p.index == |p.parts|
    && Holds(p.acc, p.keys, Deltas(choices))
    && p.finish == LastFinish(choices)
  }

  method ReadChoice(p: Progress, choice: Choice, ghost before: seq<Choice>) returns (p': Progress)
    requires Tracks(p, before)
    ensures Tracks(p', before + [choice])
  {
    assert (before + [choice])[..|before|] == before;
    p' := p;
    if choice.finishReason != "" {
      p' := p'.(finish := choice.finishReason);
    }
    if choice.content != "" {
      p' := p'.(parts := p'.parts + [choice.content],
                chunks := p'.chunks + [Text(p'.index, choice.content)],
                index := p'.index + 1);
    }
    var acc, keys := MergeAll(p'.acc, p'.keys, Deltas(before), choice.toolCalls);
    p' := p'.(acc := acc, keys := keys);
  }

  method ReadPayload(p: Progress, payload: Payload, ghost before: seq<Choice>) returns (p': Progress)
    requires Tracks(p, before)
    ensures Tracks(p', before + payload.choices)
  {
    p' := p;
    assert before + [] == before;
    for j := 0 to |payload.choices|
      invariant Tracks(p', before + payload.choices[..j])
    {
      p' := ReadChoice(p', payload.choices[j], before + payload.choices[..j]);
      assert before + payload.choices[..j + 1] == before + payload.choices[..j] + [payload.choices[j]];
    }
    assert payload.choices[..|payload.choices|] == payload.choices;
  }

  lemma {:induction false} BeforeEndIs(lines: seq<Line>, n: nat)
    requires n <= |lines| && forall i | 0 <= i < n :: !lines[i].EndOfStream?
    requires n < |lines| ==> lines[n].EndOfStream?
    ensures BeforeEnd(lines) == lines[..n]
  {
    if n > 0 {
      BeforeEndIs(lines[1..], n - 1);
      assert lines[..n] == [lines[0]] + lines[1..][..n - 1];
    }
  }

  /** What the chunks of a response have to be: its pieces of text numbered from zero, then one
      terminal chunk with the joined text and the tool calls assembled index by index. */
  ghost predicate Streams(lines: seq<Line>, promptSize: nat, chunks: seq<Chunk>)
  {
    var choices := Choices(BeforeEnd(lines));
    var texts := Texts(choices);
    && |chunks| == |texts| + 1
    && chunks[..|texts|] == Numbered(texts)
    && chunks[|texts|].Terminal? && chunks[|texts|].index == |texts|
    && var c := chunks[|texts|].completion;
       && (exists keys :: InIndexOrder(Deltas(choices), c.toolCalls, keys))
       && c.content == ContentOf(texts, c.toolCalls)
       && c.usage == UsageOf(LastUsage(BeforeEnd(lines)), promptSize, texts)
       && c.finishReason == FinishOf(LastFinish(choices), c.toolCalls)
  }

  /** Without reported usage, tokens are estimated from the lengths of the texts. */
  function UsageOf(reported: Usage, promptSize: nat, texts: seq<string>): Usage
  {
    if reported.prompt != 0 || reported.completion != 0 then reported
    else Usage(if promptSize > 1 then promptSize else 1, if |Join(texts)| > 1 then |Join(texts)| else 1)
  }

  function FinishOf(finish: string, calls: seq<ToolCall>): string
  {
    if finish != "" then finish else if calls != [] then "tool_calls" else "stop"
  }

  method CallsInOrder(acc: map<int, ToolCall>, keys: seq<int>, ghost deltas: seq<Delta>) returns (calls: seq<ToolCall>)
    requires Holds(acc, keys, deltas)
    ensures exists sorted :: InIndexOrder(deltas, calls, sorted)
  {
    var sorted := SortedKeys(keys);
    forall i | 0 <= i < |sorted|
      ensures sorted[i] in acc
    {
      var k := sorted[i];
      assert k in sorted;
      assert k in keys;
    }
    calls := seq(|sorted|, i requires 0 <= i < |sorted| && sorted[i] in acc => acc[sorted[i]]);
    assert InIndexOrder(deltas, calls, sorted);
  }

  /** The terminal chunk, once the response has been read. */
  method Finish(p: Progress, usage: Usage, promptSize: nat, ghost lines: seq<Line>) returns (chunks: seq<Chunk>)
    requires Tracks(p, Choices(BeforeEnd(lines))) && usage == LastUsage(BeforeEnd(lines))
    ensures Streams(lines, promptSize, chunks)
  {
    var calls := CallsInOrder(p.acc, p.keys, Deltas(Choices(BeforeEnd(lines))));
    var completion := Completion(ContentOf(p.parts, calls), calls, UsageOf(usage, promptSize, p.parts),
                                 FinishOf(p.finish, calls));
    chunks := p.chunks + [Terminal(p.index, completion)];
    assert chunks[..|p.parts|] == p.chunks;
  }

  method StreamCompletion(lines: seq<Line>, promptSize: nat) returns (chunks: seq<Chunk>)
    ensures Streams(lines, promptSize, chunks)
  {
    var p := Progress([], [], 0, map[], [], "");
    var usage := Usage(0, 0);
    var i := 0;
    while i < |lines| && !lines[i].EndOfStream?
      invariant 0 <= i <= |lines| && forall k | 0 <= k < i :: !lines[k].EndOfStream?
      invariant Tracks(p, Choices(lines[..i])) && usage == LastUsage(lines[..i])
    {
      assert lines[..i + 1][..i] == lines[..i];
      if lines[i].Data? {
        var payload := lines[i].payload;
        if payload.usage.Some? {
          usage := payload.usage.value;
        }
        p := ReadPayload(p, payload, Choices(lines[..i]));
      } else {
        assert Choices(lines[..i]) + [] == Choices(lines[..i]);
      }
      i := i + 1;
    }
    BeforeEndIs(lines, i);
    chunks := Finish(p, usage, promptSize, lines);
  }
}
