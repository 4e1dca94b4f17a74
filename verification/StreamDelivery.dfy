/** A streamed answer on its way: the router forwards the text and the outcome, and engine 3 collects them. */
module StreamDelivery {
  import opened Common
  import opened Stream
  import opened StreamLaws

  /** A message as engine 3 receives it. */
  datatype Inbound =
    | StreamStart(success: bool)
    | StreamChunk(index: nat, delta: string)
    | LlmResponse(success: bool, content: Option<string>, toolCalls: seq<ToolCall>)
    | ErrorMessage
    | Unexpected

  // Forwarding

  /** What `deliver` answers at each attempt of a stream. */
  type Deliveries = nat -> bool

  /** One message for each piece of text that is not empty, under its own number. */
  function Shown(chunks: seq<Chunk>): seq<Inbound>
  {
    if chunks == [] then []
    else
      var last := chunks[|chunks| - 1];
      Shown(chunks[..|chunks| - 1])
        + if last.Text? && last.delta != "" then [StreamChunk(last.index, last.delta)] else []
  }

  /** The completion of the last terminal chunk. */
  function LastCompletion(chunks: seq<Chunk>): Option<Completion>
  {
    if chunks == [] then None
    else if chunks[|chunks| - 1].Terminal? then Some(chunks[|chunks| - 1].completion)
    else LastCompletion(chunks[..|chunks| - 1])
  }

  /** All messages of a stream: its text and then its outcome.  `raised` says that the provider failed after
      these chunks. */
  function Messages(chunks: seq<Chunk>, raised: bool): seq<Inbound>
  {
    var completion := LastCompletion(chunks);
    Shown(chunks) +
      [if !raised && completion.Some? then LlmResponse(true, completion.value.content, completion.value.toolCalls)
       else LlmResponse(false, None, [])]
  }

  /** What was sent is the whole up to the first delivery that failed. */
  ghost predicate UpToFailure(deliver: Deliveries, whole: seq<Inbound>, sent: seq<Inbound>)
  {
    && sent <= whole && (forall i | 0 <= i < |sent| :: deliver(i))
    && (|sent| < |whole| ==> !deliver(|sent|))
  }

  lemma {:induction false} ShownPrefix(chunks: seq<Chunk>, i: nat)
    requires i <= |chunks|
    ensures Shown(chunks[..i]) <= Shown(chunks)
  {
    if i == |chunks| {
      assert chunks[..i] == chunks;
    } else {
      var front := chunks[..|chunks| - 1];
      assert front[..i] == chunks[..i];
      ShownPrefix(front, i);
    }
  }

  method RunLlmStream(chunks: seq<Chunk>, raised: bool, deliver: Deliveries) returns (sent: seq<Inbound>)
    ensures UpToFailure(deliver, Messages(chunks, raised), sent)
  {
    sent := [];
    var completion: Option<Completion> := None;
    var attempt := 0;
    for i := 0 to |chunks|
      invariant sent == Shown(chunks[..i]) && attempt == |sent| && completion == LastCompletion(chunks[..i])
      invariant forall k | 0 <= k < attempt :: deliver(k)
    {
      assert chunks[..i + 1][..i] == chunks[..i];
      var chunk := chunks[i];
      if chunk.Terminal? {
        completion := Some(chunk.completion);
      } else if chunk.delta != "" {
        if !deliver(attempt) {
          ShownPrefix(chunks, i);
          return;
        }
        sent := sent + [StreamChunk(chunk.index, chunk.delta)];
        attempt := attempt + 1;
      }
    }
    assert chunks[..|chunks|] == chunks;
    var outcome := LlmResponse(false, None, []);
    if !raised && completion.Some? {
      outcome := LlmResponse(true, completion.value.content, completion.value.toolCalls);
    }
    if deliver(attempt) {
      sent := sent + [outcome];
    }
  }

  // Collecting

  /** Engine 3's view of an LLM operation; `Waiting` until a final message has come. */
  datatype OpResult = Waiting | Failed | Ok(content: Option<string>, toolCalls: seq<ToolCall>)

  function ParseResponse(m: Inbound): OpResult
  {
    if m.LlmResponse? && m.success then Ok(m.content, m.toolCalls) else Failed
  }

  /** The text of chunk messages, one after the other. */
  function Heard(inbound: seq<Inbound>): string
  {
    if inbound == [] then ""
    else
      var last := inbound[|inbound| - 1];
      Heard(inbound[..|inbound| - 1]) + if last.StreamChunk? then last.delta else ""
  }

  /** The message after the chunks settles the result: a success with text of its own brings that text, one
      without brings what was heard; anything else fails. */
  predicate SettledBy(m: Inbound, heard: string, r: OpResult)
  {
    if m.LlmResponse? && m.success then
      && r.Ok? && r.toolCalls == m.toolCalls
      && r.content == if (m.content == None || m.content == Some("")) && heard != "" then Some(heard) else m.content
    else r == Failed
  }

  /** The messages are chunks up to number `n`, which settles the result; without it one has to wait. */
  ghost predicate Settles(inbound: seq<Inbound>, n: nat, r: OpResult)
  {
    && n <= |inbound| && (forall i | 0 <= i < n :: inbound[i].StreamChunk?)
    && if n == |inbound| then r == Waiting
       else !inbound[n].StreamChunk? && SettledBy(inbound[n], Heard(inbound[..n]), r)
  }

  ghost predicate Collected(inbound: seq<Inbound>, r: OpResult)
  {
    exists n :: Settles(inbound, n, r)
  }

  method CollectLlmStream(inbound: seq<Inbound>) returns (r: OpResult)
    ensures inbound != [] && inbound[0] == StreamStart(true) ==> Collected(inbound[1..], r)
    ensures inbound != [] && inbound[0].LlmResponse? ==> SettledBy(inbound[0], "", r)
    ensures inbound == [] ==> r == Waiting
    ensures inbound != [] && !inbound[0].LlmResponse? && inbound[0] != StreamStart(true) ==> r == Failed
  {
    if inbound == [] {
      return Waiting;
    }
    if inbound[0].LlmResponse? || inbound[0].ErrorMessage? {
      return ParseResponse(inbound[0]);
    }
    if inbound[0] != StreamStart(true) {
      return Failed;
    }
    var parts: seq<string> := [];
    var rest := inbound[1..];
    for i := 0 to |rest|
      invariant forall k | 0 <= k < i :: rest[k].StreamChunk?
      invariant Join(parts) == Heard(rest[..i]) && (parts == [] <==> Join(parts) == "")
    {
      assert rest[..i + 1][..i] == rest[..i];
      match rest[i]
      case StreamChunk(_, delta) =>
        assert (parts + [delta])[..|parts|] == parts;
        if delta != "" {
          parts := parts + [delta];
        }
      case LlmResponse(success, content, calls) =>
        r := ParseResponse(rest[i]);
        if r.Ok? && (r.content == None || r.content == Some("")) && parts != [] {
          r := Ok(Some(Join(parts)), calls);
        }
        assert Settles(rest, i, r);
        return;
      case _ =>
        assert Settles(rest, i, Failed);
        return Failed;
    }
    assert Settles(rest, |rest|, Waiting);
    r := Waiting;
  }

  // From the provider to engine 3

  /** The text engine 3 goes on with: `content or ""`. */
  function FinalText(r: OpResult): string
  {
    if r.Ok? && r.content.Some? then r.content.value else ""
  }

  /** Nothing is lost between what is written and what is heard. */
  lemma {:induction false} HeardIsWritten(chunks: seq<Chunk>)
    ensures Heard(Shown(chunks)) == Written(chunks)
    ensures forall i | 0 <= i < |Shown(chunks)| :: Shown(chunks)[i].StreamChunk?
  {
    if chunks != [] {
      var front, last := chunks[..|chunks| - 1], chunks[|chunks| - 1];
      HeardIsWritten(front);
      if last.Text? && last.delta != "" {
        assert Shown(chunks)[..|Shown(front)|] == Shown(front);
      } else {
        assert Shown(front) + [] == Shown(front) && Written(front) + "" == Written(front);
      }
    }
  }

  lemma {:induction false} ShownCount(chunks: seq<Chunk>)
    requires forall i | 0 <= i < |chunks| :: chunks[i].Text? && chunks[i].delta != ""
    ensures |Shown(chunks)| == |chunks|
  {
    if chunks != [] {
      ShownCount(chunks[..|chunks| - 1]);
    }
  }

  /** Where a stream, whole or not, is settled. */
  lemma SettlingPlace(shown: seq<Inbound>, outcome: Inbound, sent: seq<Inbound>, n: nat, r: OpResult)
    requires !outcome.StreamChunk? && forall i | 0 <= i < |shown| :: shown[i].StreamChunk?
    requires sent <= shown + [outcome] && Settles(sent, n, r)
    ensures n == if |sent| <= |shown| then |sent| else |shown|
  {
    if |sent| > |shown| {
      assert sent[|shown|] == outcome;
    }
  }

  /** A whole stream is settled by its outcome, and a part of it by nothing. */
  lemma SettledAtEnd(shown: seq<Inbound>, outcome: Inbound, sent: seq<Inbound>, r: OpResult)
    requires !outcome.StreamChunk? && forall i | 0 <= i < |shown| :: shown[i].StreamChunk?
    requires sent <= shown + [outcome] && Collected(sent, r)
    ensures if |sent| == |shown| + 1 then SettledBy(outcome, Heard(shown), r) else r == Waiting
  {
    var n: nat :| Settles(sent, n, r);
    SettlingPlace(shown, outcome, sent, n, r);
    if n < |sent| {
      assert sent[n] == outcome && sent[..n] == shown;
    }
  }

  lemma SettledOnce(chunks: seq<Chunk>, raised: bool, deliver: Deliveries, sent: seq<Inbound>, r: OpResult)
    requires UpToFailure(deliver, Messages(chunks, raised), sent) && Collected(sent, r)
    ensures if forall i | 0 <= i <= |Shown(chunks)| :: deliver(i)
            then SettledBy(Messages(chunks, raised)[|Shown(chunks)|], Written(chunks), r) else r == Waiting
  {
    HeardIsWritten(chunks);
    SettledAtEnd(Shown(chunks), Messages(chunks, raised)[|Shown(chunks)|], sent, r);
  }

  /** For every response of the provider and whichever deliveries fail: if none does, engine 3 ends with
      exactly the text that was streamed and with the tool calls of the terminal chunk; if one does, it
      never goes on with a part, but waits until it times out. */
  lemma TextArrivesWhole(lines: seq<Line>, promptSize: nat, chunks: seq<Chunk>, deliver: Deliveries,
                         sent: seq<Inbound>, r: OpResult)
    requires Streams(lines, promptSize, chunks)
    requires UpToFailure(deliver, Messages(chunks, false), sent) && Collected(sent, r)
    ensures if forall i | 0 <= i < |chunks| :: deliver(i)
            then
              && r.Ok? && FinalText(r) == Said(Spoken(lines))
              && r.toolCalls == chunks[|chunks| - 1].completion.toolCalls
            else r == Waiting
  {
    ChunksMean(lines, promptSize, chunks);
    var n := |chunks| - 1;
    ShownCount(chunks[..n]);
    assert Shown(chunks) == Shown(chunks[..n]) + [] && Written(chunks) == Written(chunks[..n]) + "";
    SettledOnce(chunks, false, deliver, sent, r);
  }

  /** When the provider fails in the middle, engine 3 is told so, or waits until it times out. */
  lemma FailureIsReported(chunks: seq<Chunk>, deliver: Deliveries, sent: seq<Inbound>, r: OpResult)
    requires UpToFailure(deliver, Messages(chunks, true), sent) && Collected(sent, r)
    ensures r == if forall i | 0 <= i <= |Shown(chunks)| :: deliver(i) then Failed else Waiting
  {
    SettledOnce(chunks, true, deliver, sent, r);
  }
}
