/** What the chunks of a stream mean, told from its lines: no text is lost, and every tool call is put
    together from the fragments of its own index, however they are interleaved. */
module StreamLaws {
  import opened Common
  import opened Stream

  // The lines, read from the front

  /** The choices of all data lines up to the end marker. */
  function Spoken(lines: seq<Line>): seq<Choice>
  {
    if lines == [] || lines[0] == EndOfStream then []
    else (if lines[0].Data? then lines[0].payload.choices else []) + Spoken(lines[1..])
  }

  /** All their text. */
  function Said(choices: seq<Choice>): string
  {
    if choices == [] then "" else choices[0].content + Said(choices[1..])
  }

  /** All their fragments of tool calls. */
  function Fragments(choices: seq<Choice>): seq<Delta>
  {
    if choices == [] then [] else choices[0].toolCalls + Fragments(choices[1..])
  }

  lemma {:induction false} ChoicesFront(line: Line, lines: seq<Line>)
    ensures Choices([line] + lines) == (if line.Data? then line.payload.choices else []) + Choices(lines)
  {
    var all := [line] + lines;
    if lines == [] {
      assert all[..|all| - 1] == [] && all[|all| - 1] == line;
      assert Choices([]) == [];
    } else {
      assert all[..|all| - 1] == [line] + lines[..|lines| - 1];
      ChoicesFront(line, lines[..|lines| - 1]);
    }
  }

  lemma {:induction false} SpokenIs(lines: seq<Line>)
    ensures Choices(BeforeEnd(lines)) == Spoken(lines)
  {
    if lines != [] && !lines[0].EndOfStream? {
      SpokenIs(lines[1..]);
      ChoicesFront(lines[0], BeforeEnd(lines[1..]));
    }
  }

  lemma {:induction false} SaidSnoc(choices: seq<Choice>, c: Choice)
    ensures Said(choices + [c]) == Said(choices) + c.content
    ensures Fragments(choices + [c]) == Fragments(choices) + c.toolCalls
  {
    if choices != [] {
      assert (choices + [c])[1..] == choices[1..] + [c];
      SaidSnoc(choices[1..], c);
    }
  }

  lemma {:induction false} TextsAreSaid(choices: seq<Choice>)
    ensures Join(Texts(choices)) == Said(choices) && Deltas(choices) == Fragments(choices)
  {
    if choices != [] {
      var front, last := choices[..|choices| - 1], choices[|choices| - 1];
      TextsAreSaid(front);
      SaidSnoc(front, last);
      assert choices == front + [last];
      assert (Texts(front) + [last.content])[..|Texts(front)|] == Texts(front);
      assert Texts(front) + [] == Texts(front) && Said(front) + "" == Said(front);
    }
  }

  // The latest value of a field

  ghost predicate LastAt(xs: seq<string>, i: nat, x: string)
  {
    i < |xs| && xs[i] == x && forall j | i < j < |xs| :: xs[j] == ""
  }

  /** The last of the strings that is not empty, or the empty string. */
  ghost predicate Latest(xs: seq<string>, x: string)
  {
    if x == "" then forall i | 0 <= i < |xs| :: xs[i] == "" else exists i :: LastAt(xs, i, x)
  }

  lemma LatestSnoc(xs: seq<string>, x: string, y: string)
    requires Latest(xs, x)
    ensures Latest(xs + [y], if y != "" then y else x)
  {
    if y != "" {
      assert LastAt(xs + [y], |xs|, y);
    } else if x != "" {
      var i: nat :| LastAt(xs, i, x);
      assert LastAt(xs + [y], i, x);
    }
  }

  function Finishes(choices: seq<Choice>): seq<string>
  {
    seq(|choices|, i requires 0 <= i < |choices| => choices[i].finishReason)
  }

  lemma {:induction false} FinishIsLatest(choices: seq<Choice>)
    ensures Latest(Finishes(choices), LastFinish(choices))
  {
    if choices != [] {
      var front, last := choices[..|choices| - 1], choices[|choices| - 1];
      FinishIsLatest(front);
      LatestSnoc(Finishes(front), LastFinish(front), last.finishReason);
      assert Finishes(choices) == Finishes(front) + [last.finishReason];
    }
  }

  /** Line `i` is the last data line before the end marker that reports usage. */
  ghost predicate ReportsLast(lines: seq<Line>, i: nat, usage: Usage)
  {
    && i < |lines| && lines[i].Data? && lines[i].payload.usage == Some(usage)
    && (forall j | 0 <= j < i :: !lines[j].EndOfStream?)
    && forall j | i < j < |lines| && Reports(lines[j]) :: exists e :: i < e < j && lines[e].EndOfStream?
  }

  predicate Reports(line: Line)
  {
    line.Data? && line.payload.usage.Some?
  }

  /** What was reported last, or nothing. */
  ghost predicate Reported(lines: seq<Line>, usage: Usage)
  {
    || (exists i :: ReportsLast(lines, i, usage))
    || (usage == Usage(0, 0)
        && forall j | 0 <= j < |lines| && Reports(lines[j]) :: exists e :: 0 <= e < j && lines[e].EndOfStream?)
  }

  lemma {:induction false} EndSplits(lines: seq<Line>) returns (n: nat)
    ensures n <= |lines| && BeforeEnd(lines) == lines[..n] && forall i | 0 <= i < n :: !lines[i].EndOfStream?
    ensures n < |lines| ==> lines[n].EndOfStream?
  {
    if lines == [] || lines[0].EndOfStream? {
      n := 0;
    } else {
      n := EndSplits(lines[1..]);
      n := n + 1;
      assert lines[..n] == [lines[0]] + lines[1..][..n - 1];
    }
  }

  lemma {:induction false} UsageLine(lines: seq<Line>) returns (i: int)
    ensures -1 <= i < |lines|
    ensures forall j | i < j < |lines| :: !Reports(lines[j])
    ensures if i < 0 then LastUsage(lines) == Usage(0, 0)
            else lines[i].Data? && lines[i].payload.usage == Some(LastUsage(lines))
  {
    if lines == [] {
      i := -1;
    } else if Reports(lines[|lines| - 1]) {
      i := |lines| - 1;
    } else {
      i := UsageLine(lines[..|lines| - 1]);
    }
  }

  lemma UsageReported(lines: seq<Line>)
    ensures Reported(lines, LastUsage(BeforeEnd(lines)))
  {
    var n := EndSplits(lines);
    var i := UsageLine(BeforeEnd(lines));
    if i >= 0 {
      assert ReportsLast(lines, i, LastUsage(BeforeEnd(lines)));
    }
  }

  /** For every response: the pieces of text are numbered from zero, none is empty, and together they are all
      the text of the stream; the terminal chunk has that text too, or none; the finish reason is the last
      one given, or says whether there are tool calls; and the usage is the last one reported, or else is
      estimated from the lengths. */
  lemma ChunksMean(lines: seq<Line>, promptSize: nat, chunks: seq<Chunk>)
    requires Streams(lines, promptSize, chunks)
    ensures var n, said := |chunks| - 1, Said(Spoken(lines));
      && n >= 0 && chunks[n].Terminal? && chunks[n].index == n
      && (forall i | 0 <= i < n :: chunks[i].Text? && chunks[i].index == i && chunks[i].delta != "")
      && Written(chunks[..n]) == said
      && var c := chunks[n].completion;
         && c.content == (if said != "" then Some(said) else if c.toolCalls != [] then Some("") else None)
         && FinishGiven(lines, c) && UsageGiven(lines, promptSize, c)
  {
    var choices := Choices(BeforeEnd(lines));
    var texts := Texts(choices);
    SpokenIs(lines);
    TextsAreSaid(choices);
    FinishIsLatest(choices);
    UsageReported(lines);
    forall i | 0 <= i < |texts|
      ensures chunks[i] == Text(i, texts[i]) && texts[i] != ""
    {
      assert chunks[i] == chunks[..|texts|][i] && texts[i] in texts;
    }
    WrittenIs(chunks[..|texts|], texts);
  }

  /** The text of the chunks, one after the other. */
  function Written(chunks: seq<Chunk>): string
  {
    if chunks == [] then ""
    else Written(chunks[..|chunks| - 1]) + if chunks[|chunks| - 1].Text? then chunks[|chunks| - 1].delta else ""
  }

  lemma {:induction false} WrittenIs(chunks: seq<Chunk>, texts: seq<string>)
    requires chunks == Numbered(texts)
    ensures Written(chunks) == Join(texts)
  {
    if texts != [] {
      var front := texts[..|texts| - 1];
      assert chunks[..|chunks| - 1] == Numbered(front);
      WrittenIs(chunks[..|chunks| - 1], front);
    }
  }

  ghost predicate FinishGiven(lines: seq<Line>, c: Completion)
  {
    exists given :: Latest(Finishes(Spoken(lines)), given)
      && c.finishReason == if given != "" then given else if c.toolCalls != [] then "tool_calls" else "stop"
  }

  ghost predicate UsageGiven(lines: seq<Line>, promptSize: nat, c: Completion)
  {
    exists usage :: Reported(lines, usage)
      && if usage.prompt + usage.completion > 0 then c.usage == usage
         else
           && c.usage.prompt == (if promptSize == 0 then 1 else promptSize)
           && c.usage.completion == (if Said(Spoken(lines)) == "" then 1 else |Said(Spoken(lines))|)
  }

  // Interleavings

  function OfIndex(k: int): Delta -> bool
  {
    (d: Delta) => d.index == k
  }

  function NamePieces(deltas: seq<Delta>): seq<string>
  {
    if deltas == [] then [] else NamePieces(deltas[..|deltas| - 1]) + [deltas[|deltas| - 1].name]
  }

  function ArgumentPieces(deltas: seq<Delta>): seq<string>
  {
    if deltas == [] then [] else ArgumentPieces(deltas[..|deltas| - 1]) + [deltas[|deltas| - 1].arguments]
  }

  lemma FragmentsSnoc(deltas: seq<Delta>, d: Delta, k: int)
    ensures Filter(OfIndex(k), deltas + [d]) == Filter(OfIndex(k), deltas) + if d.index == k then [d] else []
  {
    FilterConcat(OfIndex(k), deltas, [d]);
  }

  /** A call depends on the fragments of its own index only. */
  lemma {:induction false} OwnFragmentsOnly(deltas: seq<Delta>, k: int)
    ensures Assembled(deltas, k) == Assembled(Filter(OfIndex(k), deltas), k)
  {
    if deltas != [] {
      var front, last := deltas[..|deltas| - 1], deltas[|deltas| - 1];
      assert deltas == front + [last];
      OwnFragmentsOnly(front, k);
      FragmentsSnoc(front, last, k);
      AssembledSnoc(front, last, k);
      AssembledSnoc(Filter(OfIndex(k), front), last, k);
      assert Filter(OfIndex(k), front) + [] == Filter(OfIndex(k), front);
    }
  }

  /** Its name and arguments are these fragments' pieces joined in arrival order. */
  lemma {:induction false} JoinedFragments(deltas: seq<Delta>, k: int)
    requires forall d | d in deltas :: d.index == k
    ensures Names(deltas, k) == Join(NamePieces(deltas))
    ensures Arguments(deltas, k) == Join(ArgumentPieces(deltas))
  {
    if deltas != [] {
      var front, last := deltas[..|deltas| - 1], deltas[|deltas| - 1];
      assert last in deltas && forall d | d in front :: d in deltas;
      JoinedFragments(front, k);
      assert NamePieces(deltas)[..|NamePieces(front)|] == NamePieces(front);
      assert ArgumentPieces(deltas)[..|ArgumentPieces(front)|] == ArgumentPieces(front);
    }
  }

  function Ids(deltas: seq<Delta>): seq<string>
  {
    seq(|deltas|, i requires 0 <= i < |deltas| => deltas[i].id)
  }

  function Kinds(deltas: seq<Delta>): seq<string>
  {
    seq(|deltas|, i requires 0 <= i < |deltas| => deltas[i].kind)
  }

  /** The call was put together from these fragments: pieces of name and arguments joined in arrival order,
      and the last id and kind that were given. */
  ghost predicate BuiltFrom(call: ToolCall, own: seq<Delta>)
  {
    && call.name == Join(NamePieces(own)) && call.arguments == Join(ArgumentPieces(own))
    && (if call.id == None then Latest(Ids(own), "") else call.id != Some("") && Latest(Ids(own), call.id.value))
    && (Latest(Kinds(own), call.kind) || (call.kind == "function" && Latest(Kinds(own), "")))
  }

  lemma {:induction false} LatestIdAndKind(deltas: seq<Delta>, k: int)
    requires forall d | d in deltas :: d.index == k
    ensures if LastId(deltas, k) == None then Latest(Ids(deltas), "")
            else LastId(deltas, k) != Some("") && Latest(Ids(deltas), LastId(deltas, k).value)
    ensures || Latest(Kinds(deltas), LastKind(deltas, k))
            || (LastKind(deltas, k) == "function" && Latest(Kinds(deltas), ""))
  {
    if deltas != [] {
      var front, last := deltas[..|deltas| - 1], deltas[|deltas| - 1];
      assert last in deltas && forall d | d in front :: d in deltas;
      LatestIdAndKind(front, k);
      assert Ids(deltas) == Ids(front) + [last.id] && Kinds(deltas) == Kinds(front) + [last.kind];
      LatestSnoc(Ids(front), if LastId(front, k) == None then "" else LastId(front, k).value, last.id);
      LatestSnoc(Kinds(front), if Latest(Kinds(front), LastKind(front, k)) then LastKind(front, k) else "", last.kind);
    }
  }

  lemma BuiltFromOwn(deltas: seq<Delta>, k: int)
    ensures BuiltFrom(Assembled(deltas, k), Filter(OfIndex(k), deltas))
  {
    var own := Filter(OfIndex(k), deltas);
    OwnFragmentsOnly(deltas, k);
    FilterMembers(OfIndex(k), deltas);
    JoinedFragments(own, k);
    LatestIdAndKind(own, k);
  }

  /** For every interleaving and every index: the terminal chunk has one call for the index exactly if some
      fragment of the stream mentions it, built from that index's own fragments in arrival order; and the
      calls come by increasing index. */
  lemma CallsAssembled(lines: seq<Line>, promptSize: nat, chunks: seq<Chunk>) returns (keys: seq<int>)
    requires Streams(lines, promptSize, chunks)
    ensures var fragments := Fragments(Spoken(lines));
      var calls := chunks[|chunks| - 1].completion.toolCalls;
      && StrictlyAscending(keys) && |keys| == |calls|
      && (forall k :: k in keys <==> exists d :: d in fragments && d.index == k)
      && (forall i | 0 <= i < |keys| :: BuiltFrom(calls[i], Filter(OfIndex(keys[i]), fragments)))
  {
    var deltas := Deltas(Choices(BeforeEnd(lines)));
    SpokenIs(lines);
    TextsAreSaid(Choices(BeforeEnd(lines)));
    keys :| InIndexOrder(deltas, chunks[|chunks| - 1].completion.toolCalls, keys);
    forall i | 0 <= i < |keys|
      ensures BuiltFrom(Assembled(deltas, keys[i]), Filter(OfIndex(keys[i]), deltas))
    {
      BuiltFromOwn(deltas, keys[i]);
    }
  }

  lemma MentionedIff(deltas: seq<Delta>, k: int)
    ensures Mentioned(deltas, k) <==> Filter(OfIndex(k), deltas) != []
  {
    FilterMembers(OfIndex(k), deltas);
    if Filter(OfIndex(k), deltas) != [] {
      assert Filter(OfIndex(k), deltas)[0] in Filter(OfIndex(k), deltas);
    }
  }

  /** The two streams carry, index by index, the same fragments in the same order. */
  ghost predicate SameFragments(deltas: seq<Delta>, others: seq<Delta>)
  {
    forall k :: Filter(OfIndex(k), deltas) == Filter(OfIndex(k), others)
  }

  /** How the fragments of different indices are interleaved, and over how many events and choices they
      are spread, does not change the calls. */
  lemma InterleavingIrrelevant(lines: seq<Line>, promptSize: nat, chunks: seq<Chunk>,
                               lines': seq<Line>, promptSize': nat, chunks': seq<Chunk>)
    requires Streams(lines, promptSize, chunks) && Streams(lines', promptSize', chunks')
    requires SameFragments(Fragments(Spoken(lines)), Fragments(Spoken(lines')))
    ensures chunks[|chunks| - 1].completion.toolCalls == chunks'[|chunks'| - 1].completion.toolCalls
  {
    var deltas, deltas' := Deltas(Choices(BeforeEnd(lines))), Deltas(Choices(BeforeEnd(lines')));
    var calls, calls' := chunks[|chunks| - 1].completion.toolCalls, chunks'[|chunks'| - 1].completion.toolCalls;
    SpokenIs(lines);
    SpokenIs(lines');
    TextsAreSaid(Spoken(lines));
    TextsAreSaid(Spoken(lines'));
    var keys :| InIndexOrder(deltas, calls, keys);
    var keys' :| InIndexOrder(deltas', calls', keys');
    forall k
      ensures k in keys <==> k in keys'
      ensures Assembled(deltas, k) == Assembled(deltas', k)
    {
      assert Filter(OfIndex(k), deltas) == Filter(OfIndex(k), deltas');
      MentionedIff(deltas, k);
      MentionedIff(deltas', k);
      OwnFragmentsOnly(deltas, k);
      OwnFragmentsOnly(deltas', k);
    }
    AscendingUnique(keys, keys');
  }

  lemma {:induction false} AscendingUnique(xs: seq<int>, ys: seq<int>)
    requires StrictlyAscending(xs) && StrictlyAscending(ys)
    requires forall k :: k in xs <==> k in ys
    ensures xs == ys
  {
    if xs == [] {
      assert forall i | 0 <= i < |ys| :: ys[i] in ys;
    } else {
      assert xs[0] in xs;
      SameTail(xs, ys);
      AscendingUnique(xs[1..], ys[1..]);
      assert xs == [xs[0]] + xs[1..] && ys == [ys[0]] + ys[1..];
    }
  }

  lemma SameTail(xs: seq<int>, ys: seq<int>)
    requires xs != [] && ys != [] && StrictlyAscending(xs) && StrictlyAscending(ys)
    requires forall k :: k in xs <==> k in ys
    ensures xs[0] == ys[0] && forall k :: k in xs[1..] <==> k in ys[1..]
  {
    assert xs[0] in ys && ys[0] in xs;
    forall k
      ensures k in xs[1..] <==> k in xs && k != xs[0]
      ensures k in ys[1..] <==> k in ys && k != ys[0]
    {
      assert xs == [xs[0]] + xs[1..] && ys == [ys[0]] + ys[1..];
    }
  }
}
