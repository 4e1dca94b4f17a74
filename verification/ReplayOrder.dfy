/** The order in which a VM receives over a whole run.  Queued letters are delivered in order, but a letter
    posted directly overtakes those still waiting.  With a queue and increasing creation times, this is
    the only way to get out of line. */
module ReplayOrder {
  import opened Common
  import opened Replay
  import opened ReplayLaws

  function For(vm: Vm): Letter -> bool
  {
    (letter: Letter) => letter.vm == vm
  }

  function ReceivedBy(d: Desk, vm: Vm): seq<Letter>
  {
    Filter(For(vm), d.office.wire.accepted)
  }

  function ProducedFor(d: Desk, vm: Vm): seq<Letter>
  {
    Filter(For(vm), d.produced)
  }

  /** What the VM has received, followed by what waits for it, is what was produced for it, in order. */
  predicate InLine(d: Desk, vm: Vm)
  {
    ReceivedBy(d, vm) + Letters(Backlog(d.office.rows, vm)) == ProducedFor(d, vm)
  }

  /** Some letter was received where another one was due. */
  predicate OutOfLine(d: Desk, vm: Vm)
  {
    var received, produced := ReceivedBy(d, vm), ProducedFor(d, vm);
    exists i | 0 <= i < |received| :: i < |produced| && received[i] != produced[i]
  }

  predicate Distinct(letters: seq<Letter>)
  {
    forall i, j | 0 <= i < j < |letters| :: letters[i] != letters[j]
  }

  // Overtaking

  /** Posting the letter overtakes what waits for the VM. */
  predicate PostJumps(d: Desk, vm: Vm, letter: Letter, works: bool)
  {
    letter.vm == vm && Accepts(d, vm, works) && Backlog(d.office.rows, vm) != []
  }

  predicate NoticeJumps(d: Desk, vm: Vm, id: nat, e: Elevation, grant: nat, replayDelivered: bool, luck: Luck)
  {
    e.request.source.agent != ""
    && PostJumps(d, vm, Letter(NoticeVm(e), GrantCreated(id, grant, replayDelivered)), luck.noticeWorks)
  }

  function Response(e: Elevation, grant: nat): Letter
    requires Target(e).Some?
  {
    Letter(Target(e).value.source, MemoryResponse(Target(e).value, grant))
  }

  function Responded(d: Desk, id: nat, e: Elevation, grant: nat, luck: Luck): Desk
    requires Target(e).Some?
  {
    Posted(d, true, id, grant, Response(e, grant), luck.responseWorks, luck.responseAt)
  }

  /** One of the letters of an approval overtakes. */
  predicate StepJumps(d: Desk, vm: Vm, step: Step)
  {
    step.Approve? &&
    var e, luck := step.e, step.luck;
    if Target(e).None? then NoticeJumps(d, vm, step.id, e, step.grant, false, luck)
    else
      || PostJumps(d, vm, Response(e, step.grant), luck.responseWorks)
      || NoticeJumps(Responded(d, step.id, e, step.grant, luck), vm, step.id, e, step.grant,
                     Accepts(d, Response(e, step.grant).vm, luck.responseWorks), luck)
  }

  /** The VM can be reached with letters waiting for it and one is posted, somewhere in the run. */
  ghost predicate Jumps(steps: seq<Step>, vm: Vm)
  {
    exists i | 0 <= i < |steps| :: StepJumps(Run(true, steps[..i]), vm, steps[i])
  }

  // One letter

  lemma BacklogInOrder(rows: seq<Row>, vm: Vm)
    requires Increasing(rows)
    ensures Backlog(rows, vm) == Filter(WaitingFor(vm), rows)
  {
    assert SortedBy(ByCreation(), rows);
    FilterSorted(WaitingFor(vm), ByCreation(), rows);
    SortedStays(ByCreation(), Filter(WaitingFor(vm), rows));
  }

  lemma LettersSnoc(rows: seq<Row>, r: Row)
    ensures Letters(rows + [r]) == Letters(rows) + [r.letter]
  {
  }

  lemma ProducedGrows(d: Desk, letter: Letter, vm: Vm)
    ensures Filter(For(vm), d.produced + [letter]) == ProducedFor(d, vm) + if letter.vm == vm then [letter] else []
  {
    FilterConcat(For(vm), d.produced, [letter]);
  }

  lemma ReceivedGrows(d: Desk, letter: Letter, vm: Vm)
    ensures Filter(For(vm), d.office.wire.accepted + [letter])
         == ReceivedBy(d, vm) + if letter.vm == vm then [letter] else []
  {
    FilterConcat(For(vm), d.office.wire.accepted, [letter]);
  }

  /** A posted letter that does not overtake leaves the VM in line. */
  lemma PostKeepsLine(d: Desk, vm: Vm, elevation: nat, grant: nat, letter: Letter, works: bool, now: int)
    requires InLine(d, vm) && !PostJumps(d, vm, letter, works)
    requires Increasing(Posted(d, true, elevation, grant, letter, works, now).office.rows)
    ensures InLine(Posted(d, true, elevation, grant, letter, works, now), vm)
  {
    var d' := Posted(d, true, elevation, grant, letter, works, now);
    ProducedGrows(d, letter, vm);
    if Accepts(d, letter.vm, works) {
      ReceivedGrows(d, letter, vm);
    } else {
      var r := Row(|d.office.rows|, elevation, grant, letter, now, None);
      assert d'.office.rows == d.office.rows + [r];
      assert d'.office.rows[..|d.office.rows|] == d.office.rows;
      BacklogInOrder(d'.office.rows, vm);
      BacklogInOrder(d.office.rows, vm);
      FilterConcat(WaitingFor(vm), d.office.rows, [r]);
      LettersSnoc(Filter(WaitingFor(vm), d.office.rows), r);
      QueuedInLine(d, d', vm, r);
    }
  }

  lemma QueuedInLine(d: Desk, d': Desk, vm: Vm, r: Row)
    requires InLine(d, vm) && r.deliveredAt.None?
    requires ReceivedBy(d', vm) == ReceivedBy(d, vm)
    requires ProducedFor(d', vm) == ProducedFor(d, vm) + if r.letter.vm == vm then [r.letter] else []
    requires Backlog(d'.office.rows, vm)
          == Backlog(d.office.rows, vm) + if r.letter.vm == vm then [r] else []
    ensures InLine(d', vm)
  {
    if r.letter.vm == vm {
      LettersSnoc(Backlog(d.office.rows, vm), r);
    } else {
      assert Backlog(d.office.rows, vm) + [] == Backlog(d.office.rows, vm);
    }
  }

  /** A posted letter that overtakes takes the VM out of line, if no letter is produced twice. */
  lemma PostJumpsOut(d: Desk, vm: Vm, elevation: nat, grant: nat, letter: Letter, works: bool, now: int)
    requires InLine(d, vm) && PostJumps(d, vm, letter, works)
    requires Distinct(ProducedFor(Posted(d, true, elevation, grant, letter, works, now), vm))
    ensures OutOfLine(Posted(d, true, elevation, grant, letter, works, now), vm)
  {
    var d' := Posted(d, true, elevation, grant, letter, works, now);
    ProducedGrows(d, letter, vm);
    ReceivedGrows(d, letter, vm);
    var i, n := |ReceivedBy(d, vm)|, |ProducedFor(d, vm)|;
    assert i < n && ReceivedBy(d', vm)[i] == letter;
    assert ProducedFor(d', vm)[i] != ProducedFor(d', vm)[n];
  }

  /** Out of line is for good: both lists only grow. */
  lemma StaysOut(d: Desk, d': Desk, vm: Vm)
    requires OutOfLine(d, vm)
    requires ReceivedBy(d, vm) <= ReceivedBy(d', vm) && ProducedFor(d, vm) <= ProducedFor(d', vm)
    ensures OutOfLine(d', vm)
  {
    var i :| 0 <= i < |ReceivedBy(d, vm)| && i < |ProducedFor(d, vm)| && ReceivedBy(d, vm)[i] != ProducedFor(d, vm)[i];
    assert ReceivedBy(d', vm)[i] != ProducedFor(d', vm)[i];
  }

  lemma PostGrows(d: Desk, vm: Vm, elevation: nat, grant: nat, letter: Letter, works: bool, now: int)
    ensures var d' := Posted(d, true, elevation, grant, letter, works, now);
      && ReceivedBy(d, vm) <= ReceivedBy(d', vm) && ProducedFor(d, vm) <= ProducedFor(d', vm)
      && d.office.rows <= d'.office.rows
  {
    ProducedGrows(d, letter, vm);
    ReceivedGrows(d, letter, vm);
  }

  /** In line as long as nothing has jumped; out of line as soon as something has, if no letter is
      produced twice. */
  predicate LineState(d: Desk, vm: Vm, jumped: bool)
  {
    && (!jumped ==> InLine(d, vm))
    && (jumped && Distinct(ProducedFor(d, vm)) ==> OutOfLine(d, vm))
  }

  lemma DistinctPrefix(xs: seq<Letter>, ys: seq<Letter>)
    requires xs <= ys && Distinct(ys)
    ensures Distinct(xs)
  {
  }

  lemma PostLineState(d: Desk, vm: Vm, elevation: nat, grant: nat, letter: Letter, works: bool, now: int, jumped: bool)
    requires LineState(d, vm, jumped)
    requires Increasing(Posted(d, true, elevation, grant, letter, works, now).office.rows)
    ensures LineState(Posted(d, true, elevation, grant, letter, works, now), vm,
                      jumped || PostJumps(d, vm, letter, works))
  {
    var d' := Posted(d, true, elevation, grant, letter, works, now);
    PostGrows(d, vm, elevation, grant, letter, works, now);
    if jumped || PostJumps(d, vm, letter, works) {
      if Distinct(ProducedFor(d', vm)) {
        DistinctPrefix(ProducedFor(d, vm), ProducedFor(d', vm));
        if jumped {
          StaysOut(d, d', vm);
        } else {
          PostJumpsOut(d, vm, elevation, grant, letter, works, now);
        }
      }
    } else {
      PostKeepsLine(d, vm, elevation, grant, letter, works, now);
    }
  }

  lemma NoticeLineState(d: Desk, vm: Vm, id: nat, e: Elevation, grant: nat, replayDelivered: bool, luck: Luck,
                        jumped: bool)
    requires LineState(d, vm, jumped)
    requires Increasing(Notified(d, true, id, e, grant, replayDelivered, luck).office.rows)
    ensures LineState(Notified(d, true, id, e, grant, replayDelivered, luck), vm,
                      jumped || NoticeJumps(d, vm, id, e, grant, replayDelivered, luck))
  {
    if e.request.source.agent != "" {
      PostLineState(d, vm, id, grant, Letter(NoticeVm(e), GrantCreated(id, grant, replayDelivered)),
                    luck.noticeWorks, luck.noticeAt, jumped);
    }
  }

  lemma NoticeGrows(d: Desk, vm: Vm, id: nat, e: Elevation, grant: nat, replayDelivered: bool, luck: Luck)
    ensures var d' := Notified(d, true, id, e, grant, replayDelivered, luck);
      ProducedFor(d, vm) <= ProducedFor(d', vm) && d.office.rows <= d'.office.rows
  {
    PostGrows(d, vm, id, grant, Letter(NoticeVm(e), GrantCreated(id, grant, replayDelivered)),
              luck.noticeWorks, luck.noticeAt);
  }

  lemma ApproveLineState(d: Desk, vm: Vm, step: Step, jumped: bool)
    requires step.Approve? && LineState(d, vm, jumped)
    requires Increasing(Next(d, true, step).office.rows)
    ensures LineState(Next(d, true, step), vm, jumped || StepJumps(d, vm, step))
  {
    var id, e, grant, luck := step.id, step.e, step.grant, step.luck;
    if Target(e).None? {
      NoticeLineState(d, vm, id, e, grant, false, luck, jumped);
    } else {
      var letter, responded := Response(e, grant), Responded(d, id, e, grant, luck);
      var delivered := Accepts(d, letter.vm, luck.responseWorks);
      NoticeGrows(responded, vm, id, e, grant, delivered, luck);
      PostLineState(d, vm, id, grant, letter, luck.responseWorks, luck.responseAt, jumped);
      NoticeLineState(responded, vm, id, e, grant, delivered, luck,
                      jumped || PostJumps(d, vm, letter, luck.responseWorks));
    }
  }

  // Flushing

  lemma FilterUpdate<T>(p: T -> bool, xs: seq<T>, j: nat, y: T)
    requires j < |xs| && !p(y)
    ensures Filter(p, xs[j := y]) == Filter(p, xs[..j]) + Filter(p, xs[j + 1..])
    ensures Filter(p, xs) == Filter(p, xs[..j]) + (if p(xs[j]) then [xs[j]] else []) + Filter(p, xs[j + 1..])
  {
    assert xs == xs[..j] + ([xs[j]] + xs[j + 1..]);
    assert xs[j := y] == xs[..j] + ([y] + xs[j + 1..]);
    FilterConcat(p, xs[..j], [xs[j]] + xs[j + 1..]);
    FilterConcat(p, xs[..j], [y] + xs[j + 1..]);
    FilterConcat(p, [xs[j]], xs[j + 1..]);
    FilterConcat(p, [y], xs[j + 1..]);
  }

  lemma FilterDropsFirst<T>(p: T -> bool, xs: seq<T>, j: nat, y: T)
    requires j < |xs| && p(xs[j]) && !p(y) && forall a | 0 <= a < j :: !p(xs[a])
    ensures Filter(p, xs) == [xs[j]] + Filter(p, xs[j := y])
  {
    FilterUpdate(p, xs, j, y);
    FilterNone(p, xs[..j]);
  }

  /** The next row of the backlog is the first in the table that waits for the VM. */
  lemma NextIsFirst(rows: seq<Row>, vm: Vm, backlog: seq<Row>, i: nat, a: nat)
    requires Cursor(rows, vm, backlog, i) && i < |backlog| && Increasing(rows)
    requires a < |rows| && WaitingFor(vm)(rows[a])
    ensures backlog[i].id <= a
  {
    assert rows[a] in rows;
    var m :| i <= m < |backlog| && backlog[m] == rows[a];
    assert m > i ==> ByCreation()(backlog[i]) <= ByCreation()(backlog[m]);
  }

  /** Marking the next row of the backlog takes it off the front. */
  lemma MarkingFirst(rows: seq<Row>, vm: Vm, backlog: seq<Row>, i: nat, now: int)
    requires Cursor(rows, vm, backlog, i) && i < |backlog| && Increasing(rows)
    ensures Filter(WaitingFor(vm), rows) == [backlog[i]] + Filter(WaitingFor(vm), Marked(rows, backlog[i].id, now))
    ensures Increasing(Marked(rows, backlog[i].id, now))
  {
    MarkedIsUpdate(rows, vm, backlog, i, now);
    forall a | 0 <= a < backlog[i].id
      ensures !WaitingFor(vm)(rows[a])
    {
      if WaitingFor(vm)(rows[a]) {
        NextIsFirst(rows, vm, backlog, i, a);
      }
    }
    FilterDropsFirst(WaitingFor(vm), rows, backlog[i].id, backlog[i].(deliveredAt := Some(now)));
  }

  lemma MarkingOther(rows: seq<Row>, vm: Vm, backlog: seq<Row>, i: nat, now: int, other: Vm)
    requires Cursor(rows, vm, backlog, i) && i < |backlog| && other != vm
    ensures Filter(WaitingFor(other), Marked(rows, backlog[i].id, now)) == Filter(WaitingFor(other), rows)
  {
    MarkedIsUpdate(rows, vm, backlog, i, now);
    assert WaitingFor(vm)(backlog[i]) && !WaitingFor(other)(backlog[i]);
    FilterUpdate(WaitingFor(other), rows, backlog[i].id, backlog[i].(deliveredAt := Some(now)));
  }

  /** What a VM has received, followed by its waiting rows as they stand in the table. */
  function Line(o: Office, vm: Vm): seq<Letter>
  {
    Filter(For(vm), o.wire.accepted) + Letters(Filter(WaitingFor(vm), o.rows))
  }

  lemma HandingMovesOn(o: Office, vm: Vm, backlog: seq<Row>, i: nat, now: int)
    requires Cursor(o.rows, vm, backlog, i) && i < |backlog| && Increasing(o.rows)
    ensures Line(Handed(o, vm, backlog[i], now), vm) == Line(o, vm)
  {
    var row, marked := backlog[i], Marked(o.rows, backlog[i].id, now);
    assert WaitingFor(vm)(row);
    var letter, received := row.letter, Filter(For(vm), o.wire.accepted);
    FilterConcat(For(vm), o.wire.accepted, [letter]);
    MarkingFirst(o.rows, vm, backlog, i, now);
    LettersCons(row, Filter(WaitingFor(vm), marked));
    Reassociate(received, letter, Letters(Filter(WaitingFor(vm), marked)));
  }

  lemma HandingSkips(o: Office, vm: Vm, backlog: seq<Row>, i: nat, now: int, other: Vm)
    requires Cursor(o.rows, vm, backlog, i) && i < |backlog| && other != vm
    ensures Line(Handed(o, vm, backlog[i], now), other) == Line(o, other)
  {
    FilterConcat(For(other), o.wire.accepted, [Letter(vm, backlog[i].letter.message)]);
    MarkingOther(o.rows, vm, backlog, i, now, other);
    assert Filter(For(other), o.wire.accepted) + [] == Filter(For(other), o.wire.accepted);
  }

  lemma HandingGrows(o: Office, vm: Vm, row: Row, now: int, other: Vm)
    ensures Filter(For(other), o.wire.accepted) <= Filter(For(other), Handed(o, vm, row, now).wire.accepted)
  {
    FilterConcat(For(other), o.wire.accepted, [Letter(vm, row.letter.message)]);
  }

  lemma Reassociate(xs: seq<Letter>, y: Letter, zs: seq<Letter>)
    ensures xs + ([y] + zs) == xs + [y] + zs
  {
  }

  lemma LettersCons(r: Row, rows: seq<Row>)
    ensures Letters([r] + rows) == [r.letter] + Letters(rows)
  {
  }

  lemma {:induction false} FlushKeepsLine(
      o: Office, vm: Vm, backlog: seq<Row>, i: nat, now: int, works: nat -> bool, other: Vm)
    requires Cursor(o.rows, vm, backlog, i) && Increasing(o.rows)
    ensures Line(Flushed(o, vm, backlog, i, now, works), other) == Line(o, other)
    ensures Filter(For(other), o.wire.accepted)
         <= Filter(For(other), Flushed(o, vm, backlog, i, now, works).wire.accepted)
    decreases |backlog| - i
  {
    if i < |backlog| && Reachable(o.wire, vm) && works(i) {
      if other == vm {
        HandingMovesOn(o, vm, backlog, i, now);
      } else {
        HandingSkips(o, vm, backlog, i, now, other);
      }
      HandingGrows(o, vm, backlog[i], now, other);
      CursorMoves(o.rows, vm, backlog, i, now);
      MarkingFirst(o.rows, vm, backlog, i, now);
      FlushKeepsLine(Handed(o, vm, backlog[i], now), vm, backlog, i + 1, now, works, other);
    }
  }

  lemma FlushLineState(d: Desk, vm: Vm, step: Step, jumped: bool)
    requires step.Flush? && LineState(d, vm, jumped) && Numbered(d.office.rows)
    requires Increasing(d.office.rows) && Increasing(Next(d, true, step).office.rows)
    ensures LineState(Next(d, true, step), vm, jumped)
  {
    var rows, d' := d.office.rows, Next(d, true, step);
    var backlog := Backlog(rows, step.vm);
    BacklogIsCursor(rows, step.vm);
    FlushKeepsLine(d.office, step.vm, backlog, 0, step.now, step.works, vm);
    BacklogInOrder(rows, vm);
    BacklogInOrder(d'.office.rows, vm);
    if jumped && Distinct(ProducedFor(d, vm)) {
      StaysOut(d, d', vm);
    }
  }

  // Runs

  lemma IncreasingBefore(d: Desk, step: Step)
    requires Numbered(d.office.rows) && Increasing(Next(d, true, step).office.rows)
    ensures Increasing(d.office.rows)
  {
    RowsGrow(d, true, step);
  }

  lemma JumpsSnoc(steps: seq<Step>, vm: Vm)
    requires steps != []
    ensures var before := steps[..|steps| - 1];
      Jumps(steps, vm) <==> Jumps(before, vm) || StepJumps(Run(true, before), vm, steps[|steps| - 1])
  {
    var before := steps[..|steps| - 1];
    assert forall i | 0 <= i < |before| :: before[..i] == steps[..i] && before[i] == steps[i];
    if Jumps(before, vm) {
      var i :| 0 <= i < |before| && StepJumps(Run(true, before[..i]), vm, before[i]);
      assert StepJumps(Run(true, steps[..i]), vm, steps[i]);
    }
    if Jumps(steps, vm) {
      var i :| 0 <= i < |steps| && StepJumps(Run(true, steps[..i]), vm, steps[i]);
      assert i < |before| ==> StepJumps(Run(true, before[..i]), vm, before[i]);
    }
  }

  lemma {:induction false} RunLineState(steps: seq<Step>, vm: Vm)
    requires Increasing(Run(true, steps).office.rows)
    ensures LineState(Run(true, steps), vm, Jumps(steps, vm))
  {
    if steps != [] {
      var before, step := steps[..|steps| - 1], steps[|steps| - 1];
      var d := Run(true, before);
      NothingLost(true, before);
      IncreasingBefore(d, step);
      RunLineState(before, vm);
      JumpsSnoc(steps, vm);
      if step.Approve? {
        ApproveLineState(d, vm, step, Jumps(before, vm));
      } else if step.Flush? {
        FlushLineState(d, vm, step, Jumps(before, vm));
      }
    }
  }

  /** Over every run with a queue and increasing creation times: what a VM has received, followed by what
      waits for it, is what was produced for it, in the order of production, as long as nothing is posted
      directly to the VM while letters wait for it; and if no letter is produced twice, only then. */
  lemma InLineIff(steps: seq<Step>, vm: Vm)
    requires Increasing(Run(true, steps).office.rows)
    ensures !Jumps(steps, vm) ==> InLine(Run(true, steps), vm)
    ensures Distinct(ProducedFor(Run(true, steps), vm)) ==> (InLine(Run(true, steps), vm) <==> !Jumps(steps, vm))
  {
    RunLineState(steps, vm);
    if OutOfLine(Run(true, steps), vm) {
      NotBoth(Run(true, steps), vm);
    }
  }

  lemma NotBoth(d: Desk, vm: Vm)
    requires OutOfLine(d, vm)
    ensures !InLine(d, vm)
  {
    var received := ReceivedBy(d, vm);
    assert (received + Letters(Backlog(d.office.rows, vm)))[..|received|] == received;
  }

  // A run that gets out of line

  lemma RunSnoc(steps: seq<Step>, step: Step)
    ensures Run(true, steps + [step]) == Next(Run(true, steps), true, step)
  {
    assert (steps + [step])[..|steps|] == steps;
  }

  function Approval(request: Request, id: nat): Step
  {
    Approve(id, Elevation(Approved, 0, request, None), id, Luck(true, true, 2 * id, 2 * id + 1))
  }

  /** The response and the notice of an approval. */
  function Pair(vm: Vm, request: Request, id: nat, delivered: bool): seq<Letter>
  {
    [Letter(vm, MemoryResponse(request, id)), Letter(vm, GrantCreated(id, id, delivered))]
  }

  /** While the VM is away both letters are queued. */
  lemma QueuedPair(vm: Vm, request: Request)
    requires vm.agent != "" && vm.machine != "" && request.kind == Memory && request.source == vm
    ensures var d := Next(START, true, Approval(request, 0)); var pair := Pair(vm, request, 0, false);
      && d.produced == pair && d.office.wire == START.office.wire
      && d.office.rows == [Row(0, 0, 0, pair[0], 0, None), Row(1, 0, 0, pair[1], 1, None)]
  {
  }

  /** When it is back both are handed over at once. */
  lemma HandedPair(d: Desk, vm: Vm, request: Request)
    requires vm.agent != "" && vm.machine != "" && request.kind == Memory && request.source == vm
    requires Reachable(d.office.wire, vm)
    ensures var d' := Next(d, true, Approval(request, 1)); var pair := Pair(vm, request, 1, true);
      && d'.produced == d.produced + pair && d'.office.wire.accepted == d.office.wire.accepted + pair
      && d'.office.rows == d.office.rows
  {
    assert d.produced + Pair(vm, request, 1, true)
        == d.produced + [Pair(vm, request, 1, true)[0]] + [Pair(vm, request, 1, true)[1]];
  }

  /** Two approvals, the first while the VM is away, the second after it has reconnected and before it is
      flushed: the VM receives the letters of the second first. */
  lemma DirectCanOvertake(vm: Vm, request: Request, connection: int)
    requires vm.agent != "" && vm.machine != "" && request.kind == Memory && request.source == vm
    ensures var away: seq<Step> := [Approval(request, 0)];
      var steps := away + [Register(connection)] + [Bind(vm, connection)] + [Approval(request, 1)];
      && Increasing(Run(true, steps).office.rows)
      && ReceivedBy(Run(true, steps), vm) == Pair(vm, request, 1, true)
      && ProducedFor(Run(true, steps), vm) == Pair(vm, request, 0, false) + Pair(vm, request, 1, true)
      && !InLine(Run(true, steps), vm)
  {
    var first, second := Pair(vm, request, 0, false), Pair(vm, request, 1, true);
    var away: seq<Step> := [Approval(request, 0)];
    var back := away + [Register(connection)] + [Bind(vm, connection)];
    assert [] + away == away;
    RunSnoc([], Approval(request, 0));
    QueuedPair(vm, request);
    RunSnoc(away, Register(connection));
    RunSnoc(away + [Register(connection)], Bind(vm, connection));
    RunSnoc(back, Approval(request, 1));
    HandedPair(Run(true, back), vm, request);
    var d := Run(true, back + [Approval(request, 1)]);
    assert d.office.wire.accepted == second && d.produced == first + second;
    SecondPairFirst(d, vm, request);
  }

  lemma SecondPairFirst(d: Desk, vm: Vm, request: Request)
    requires d.office.wire.accepted == Pair(vm, request, 1, true)
    requires d.produced == Pair(vm, request, 0, false) + Pair(vm, request, 1, true)
    ensures ReceivedBy(d, vm) == d.office.wire.accepted && ProducedFor(d, vm) == d.produced && !InLine(d, vm)
  {
    FilterAll(For(vm), d.office.wire.accepted);
    FilterAll(For(vm), d.produced);
    assert ReceivedBy(d, vm)[0] != ProducedFor(d, vm)[0];
    NotBoth(d, vm);
  }
}
