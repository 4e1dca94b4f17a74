/** Laws of the replay queue over whole runs: nothing is lost, and the queued messages of each VM are
    delivered in order, though a message posted directly may overtake them. */
module ReplayLaws {
  import opened Common
  import opened Replay

  // A flush, row by row

  /** The backlog from `i` on is exactly what the VM still waits for. */
  ghost predicate Cursor(rows: seq<Row>, vm: Vm, backlog: seq<Row>, i: nat)
  {
    && Numbered(rows) && i <= |backlog|
    && SortedBy(ByCreation(), backlog) && UniqueBy(RowId(), backlog)
    && (forall m | i <= m < |backlog| :: backlog[m].id < |rows| && rows[backlog[m].id] == backlog[m])
    && (forall m | i <= m < |backlog| :: WaitingFor(vm)(backlog[m]))
    && (forall r | r in rows && WaitingFor(vm)(r) :: r in backlog[i..])
  }

  lemma BacklogIsCursor(rows: seq<Row>, vm: Vm)
    requires Numbered(rows)
    ensures Cursor(rows, vm, Backlog(rows, vm), 0)
  {
    var backlog := Backlog(rows, vm);
    BacklogRows(rows, vm);
    forall m | 0 <= m < |backlog|
      ensures WaitingFor(vm)(backlog[m]) && backlog[m].id < |rows| && rows[backlog[m].id] == backlog[m]
    {
      assert backlog[m] in backlog && backlog[m] in rows;
      var i :| 0 <= i < |rows| && rows[i] == backlog[m];
    }
    assert backlog[0..] == backlog;
  }

  lemma MarkedIsUpdate(rows: seq<Row>, vm: Vm, backlog: seq<Row>, i: nat, now: int)
    requires Cursor(rows, vm, backlog, i) && i < |backlog|
    ensures Marked(rows, backlog[i].id, now) == rows[backlog[i].id := backlog[i].(deliveredAt := Some(now))]
  {
  }

  lemma CursorMoves(rows: seq<Row>, vm: Vm, backlog: seq<Row>, i: nat, now: int)
    requires Cursor(rows, vm, backlog, i) && i < |backlog|
    ensures Cursor(Marked(rows, backlog[i].id, now), vm, backlog, i + 1)
  {
    var marked := Marked(rows, backlog[i].id, now);
    forall m | i + 1 <= m < |backlog|
      ensures backlog[m].id < |marked| && marked[backlog[m].id] == backlog[m]
    {
      assert RowId()(backlog[i]) != RowId()(backlog[m]);
    }
    forall r | r in marked && WaitingFor(vm)(r)
      ensures r in backlog[i + 1..]
    {
      var j :| 0 <= j < |marked| && marked[j] == r;
      assert rows[j] == r && r in rows && r in backlog[i..];
      assert r != backlog[i];
      var m :| i <= m < |backlog| && backlog[m] == r;
      assert backlog[i + 1..][m - i - 1] == r;
    }
  }

  // Nothing is lost

  /** The letters of the undelivered rows. */
  function Waiting(rows: seq<Row>): multiset<Letter>
  {
    if rows == [] then multiset{}
    else (if rows[0].deliveredAt.None? then multiset{rows[0].letter} else multiset{}) + Waiting(rows[1..])
  }

  lemma {:induction false} WaitingAppend(rows: seq<Row>, r: Row)
    requires r.deliveredAt.None?
    ensures Waiting(rows + [r]) == Waiting(rows) + multiset{r.letter}
  {
    if rows != [] {
      assert (rows + [r])[1..] == rows[1..] + [r];
      WaitingAppend(rows[1..], r);
    }
  }

  lemma {:induction false} WaitingUpdate(rows: seq<Row>, j: nat, now: int)
    requires j < |rows| && rows[j].deliveredAt.None?
    ensures Waiting(rows) == Waiting(rows[j := rows[j].(deliveredAt := Some(now))]) + multiset{rows[j].letter}
  {
    var updated := rows[j := rows[j].(deliveredAt := Some(now))];
    if j == 0 {
      assert updated[1..] == rows[1..];
    } else {
      assert updated[1..] == rows[1..][j - 1 := rows[j].(deliveredAt := Some(now))];
      WaitingUpdate(rows[1..], j - 1, now);
    }
  }

  /** Everything handed over or waiting. */
  ghost function Kept(o: Office): multiset<Letter>
  {
    multiset(o.wire.accepted) + Waiting(o.rows)
  }

  lemma {:induction false} FlushKeeps(o: Office, vm: Vm, backlog: seq<Row>, i: nat, now: int, works: nat -> bool)
    requires Cursor(o.rows, vm, backlog, i)
    ensures var f := Flushed(o, vm, backlog, i, now, works);
      && Kept(f) == Kept(o) && Numbered(f.rows) && o.wire.accepted <= f.wire.accepted
    decreases |backlog| - i
  {
    if i < |backlog| && Reachable(o.wire, vm) && works(i) {
      DeliveryKeeps(o, vm, backlog, i, now);
      CursorMoves(o.rows, vm, backlog, i, now);
      FlushKeeps(Handed(o, vm, backlog[i], now), vm, backlog, i + 1, now, works);
    }
  }

  /** Delivering one row moves its letter from waiting to handed over. */
  lemma DeliveryKeeps(o: Office, vm: Vm, backlog: seq<Row>, i: nat, now: int)
    requires Cursor(o.rows, vm, backlog, i) && i < |backlog|
    ensures Kept(Handed(o, vm, backlog[i], now))
         == Kept(o)
  {
    MarkedIsUpdate(o.rows, vm, backlog, i, now);
    WaitingUpdate(o.rows, backlog[i].id, now);
    assert WaitingFor(vm)(backlog[i]);
  }

  /** A flush of a VM that can be reached, all of whose writes work, leaves nothing waiting for it, and hands
      over everything that waited, oldest first. */
  lemma FlushEmpties(o: Office, vm: Vm, now: int, works: nat -> bool)
    requires Numbered(o.rows) && Reachable(o.wire, vm)
    requires forall j | 0 <= j < |Backlog(o.rows, vm)| :: works(j)
    ensures var f := Flushed(o, vm, Backlog(o.rows, vm), 0, now, works);
      Backlog(f.rows, vm) == [] && f.wire.accepted == o.wire.accepted + Letters(Backlog(o.rows, vm))
  {
    var backlog := Backlog(o.rows, vm);
    assert backlog[0..] == backlog;
    var n := FlushStops(o, vm, backlog, 0, now, works);
    assert backlog[0..n] == backlog;
  }

  // Delivered rows form a prefix

  /** No row is delivered while an older one of the same VM waits. */
  predicate InOrder(rows: seq<Row>)
  {
    forall i, j | 0 <= i < |rows| && 0 <= j < |rows| && rows[i].letter.vm == rows[j].letter.vm
                  && rows[i].createdAt < rows[j].createdAt ::
      rows[j].deliveredAt.Some? ==> rows[i].deliveredAt.Some?
  }

  lemma MarkingKeepsOrder(rows: seq<Row>, vm: Vm, backlog: seq<Row>, i: nat, now: int)
    requires Cursor(rows, vm, backlog, i) && i < |backlog| && InOrder(rows)
    ensures InOrder(Marked(rows, backlog[i].id, now))
  {
    forall a | 0 <= a < |rows| && WaitingFor(vm)(rows[a])
      ensures backlog[i].createdAt <= rows[a].createdAt
    {
      assert rows[a] in rows;
      var m :| i <= m < |backlog| && backlog[m] == rows[a];
      assert m > i ==> ByCreation()(backlog[i]) <= ByCreation()(backlog[m]);
    }
  }

  lemma {:induction false} FlushKeepsOrder(o: Office, vm: Vm, backlog: seq<Row>, i: nat, now: int, works: nat -> bool)
    requires Cursor(o.rows, vm, backlog, i) && InOrder(o.rows)
    ensures InOrder(Flushed(o, vm, backlog, i, now, works).rows)
    decreases |backlog| - i
  {
    if i < |backlog| && Reachable(o.wire, vm) && works(i) {
      MarkingKeepsOrder(o.rows, vm, backlog, i, now);
      CursorMoves(o.rows, vm, backlog, i, now);
      FlushKeepsOrder(Handed(o, vm, backlog[i], now), vm, backlog, i + 1, now, works);
    }
  }

  /** A new row keeps the order exactly when no younger row of its VM has been delivered. */
  lemma EnqueueKeepsOrderIff(o: Office, elevation: nat, grant: nat, letter: Letter, now: int)
    requires InOrder(o.rows)
    ensures InOrder(Enqueued(o, elevation, grant, letter, now).rows)
       <==> forall r | r in o.rows && r.letter.vm == letter.vm && r.deliveredAt.Some? :: r.createdAt <= now
  {
    var rows := Enqueued(o, elevation, grant, letter, now).rows;
    if InOrder(rows) {
      forall r | r in o.rows && r.letter.vm == letter.vm && r.deliveredAt.Some?
        ensures r.createdAt <= now
      {
        var j :| 0 <= j < |o.rows| && o.rows[j] == r;
        assert rows[j] == r && rows[|o.rows|].deliveredAt.None?;
      }
    } else {
      assert forall j | 0 <= j < |o.rows| :: rows[j] in o.rows;
    }
  }

  /** A flush leaves the rows of every other VM alone, and of its own rows it changes nothing but the
      delivery of undelivered ones. */
  lemma {:induction false} FlushTouches(
      o: Office, vm: Vm, backlog: seq<Row>, i: nat, now: int, works: nat -> bool, j: nat)
    requires Cursor(o.rows, vm, backlog, i) && j < |o.rows|
    ensures var f := Flushed(o, vm, backlog, i, now, works);
      && |f.rows| == |o.rows|
      && (f.rows[j] == o.rows[j]
          || (WaitingFor(vm)(o.rows[j]) && f.rows[j] == o.rows[j].(deliveredAt := Some(now))))
    decreases |backlog| - i
  {
    if i < |backlog| && Reachable(o.wire, vm) && works(i) {
      var step := Handed(o, vm, backlog[i], now);
      CursorMoves(o.rows, vm, backlog, i, now);
      FlushTouches(step, vm, backlog, i + 1, now, works, j);
    }
  }

  // Runs

  datatype Step =
    | Register(connection: int)
    | Bind(vm: Vm, connection: int)
    | Disconnect(connection: int)
    | Approve(id: nat, e: Elevation, grant: nat, luck: Luck)
    | Flush(vm: Vm, now: int, works: nat -> bool)

  function Next(d: Desk, queueing: bool, step: Step): Desk
  {
    var w := d.office.wire;
    match step
    case Register(connection) => d.(office := d.office.(wire := w.(open := w.open + {connection})))
    case Bind(vm, connection) => d.(office := d.office.(wire := w.(bound := w.bound[vm := connection])))
    case Disconnect(connection) => d.(office := d.office.(wire := Unbound(w, connection)))
    case Approve(id, e, grant, luck) => Replayed(d, queueing, id, e, grant, luck)
    case Flush(vm, now, works) => d.(office := Flushed(d.office, vm, Backlog(d.office.rows, vm), 0, now, works))
  }

  const START := Desk(Office(Wire(map[], {}, []), []), [], [])

  function Run(queueing: bool, steps: seq<Step>): Desk
  {
    if steps == [] then START else Next(Run(queueing, steps[..|steps| - 1]), queueing, steps[|steps| - 1])
  }

  /** Every letter produced was handed over, waits in the queue, or was lost, and only one of these. */
  ghost predicate Balanced(d: Desk)
  {
    Numbered(d.office.rows) && multiset(d.produced) == Kept(d.office) + multiset(d.lost)
  }

  lemma PostBalanced(d: Desk, queueing: bool, elevation: nat, grant: nat, letter: Letter, works: bool, now: int)
    requires Balanced(d)
    ensures Balanced(Posted(d, queueing, elevation, grant, letter, works, now))
    ensures queueing ==> Posted(d, queueing, elevation, grant, letter, works, now).lost == d.lost
  {
    WaitingAppend(d.office.rows, Row(|d.office.rows|, elevation, grant, letter, now, None));
  }

  lemma NoticeBalanced(d: Desk, queueing: bool, id: nat, e: Elevation, grant: nat, replayDelivered: bool, luck: Luck)
    requires Balanced(d)
    ensures Balanced(Notified(d, queueing, id, e, grant, replayDelivered, luck))
    ensures queueing ==> Notified(d, queueing, id, e, grant, replayDelivered, luck).lost == d.lost
  {
    PostBalanced(d, queueing, id, grant, Letter(NoticeVm(e), GrantCreated(id, grant, replayDelivered)),
                 luck.noticeWorks, luck.noticeAt);
  }

  lemma ReplayBalanced(d: Desk, queueing: bool, id: nat, e: Elevation, grant: nat, luck: Luck)
    requires Balanced(d)
    ensures Balanced(Replayed(d, queueing, id, e, grant, luck))
    ensures queueing ==> Replayed(d, queueing, id, e, grant, luck).lost == d.lost
  {
    if Target(e).None? {
      NoticeBalanced(d, queueing, id, e, grant, false, luck);
    } else {
      var letter := Letter(Target(e).value.source, MemoryResponse(Target(e).value, grant));
      PostBalanced(d, queueing, id, grant, letter, luck.responseWorks, luck.responseAt);
      NoticeBalanced(Posted(d, queueing, id, grant, letter, luck.responseWorks, luck.responseAt), queueing, id, e,
                     grant, Accepts(d, letter.vm, luck.responseWorks), luck);
    }
  }

  /** Conservation: in every run of approvals, flushes and reconnections, each letter that a replay
      produced has been handed to a connection once, or waits in exactly one row; only a server
      without a queue loses any. */
  lemma {:induction false} NothingLost(queueing: bool, steps: seq<Step>)
    ensures Balanced(Run(queueing, steps))
    ensures queueing ==> Run(queueing, steps).lost == []
  {
    if steps != [] {
      var before, step := Run(queueing, steps[..|steps| - 1]), steps[|steps| - 1];
      NothingLost(queueing, steps[..|steps| - 1]);
      if step.Approve? {
        ReplayBalanced(before, queueing, step.id, step.e, step.grant, step.luck);
      } else if step.Flush? {
        BacklogIsCursor(before.office.rows, step.vm);
        FlushKeeps(before.office, step.vm, Backlog(before.office.rows, step.vm), 0, step.now, step.works);
      }
    }
  }

  /** Rows are created at ever later times. */
  predicate Increasing(rows: seq<Row>)
  {
    forall i, j | 0 <= i < j < |rows| :: rows[i].createdAt < rows[j].createdAt
  }

  /** In a run whose rows were created at increasing times, the delivered rows of each VM are its
      first ones. */
  lemma DeliveredFirst(queueing: bool, steps: seq<Step>, i: nat, j: nat)
    requires var rows := Run(queueing, steps).office.rows;
      && Increasing(rows) && i < j < |rows|
      && rows[i].letter.vm == rows[j].letter.vm && rows[j].deliveredAt.Some?
    ensures Run(queueing, steps).office.rows[i].deliveredAt.Some?
  {
    OrderKept(queueing, steps);
  }

  lemma {:induction false} OrderKept(queueing: bool, steps: seq<Step>)
    requires Increasing(Run(queueing, steps).office.rows)
    ensures InOrder(Run(queueing, steps).office.rows)
  {
    if steps != [] {
      var before, after, step := Run(queueing, steps[..|steps| - 1]), Run(queueing, steps), steps[|steps| - 1];
      NothingLost(queueing, steps[..|steps| - 1]);
      RowsGrow(before, queueing, step);
      assert Increasing(before.office.rows);
      OrderKept(queueing, steps[..|steps| - 1]);
      if step.Flush? {
        BacklogIsCursor(before.office.rows, step.vm);
        FlushKeepsOrder(before.office, step.vm, Backlog(before.office.rows, step.vm), 0, step.now, step.works);
      } else {
        assert forall i | |before.office.rows| <= i < |after.office.rows| :: after.office.rows[i].deliveredAt.None?;
      }
    }
  }

  /** Rows are only added, undelivered, and keep their creation time. */
  lemma RowsGrow(d: Desk, queueing: bool, step: Step)
    requires Numbered(d.office.rows)
    ensures var rows, rows' := d.office.rows, Next(d, queueing, step).office.rows;
      && |rows| <= |rows'|
      && (forall i | 0 <= i < |rows| :: rows'[i].createdAt == rows[i].createdAt)
      && (!step.Flush? ==> rows <= rows' && forall i | |rows| <= i < |rows'| :: rows'[i].deliveredAt.None?)
  {
    if step.Flush? {
      BacklogIsCursor(d.office.rows, step.vm);
      var backlog := Backlog(d.office.rows, step.vm);
      assert |Flushed(d.office, step.vm, backlog, 0, step.now, step.works).rows| == |d.office.rows| by {
        FlushLength(d.office, step.vm, backlog, 0, step.now, step.works);
      }
      forall i | 0 <= i < |d.office.rows|
        ensures Next(d, queueing, step).office.rows[i].createdAt == d.office.rows[i].createdAt
      {
        FlushTouches(d.office, step.vm, backlog, 0, step.now, step.works, i);
      }
    }
  }

  lemma {:induction false} FlushLength(o: Office, vm: Vm, backlog: seq<Row>, i: nat, now: int, works: nat -> bool)
    requires i <= |backlog|
    ensures |Flushed(o, vm, backlog, i, now, works).rows| == |o.rows|
    decreases |backlog| - i
  {
    if i < |backlog| && Reachable(o.wire, vm) && works(i) {
      FlushLength(Handed(o, vm, backlog[i], now), vm, backlog, i + 1, now, works);
    }
  }
}
