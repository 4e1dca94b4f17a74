/** Replaying an approved elevation: the messages it produces are handed to the agent's connection,
    or queued and flushed in order when the VM reconnects.  Whether a write to an open connection
    succeeds is decided by the environment. */
module Replay {
  import opened Common

  datatype Vm = Vm(agent: string, machine: string)

  /** The types of message that matter here: the three memory operations, grant requests, others. */
  datatype Kind = Memory | GrantRequest | Other

  /** `target` is the agent whose memory the request is about. */
  datatype Request = Request(id: nat, kind: Kind, source: Vm, target: string)

  datatype Status = Pending | Approved | Denied | Expired

  /** An elevation keeps the message that needed it; a grant request may carry the message to replay. */
  datatype Elevation = Elevation(status: Status, expiresAt: int, request: Request, attached: Option<Request>)

  datatype Outbound =
    | MemoryResponse(request: Request, grant: nat)
    | GrantCreated(elevation: nat, grant: nat, replayDelivered: bool)

  datatype Letter = Letter(vm: Vm, message: Outbound)

  // The connections

  /** `accepted` lists what was handed to a connection, in order. */
  datatype Wire = Wire(bound: map<Vm, int>, open: set<int>, accepted: seq<Letter>)

  predicate Reachable(w: Wire, vm: Vm)
  {
    vm in w.bound && w.bound[vm] in w.open
  }

  function Delivered(w: Wire, letter: Letter): Wire
  {
    w.(accepted := w.accepted + [letter])
  }

  function Unbound(w: Wire, connection: int): Wire
  {
    w.(bound := map vm | vm in w.bound && w.bound[vm] != connection :: w.bound[vm], open := w.open - {connection})
  }

  class AgentTransport {
    var bound: map<Vm, int>
    var open: set<int>
    var accepted: seq<Letter>

    ghost function State(): Wire
      reads this
    {
      Wire(bound, open, accepted)
    }

    constructor ()
      ensures State() == Wire(map[], {}, [])
    {
      bound, open, accepted := map[], {}, [];
    }

    method RegisterWriter(connection: int)
      modifies this
      ensures State() == old(State()).(open := old(open) + {connection})
      ensures forall vm :: Reachable(State(), vm) <==>
                Reachable(old(State()), vm) || (vm in bound && bound[vm] == connection)
    {
      open := open + {connection};
    }

    method BindAgent(vm: Vm, connection: int)
      modifies this
      ensures State() == old(State()).(bound := old(bound)[vm := connection])
      ensures forall other :: Reachable(State(), other) <==>
                if other == vm then connection in open else Reachable(old(State()), other)
    {
      bound := bound[vm := connection];
    }

    method Unbind(connection: int)
      modifies this
      ensures State() == Unbound(old(State()), connection)
      ensures forall vm :: Reachable(State(), vm) <==> Reachable(old(State()), vm) && old(bound)[vm] != connection
    {
      open := open - {connection};
      bound := map vm | vm in bound && bound[vm] != connection :: bound[vm];
    }

    method Deliver(letter: Letter, works: bool) returns (sent: bool)
      modifies this`accepted
      ensures sent == (Reachable(State(), letter.vm) && works)
      ensures State() == if sent then Delivered(old(State()), letter) else old(State())
    {
      if letter.vm !in bound || bound[letter.vm] !in open {
        return false;
      }
      if works {
        accepted := accepted + [letter];
      }
      return works;
    }
  }

  // The queue

  datatype Row = Row(id: nat, elevation: nat, grant: nat, letter: Letter, createdAt: int, deliveredAt: Option<int>)

  function WaitingFor(vm: Vm): Row -> bool
  {
    (r: Row) => r.letter.vm == vm && r.deliveredAt.None?
  }

  function ByCreation(): Row -> int
  {
    (r: Row) => r.createdAt
  }

  function RowId(): Row -> nat
  {
    (r: Row) => r.id
  }

  /** What a flush looks at: the undelivered rows of the VM, oldest first. */
  function Backlog(rows: seq<Row>, vm: Vm): seq<Row>
  {
    SortBy(ByCreation(), Filter(WaitingFor(vm), rows))
  }

  function Marked(rows: seq<Row>, id: nat, now: int): (marked: seq<Row>)
    ensures |marked| == |rows|
    ensures forall i | 0 <= i < |rows| :: marked[i] ==
              if rows[i].id == id && rows[i].deliveredAt.None? then rows[i].(deliveredAt := Some(now)) else rows[i]
  {
    seq(|rows|, i requires 0 <= i < |rows| =>
      if rows[i].id == id && rows[i].deliveredAt.None? then rows[i].(deliveredAt := Some(now)) else rows[i])
  }

  /** The connections and the queue; rows are never removed, and a row's id is its position. */
  datatype Office = Office(wire: Wire, rows: seq<Row>)

  function Enqueued(o: Office, elevation: nat, grant: nat, letter: Letter, now: int): Office
  {
    o.(rows := o.rows + [Row(|o.rows|, elevation, grant, letter, now, None)])
  }

  /** The office after the first letter of the backlog has been handed over. */
  function Handed(o: Office, vm: Vm, row: Row, now: int): Office
  {
    Office(Delivered(o.wire, Letter(vm, row.letter.message)), Marked(o.rows, row.id, now))
  }

  /** Delivering the backlog from position `i` until the first failure. */
  function Flushed(o: Office, vm: Vm, backlog: seq<Row>, i: nat, now: int, works: nat -> bool): Office
    requires i <= |backlog|
    decreases |backlog| - i
  {
    if i < |backlog| && Reachable(o.wire, vm) && works(i) then
      Flushed(Handed(o, vm, backlog[i], now), vm, backlog, i + 1, now, works)
    else o
  }

  // What a flush does

  predicate Numbered(rows: seq<Row>)
  {
    forall i | 0 <= i < |rows| :: rows[i].id == i
  }

  function Letters(rows: seq<Row>): (ls: seq<Letter>)
    ensures |ls| == |rows| && forall i | 0 <= i < |rows| :: ls[i] == rows[i].letter
  {
    seq(|rows|, i requires 0 <= i < |rows| => rows[i].letter)
  }

  function OtherThan(id: nat): Row -> bool
  {
    (r: Row) => r.id != id
  }

  lemma {:induction false} MarkedWaitsNoMore(rows: seq<Row>, vm: Vm, id: nat, now: int)
    ensures Filter(WaitingFor(vm), Marked(rows, id, now)) == Filter(OtherThan(id), Filter(WaitingFor(vm), rows))
  {
    if rows != [] {
      var marked := Marked(rows, id, now);
      assert marked[1..] == Marked(rows[1..], id, now);
      MarkedWaitsNoMore(rows[1..], vm, id, now);
      FilterConcat(OtherThan(id), if WaitingFor(vm)(rows[0]) then [rows[0]] else [],
                   Filter(WaitingFor(vm), rows[1..]));
    }
  }

  lemma BacklogRows(rows: seq<Row>, vm: Vm)
    requires Numbered(rows)
    ensures UniqueBy(RowId(), Backlog(rows, vm)) && SortedBy(ByCreation(), Backlog(rows, vm))
    ensures forall r :: r in Backlog(rows, vm) <==> r in rows && WaitingFor(vm)(r)
  {
    var waiting := Filter(WaitingFor(vm), rows);
    FilterUniqueBy(WaitingFor(vm), RowId(), rows);
    SortUniqueBy(ByCreation(), RowId(), waiting);
    SortBySorted(ByCreation(), waiting);
    FilterMembers(WaitingFor(vm), rows);
    SortByMembers(ByCreation(), waiting);
  }

  /** Marking the first row of the backlog leaves the rest of it. */
  lemma BacklogShrinks(rows: seq<Row>, vm: Vm, now: int)
    requires Numbered(rows) && Backlog(rows, vm) != []
    ensures Numbered(Marked(rows, Backlog(rows, vm)[0].id, now))
    ensures Backlog(Marked(rows, Backlog(rows, vm)[0].id, now), vm) == Backlog(rows, vm)[1..]
  {
    var backlog, id := Backlog(rows, vm), Backlog(rows, vm)[0].id;
    BacklogRows(rows, vm);
    MarkedWaitsNoMore(rows, vm, id, now);
    FilterSortBy(OtherThan(id), ByCreation(), Filter(WaitingFor(vm), rows));
    forall r | r in backlog[1..]
      ensures OtherThan(id)(r)
    {
      var i :| 0 <= i < |backlog[1..]| && backlog[1..][i] == r;
      assert RowId()(backlog[0]) != RowId()(backlog[i + 1]);
    }
    FilterAll(OtherThan(id), backlog[1..]);
  }

  /** A flush hands over the first `n` letters of the backlog and leaves the rest.  All these writes worked,
      and it stops short of the end only where the VM is away or the next write fails. */
  ghost predicate FlushedUpTo(o: Office, f: Office, vm: Vm, backlog: seq<Row>, i: nat, works: nat -> bool, n: nat)
    requires i <= n <= |backlog|
  {
    && f.wire == o.wire.(accepted := o.wire.accepted + Letters(backlog[i..n]))
    && Backlog(f.rows, vm) == backlog[n..]
    && (forall j | i <= j < n :: works(j))
    && (n > i ==> Reachable(o.wire, vm))
    && (n < |backlog| ==> !Reachable(o.wire, vm) || !works(n))
  }

  lemma HandedOne(o: Office, vm: Vm, backlog: seq<Row>, i: nat, now: int)
    requires i < |backlog| && Numbered(o.rows) && Backlog(o.rows, vm) == backlog[i..]
    ensures Handed(o, vm, backlog[i], now).wire == o.wire.(accepted := o.wire.accepted + [backlog[i].letter])
    ensures Numbered(Handed(o, vm, backlog[i], now).rows)
    ensures Backlog(Handed(o, vm, backlog[i], now).rows, vm) == backlog[i + 1..]
  {
    BacklogRows(o.rows, vm);
    assert backlog[i..][0] == backlog[i] && backlog[i] in Backlog(o.rows, vm);
    BacklogShrinks(o.rows, vm, now);
    assert backlog[i..][1..] == backlog[i + 1..];
  }

  lemma OneMoreHanded(o: Office, h: Office, f: Office, vm: Vm, backlog: seq<Row>, i: nat, works: nat -> bool, n: nat)
    requires i < n <= |backlog| && Reachable(o.wire, vm) && works(i)
    requires h.wire == o.wire.(accepted := o.wire.accepted + [backlog[i].letter])
    requires FlushedUpTo(h, f, vm, backlog, i + 1, works, n)
    ensures FlushedUpTo(o, f, vm, backlog, i, works, n)
  {
    assert Letters(backlog[i..n]) == [backlog[i].letter] + Letters(backlog[i + 1..n]);
    assert o.wire.accepted + [backlog[i].letter] + Letters(backlog[i + 1..n])
        == o.wire.accepted + ([backlog[i].letter] + Letters(backlog[i + 1..n]));
  }

  lemma {:induction false} FlushStops(o: Office, vm: Vm, backlog: seq<Row>, i: nat, now: int, works: nat -> bool)
    returns (n: nat)
    requires i <= |backlog| && Numbered(o.rows) && Backlog(o.rows, vm) == backlog[i..]
    ensures i <= n <= |backlog|
    ensures FlushedUpTo(o, Flushed(o, vm, backlog, i, now, works), vm, backlog, i, works, n)
    ensures Numbered(Flushed(o, vm, backlog, i, now, works).rows)
    decreases |backlog| - i
  {
    if i < |backlog| && Reachable(o.wire, vm) && works(i) {
      var h := Handed(o, vm, backlog[i], now);
      HandedOne(o, vm, backlog, i, now);
      n := FlushStops(h, vm, backlog, i + 1, now, works);
      OneMoreHanded(o, h, Flushed(h, vm, backlog, i + 1, now, works), vm, backlog, i, works, n);
    } else {
      n := i;
      assert Letters(backlog[i..i]) == [];
    }
  }

  class PendingReplayQueue {
    const transport: AgentTransport
    var rows: seq<Row>

    ghost function State(): Office
      reads this, transport
    {
      Office(transport.State(), rows)
    }

    /** Row ids are unique: each is the row's position. */
    predicate Valid()
      reads this
    {
      Numbered(rows)
    }

    constructor (transport: AgentTransport)
      ensures Valid() && this.transport == transport && rows == []
    {
      this.transport, rows := transport, [];
    }

    method Enqueue(elevation: nat, grant: nat, letter: Letter, now: int) returns (id: nat)
      modifies this
      ensures State() == Enqueued(old(State()), elevation, grant, letter, now)
      ensures id == |old(rows)| && (old(Valid()) ==> Valid())
    {
      id := |rows|;
      rows := rows + [Row(id, elevation, grant, letter, now, None)];
    }

    /** Hands over the oldest `count` letters waiting for the VM, in order, and keeps the rest.  Their writes
        all worked; anything is kept only if the VM is away or the next write fails. */
    method FlushForVm(vm: Vm, now: int, works: nat -> bool) returns (count: nat)
      requires Valid()
      modifies this, transport
      ensures Valid() && State() == Flushed(old(State()), vm, Backlog(old(rows), vm), 0, now, works)
      ensures count <= |Backlog(old(rows), vm)|
      ensures var backlog := Backlog(old(rows), vm);
        && transport.accepted == old(transport.accepted) + Letters(backlog[..count])
        && Backlog(rows, vm) == backlog[count..]
        && (forall j | 0 <= j < count :: works(j))
        && (count > 0 ==> Reachable(old(State()).wire, vm))
        && (count < |backlog| ==> !Reachable(old(State()).wire, vm) || !works(count))
      ensures transport.bound == old(transport.bound) && transport.open == old(transport.open)
    {
      ghost var n := FlushStops(State(), vm, Backlog(rows, vm), 0, now, works);
      assert Backlog(rows, vm)[0..n] == Backlog(rows, vm)[..n];
      var backlog := Backlog(rows, vm);
      count := 0;
      while count < |backlog|
        invariant count <= |backlog|
        invariant Flushed(old(State()), vm, backlog, 0, now, works) == Flushed(State(), vm, backlog, count, now, works)
        invariant |transport.accepted| == |old(transport.accepted)| + count
      {
        var sent := transport.Deliver(Letter(vm, backlog[count].letter.message), works(count));
        if !sent {
          return;
        }
        rows := Marked(rows, backlog[count].id, now);
        count := count + 1;
      }
    }
  }

  // Replay after approval

  /** The message to replay: the elevated one, or the one attached to a grant request. */
  function Target(e: Elevation): Option<Request>
  {
    match e.request.kind
    case Memory => Some(e.request)
    case GrantRequest => e.attached
    case Other => None
  }

  /** The state with its history: everything produced, and what was dropped for want of a queue. */
  datatype Desk = Desk(office: Office, produced: seq<Letter>, lost: seq<Letter>)

  predicate Accepts(d: Desk, vm: Vm, works: bool)
  {
    Reachable(d.office.wire, vm) && works
  }

  /** Deliver now, or queue if there is a queue. */
  function Posted(d: Desk, queueing: bool, elevation: nat, grant: nat, letter: Letter, works: bool, now: int): Desk
  {
    if Accepts(d, letter.vm, works) then
      d.(office := d.office.(wire := Delivered(d.office.wire, letter)), produced := d.produced + [letter])
    else if queueing then
      d.(office := Enqueued(d.office, elevation, grant, letter, now), produced := d.produced + [letter])
    else d.(produced := d.produced + [letter], lost := d.lost + [letter])
  }

  /** What the environment decides for one replay: whether each write works, and the clock readings. */
  datatype Luck = Luck(responseWorks: bool, noticeWorks: bool, responseAt: int, noticeAt: int)

  function NoticeVm(e: Elevation): Vm
  {
    Vm(e.request.source.agent, if e.request.source.machine == "" then "unknown" else e.request.source.machine)
  }

  function Notified(d: Desk, queueing: bool, id: nat, e: Elevation, grant: nat, replayDelivered: bool, luck: Luck): Desk
  {
    if e.request.source.agent == "" then d
    else Posted(d, queueing, id, grant, Letter(NoticeVm(e), GrantCreated(id, grant, replayDelivered)),
                luck.noticeWorks, luck.noticeAt)
  }

  function Replayed(d: Desk, queueing: bool, id: nat, e: Elevation, grant: nat, luck: Luck): Desk
  {
    var target := Target(e);
    if target.None? then Notified(d, queueing, id, e, grant, false, luck)
    else
      var vm := target.value.source;
      var responded := Posted(d, queueing, id, grant, Letter(vm, MemoryResponse(target.value, grant)),
                              luck.responseWorks, luck.responseAt);
      Notified(responded, queueing, id, e, grant, Accepts(d, vm, luck.responseWorks), luck)
  }

  /** The notice of a grant goes to the VM of the elevated message, if that names an agent. */
  function Notice(id: nat, e: Elevation, grant: nat, replayDelivered: bool): seq<Letter>
  {
    var source := e.request.source;
    if source.agent == "" then []
    else [Letter(Vm(source.agent, if source.machine != "" then source.machine else "unknown"),
                 GrantCreated(id, grant, replayDelivered))]
  }

  /** The request is the elevated message itself if that asks for memory, or what came attached to a request
      for a grant. */
  predicate ToReplay(e: Elevation, request: Request)
  {
    || (e.request.kind == Memory && request == e.request)
    || (e.request.kind == GrantRequest && e.attached == Some(request))
  }

  datatype Report =
    | Missing
    | NoGrant
    | NoTarget(grant: nat, queued: bool)
    | Done(grant: nat, delivered: bool, queued: bool, success: bool)

  class ReplayService {
    const queue: PendingReplayQueue
    const queueing: bool
    var effects: seq<(Request, nat)>
    ghost var produced: seq<Letter>
    ghost var lost: seq<Letter>

    ghost function State(): Desk
      reads this, queue, queue.transport
    {
      Desk(queue.State(), produced, lost)
    }

    constructor (queue: PendingReplayQueue, queueing: bool)
      ensures this.queue == queue && this.queueing == queueing && effects == [] && produced == [] && lost == []
    {
      this.queue, this.queueing := queue, queueing;
      effects, produced, lost := [], [], [];
    }

    method Post(elevation: nat, grant: nat, letter: Letter, works: bool, now: int) returns (delivered: bool)
      modifies this`produced, this`lost, queue, queue.transport
      ensures State() == Posted(old(State()), queueing, elevation, grant, letter, works, now)
      ensures delivered <==> Reachable(old(State()).office.wire, letter.vm) && works
      ensures produced == old(produced) + [letter]
      ensures queue.transport.accepted == old(queue.transport.accepted) + if delivered then [letter] else []
      ensures queue.rows == old(queue.rows) +
              if !delivered && queueing then [Row(|old(queue.rows)|, elevation, grant, letter, now, None)] else []
      ensures lost == old(lost) + if !delivered && !queueing then [letter] else []
    {
      produced := produced + [letter];
      delivered := queue.transport.Deliver(letter, works);
      if !delivered {
        if queueing {
          var _ := queue.Enqueue(elevation, grant, letter, now);
        } else {
          lost := lost + [letter];
        }
      }
    }

    method NotifyGrantCreated(id: nat, e: Elevation, grant: nat, replayDelivered: bool, luck: Luck)
      returns (delivered: Option<bool>)
      modifies this`produced, this`lost, queue, queue.transport
      ensures State() == Notified(old(State()), queueing, id, e, grant, replayDelivered, luck)
      ensures delivered == if e.request.source.agent == "" then None
                           else Some(Accepts(old(State()), NoticeVm(e), luck.noticeWorks))
      ensures produced == old(produced) + Notice(id, e, grant, replayDelivered)
    {
      if e.request.source.agent == "" {
        return None;
      }
      var notice := Letter(NoticeVm(e), GrantCreated(id, grant, replayDelivered));
      var sent := Post(id, grant, notice, luck.noticeWorks, luck.noticeAt);
      return Some(sent);
    }

    /** `created` is the grant made for a grant request that was approved without one; `success` is
        what the memory service answers. */
    method ReplayAfterApproval(id: nat, elevation: Option<Elevation>, grant: Option<nat>, created: nat,
                               success: bool, luck: Luck)
      returns (report: Report)
      modifies this, queue, queue.transport
      ensures report.Missing? <==> elevation.None?
      ensures report.NoGrant? <==> elevation.Some? && grant.None? && elevation.value.request.kind != GrantRequest
      ensures report.Missing? || report.NoGrant? ==> State() == old(State()) && effects == old(effects)
      ensures report.NoTarget? || report.Done? ==>
                && report.grant == (if grant.Some? then grant.value else created)
                && State() == Replayed(old(State()), queueing, id, elevation.value, report.grant, luck)
                && (report.queued <==> |State().office.wire.accepted| - |old(State()).office.wire.accepted|
                                       < |State().produced| - |old(State()).produced|)
      ensures report.NoTarget? ==>
                && (forall request :: !ToReplay(elevation.value, request)) && effects == old(effects)
                && produced == old(produced) + Notice(id, elevation.value, report.grant, false)
      ensures report.Done? ==>
                && Target(elevation.value).Some? && report.success == success
                && var request := Target(elevation.value).value;
                   && ToReplay(elevation.value, request) && effects == old(effects) + [(request, report.grant)]
                   && (report.delivered <==> Reachable(old(State()).office.wire, request.source) && luck.responseWorks)
                   && produced == old(produced) + [Letter(request.source, MemoryResponse(request, report.grant))]
                                  + Notice(id, elevation.value, report.grant, report.delivered)
    {
      if elevation.None? {
        return Missing;
      }
      var e := elevation.value;
      var grantId := grant;
      if grantId.None? && e.request.kind == GrantRequest {
        grantId := Some(created);
      }
      if grantId.None? {
        return NoGrant;
      }
      var target := Target(e);
      if target.None? {
        var notified := NotifyGrantCreated(id, e, grantId.value, false, luck);
        return NoTarget(grantId.value, notified == Some(false));
      }
      effects := effects + [(target.value, grantId.value)];
      var response := Letter(target.value.source, MemoryResponse(target.value, grantId.value));
      var delivered := Post(id, grantId.value, response, luck.responseWorks, luck.responseAt);
      var notified := NotifyGrantCreated(id, e, grantId.value, delivered, luck);
      return Done(grantId.value, delivered, !delivered || notified == Some(false), success);
    }
  }
}
