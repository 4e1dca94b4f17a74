/** The life of an elevation: created pending, then approved, denied or expired.  A request to the
    management interface is one step. */
module Elevations {
  import opened Common
  import opened Replay

  datatype Approval = Approval(id: nat, now: int)

  /** A memory operation performed for an approved elevation. */
  datatype Effect = Effect(id: nat, request: Request, now: int)

  /** The elevations, with the history of approvals and of the memory operations they led to. */
  datatype State = State(elevations: seq<Elevation>, approvals: seq<Approval>, effects: seq<Effect>)

  function WithStatus(es: seq<Elevation>, id: nat, status: Status): seq<Elevation>
  {
    if id < |es| then es[id := es[id].(status := status)] else es
  }

  function Lapsed(es: seq<Elevation>, now: int): (r: seq<Elevation>)
    ensures |r| == |es|
    ensures forall i | 0 <= i < |es| :: r[i] ==
              if es[i].status == Pending && es[i].expiresAt <= now then es[i].(status := Expired) else es[i]
  {
    seq(|es|, i requires 0 <= i < |es| =>
      if es[i].status == Pending && es[i].expiresAt <= now then es[i].(status := Expired) else es[i])
  }

  function Overdue(now: int): Elevation -> bool
  {
    (e: Elevation) => e.status == Pending && e.expiresAt <= now
  }

  predicate Approvable(es: seq<Elevation>, id: nat, now: int)
  {
    id < |es| && es[id].status == Pending && now < es[id].expiresAt
  }

  /** The memory operation that approving leads to, if a grant is at hand. */
  function Operation(e: Elevation, granted: bool): Option<Request>
  {
    if granted || e.request.kind == GrantRequest then Target(e) else None
  }

  function ApprovedState(st: State, id: nat, granted: bool, now: int): State
    requires id < |st.elevations|
  {
    var operation := Operation(st.elevations[id], granted);
    State(WithStatus(st.elevations, id, Approved),
          st.approvals + [Approval(id, now)],
          st.effects + if operation.Some? then [Effect(id, operation.value, now)] else [])
  }

  datatype Action =
    | Create(expiresAt: int, request: Request, attached: Option<Request>)
    | Approve(id: nat, granted: bool, now: int)
    | Deny(id: nat)
    | Sweep(now: int)

  function Next(st: State, a: Action): State
  {
    match a
    case Create(expiresAt, request, attached) =>
      st.(elevations := st.elevations + [Elevation(Pending, expiresAt, request, attached)])
    case Approve(id, granted, now) =>
      if Approvable(st.elevations, id, now) then ApprovedState(st, id, granted, now)
      else if id < |st.elevations| && st.elevations[id].status == Pending then
        st.(elevations := WithStatus(st.elevations, id, Expired))
      else st
    case Deny(id) => st.(elevations := WithStatus(st.elevations, id, Denied))
    case Sweep(now) => st.(elevations := Lapsed(st.elevations, now))
  }

  const NONE := State([], [], [])

  function Run(st: State, actions: seq<Action>): State
  {
    if actions == [] then st else Next(Run(st, actions[..|actions| - 1]), actions[|actions| - 1])
  }

  datatype Answer =
    | NotFound
    | NotPending(status: Status)
    | TooLate
    | Granted(report: Report)
    | Refused

  class ElevationApi {
    const replay: ReplayService
    var elevations: seq<Elevation>
    ghost var approvals: seq<Approval>
    ghost var effects: seq<Effect>

    ghost function History(): State
      reads this
    {
      State(elevations, approvals, effects)
    }

    constructor (replay: ReplayService)
      ensures this.replay == replay && History() == NONE
    {
      this.replay := replay;
      elevations, approvals, effects := [], [], [];
    }

    method CreateElevation(expiresAt: int, request: Request, attached: Option<Request>) returns (id: nat)
      modifies this
      ensures History() == Next(old(History()), Create(expiresAt, request, attached))
      ensures id == |old(elevations)|
    {
      id := |elevations|;
      elevations := elevations + [Elevation(Pending, expiresAt, request, attached)];
    }

    /** The history records a memory operation exactly when the replay service performs one. */
    method ApproveElevation(id: nat, grant: Option<nat>, created: nat, now: int, success: bool, luck: Luck)
      returns (answer: Answer)
      modifies this, replay, replay.queue, replay.queue.transport
      ensures History() == Next(old(History()), Approve(id, grant.Some?, now))
      ensures answer.Granted? <==> Approvable(old(elevations), id, now)
      ensures answer.NotFound? <==> id >= |old(elevations)|
      ensures answer.NotPending? <==> id < |old(elevations)| && old(elevations)[id].status != Pending
      ensures answer.NotPending? ==> answer.status == old(elevations)[id].status
      ensures answer.TooLate? <==>
              id < |old(elevations)| && old(elevations)[id].status == Pending && old(elevations)[id].expiresAt <= now
      ensures !answer.Granted? ==> replay.State() == old(replay.State()) && replay.effects == old(replay.effects)
      ensures |replay.effects| - |old(replay.effects)| == |effects| - |old(effects)|
      ensures |effects| > |old(effects)| ==>
                replay.effects[|replay.effects| - 1].0 == effects[|effects| - 1].request
    {
      if id >= |elevations| {
        return NotFound;
      }
      var elevation := elevations[id];
      if elevation.status != Pending {
        return NotPending(elevation.status);
      }
      if elevation.expiresAt <= now {
        elevations := elevations[id := elevation.(status := Expired)];
        return TooLate;
      }
      elevations := elevations[id := elevation.(status := Approved)];
      approvals := approvals + [Approval(id, now)];
      var report := replay.ReplayAfterApproval(id, Some(elevations[id]), grant, created, success, luck);
      if report.Done? {
        effects := effects + [Effect(id, Target(elevation).value, now)];
      }
      return Granted(report);
    }

    method DenyElevation(id: nat) returns (answer: Answer)
      modifies this
      ensures History() == Next(old(History()), Deny(id))
      ensures answer == if id < |elevations| then Refused else NotFound
    {
      if id >= |elevations| {
        return NotFound;
      }
      elevations := elevations[id := elevations[id].(status := Denied)];
      return Refused;
    }

    method SweepOnce(now: int) returns (expired: nat)
      modifies this
      ensures History() == Next(old(History()), Sweep(now))
      ensures expired == |Filter(Overdue(now), old(elevations))|
      ensures Filter(Overdue(now), elevations) == []
    {
      expired := |Filter(Overdue(now), elevations)|;
      elevations := Lapsed(elevations, now);
      FilterNone(Overdue(now), elevations);
    }
  }

  /** What approving does: a pending elevation becomes approved before its expiry and expires from then on;
      an operation is performed exactly if it becomes approved, a grant is at hand or asked for, and there
      is something to replay. */
  lemma ApproveMeans(st: State, id: nat, granted: bool, now: int)
    ensures var st', es := Next(st, Approve(id, granted, now)), st.elevations;
      var timely := id < |es| && es[id].status == Pending && now < es[id].expiresAt;
      && |st'.elevations| == |es|
      && (forall i | 0 <= i < |es| && (i != id || es[i].status != Pending) :: st'.elevations[i] == es[i])
      && (id < |es| && es[id].status == Pending ==>
            st'.elevations[id] == es[id].(status := if now < es[id].expiresAt then Approved else Expired))
      && st'.approvals == st.approvals + (if timely then [Approval(id, now)] else [])
      && (st'.effects == st.effects || exists request :: st'.effects == st.effects + [Effect(id, request, now)])
      && (forall request :: st'.effects == st.effects + [Effect(id, request, now)] <==>
            timely && ToReplay(es[id], request) && (granted || es[id].request.kind == GrantRequest))
  {
    var effects := Next(st, Approve(id, granted, now)).effects;
    assert st.effects + [] == st.effects && st.approvals + [] == st.approvals;
    forall request | effects == st.effects + [Effect(id, request, now)]
      ensures effects[|st.effects|].request == request
    {
    }
  }

  /** No step ever returns an elevation to pending, or changes what it is about. */
  lemma {:induction false} NeverPendingAgain(st: State, actions: seq<Action>, id: nat)
    requires id < |st.elevations|
    ensures id < |Run(st, actions).elevations|
    ensures var e, e' := st.elevations[id], Run(st, actions).elevations[id];
      && (e.status != Pending ==> e'.status != Pending)
      && e'.expiresAt == e.expiresAt && e'.request == e.request && e'.attached == e.attached
  {
    if actions != [] {
      NeverPendingAgain(st, actions[..|actions| - 1], id);
    }
  }

  /** Approvals concern elevations that are no longer pending, came before the expiry, and none twice;
      the memory operations are among the approvals and none is done twice for an elevation. */
  ghost predicate Sound(st: State)
  {
    && (forall i | 0 <= i < |st.approvals| ::
          && st.approvals[i].id < |st.elevations|
          && st.elevations[st.approvals[i].id].status != Pending
          && st.approvals[i].now < st.elevations[st.approvals[i].id].expiresAt)
    && (forall i, j | 0 <= i < j < |st.approvals| :: st.approvals[i].id != st.approvals[j].id)
    && (forall i | 0 <= i < |st.effects| :: EffectOfApproval(st, st.effects[i]))
    && (forall i, j | 0 <= i < j < |st.effects| :: st.effects[i].id != st.effects[j].id)
  }

  ghost predicate EffectOfApproval(st: State, f: Effect)
  {
    && Approval(f.id, f.now) in st.approvals
    && f.id < |st.elevations| && Target(st.elevations[f.id]) == Some(f.request)
  }

  /** Changes of status that keep what was approved settled. */
  lemma StaysSound(st: State, next: State)
    requires Sound(st) && next.approvals == st.approvals && next.effects == st.effects
    requires |st.elevations| <= |next.elevations| && forall i | 0 <= i < |st.elevations| ::
      && next.elevations[i] == st.elevations[i].(status := next.elevations[i].status)
      && (st.elevations[i].status != Pending ==> next.elevations[i].status != Pending)
    ensures Sound(next)
  {
    forall i | 0 <= i < |next.effects|
      ensures EffectOfApproval(next, next.effects[i])
    {
      assert EffectOfApproval(st, st.effects[i]);
    }
  }

  lemma ApprovalSound(st: State, id: nat, granted: bool, now: int)
    requires Sound(st) && Approvable(st.elevations, id, now)
    ensures Sound(ApprovedState(st, id, granted, now))
  {
    var next := ApprovedState(st, id, granted, now);
    assert next.approvals[|st.approvals|] == Approval(id, now);
    forall i | 0 <= i < |st.effects|
      ensures EffectOfApproval(next, st.effects[i]) && st.effects[i].id != id
    {
      assert EffectOfApproval(st, st.effects[i]);
    }
  }

  lemma StepSound(st: State, a: Action)
    requires Sound(st)
    ensures Sound(Next(st, a))
  {
    if a.Approve? && Approvable(st.elevations, a.id, a.now) {
      ApprovalSound(st, a.id, a.granted, a.now);
    } else {
      StaysSound(st, Next(st, a));
    }
  }

  /** Over every run of creations, approvals, denials and sweeps, each elevation is approved at most
      once and replayed at most once, and only on an approval made before it expired. */
  lemma {:induction false} ReplayedAtMostOnce(actions: seq<Action>)
    ensures Sound(Run(NONE, actions))
  {
    if actions != [] {
      ReplayedAtMostOnce(actions[..|actions| - 1]);
      StepSound(Run(NONE, actions[..|actions| - 1]), actions[|actions| - 1]);
    }
  }

  /** An approved elevation stays approved exactly as long as nobody denies it. */
  lemma {:induction false} ApprovalStandsIff(st: State, actions: seq<Action>, id: nat)
    requires id < |st.elevations| && st.elevations[id].status == Approved
    ensures id < |Run(st, actions).elevations|
    ensures Run(st, actions).elevations[id].status == Approved <==> Deny(id) !in actions
    ensures Run(st, actions).elevations[id].status in {Approved, Denied}
  {
    if actions != [] {
      var before, a := actions[..|actions| - 1], actions[|actions| - 1];
      ApprovalStandsIff(st, before, id);
      assert actions == before + [a];
    }
  }

  /** The operation is about the same memory, and in the name of the same VM, as the elevated message. */
  predicate StaysWith(operation: Request, e: Elevation)
  {
    operation.source == e.request.source && operation.target == e.request.target
  }

  /** The operations of any run stay with the elevated message exactly when it is a memory message itself,
      or what was attached to the grant request names the same source and target. */
  lemma ReplayStaysIff(actions: seq<Action>, i: nat)
    requires i < |Run(NONE, actions).effects|
    ensures var st := Run(NONE, actions);
      var f := st.effects[i];
      && f.id < |st.elevations|
      && var e := st.elevations[f.id];
         StaysWith(f.request, e) <==>
           (e.request.kind == Memory || (e.attached.Some? && StaysWith(e.attached.value, e)))
  {
    ReplayedAtMostOnce(actions);
    assert EffectOfApproval(Run(NONE, actions), Run(NONE, actions).effects[i]);
  }

  /** A grant request can lead to an operation in another name and on another memory. */
  lemma AttachedCanDiffer(request: Request, attached: Request)
    requires request.kind == GrantRequest
    requires attached.source != request.source || attached.target != request.target
    ensures var st := Run(NONE, [Create(10, request, Some(attached)), Approve(0, true, 5)]);
      && |st.elevations| == 1 && st.effects == [Effect(0, attached, 5)]
      && !StaysWith(attached, st.elevations[0])
  {
    var a, b := Create(10, request, Some(attached)), Approve(0, true, 5);
    assert [a, b][..1] == [a] && [a][..0] == [];
    assert Run(NONE, [a]) == Next(NONE, a);
    assert Run(NONE, [a, b]) == Next(Next(NONE, a), b);
  }

  /** An elevation can end up denied although its memory operation was performed. */
  lemma DeniedAfterReplay(request: Request)
    requires request.kind == Memory
    ensures var st := Run(NONE, [Create(10, request, None), Approve(0, true, 5), Deny(0)]);
      |st.elevations| == 1 && st.elevations[0].status == Denied && st.effects == [Effect(0, request, 5)]
  {
    var a, b, c := Create(10, request, None), Approve(0, true, 5), Deny(0);
    assert [a, b, c][..2] == [a, b] && [a, b][..1] == [a] && [a][..0] == [];
    assert Run(NONE, [a]) == Next(NONE, a);
    assert Run(NONE, [a, b]) == Next(Next(NONE, a), b);
    assert Run(NONE, [a, b, c]) == Next(Next(Next(NONE, a), b), c);
  }
}
