/** Runs of the router from its start: where decisions, elevations, memory operations and sessions come from. */
module Server {
  import opened Common
  import Elevations
  import Journal
  import PolicyEngine
  import PolicyRules
  import Replay
  import opened Router
  import opened Sessions

  const BOOT := State(map[], [], map[], map[], [], Elevations.NONE, [])

  ghost function Machine(c: Config): Journal.Recorder<State, Action, Event>
  {
    Journal.Recorder((s, a) => Next(c, s, a), (s: State) => s.log, (s, a) => Events(c, s, a))
  }

  ghost function Run(c: Config, actions: seq<Action>): State
  {
    Journal.Run(Machine(c).next, BOOT, actions)
  }

  lemma RunStep(c: Config, actions: seq<Action>)
    requires actions != []
    ensures Run(c, actions) == Next(c, Run(c, actions[..|actions| - 1]), actions[|actions| - 1])
  {
    Journal.RunSnoc(Machine(c).next, BOOT, actions);
  }

  /** Action `i` logged the event at position `k`. */
  ghost predicate Logged(c: Config, actions: seq<Action>, i: nat, k: nat, e: Event)
  {
    && i < |actions|
    && var s := Run(c, actions[..i]);
       |s.log| <= k < |s.log| + |Events(c, s, actions[i])| && Events(c, s, actions[i])[k - |s.log|] == e
  }

  /** Every event in the log was put there by some action. */
  lemma LoggingStep(c: Config, actions: seq<Action>, k: nat, e: Event) returns (i: nat)
    requires k < |Run(c, actions).log| && Run(c, actions).log[k] == e
    ensures Logged(c, actions, i, k, e)
  {
    i := Journal.WriterOf(Machine(c), BOOT, actions, k);
  }

  lemma KeepsJournal(c: Config)
    ensures Journal.Records(Machine(c))
  {
  }

  lemma StaysLogged(c: Config, actions: seq<Action>, i: nat, k: nat, e: Event)
    requires Logged(c, actions, i, k, e)
    ensures k < |Run(c, actions).log| && Run(c, actions).log[k] == e
  {
    KeepsJournal(c);
    assert Journal.Wrote(Machine(c), BOOT, actions, i, k);
    assert Journal.Entry(Machine(c), BOOT, actions, i, k) == e;
    Journal.WrittenStays(Machine(c), BOOT, actions, i, k);
  }

  lemma EarlierLog(c: Config, actions: seq<Action>, i: nat)
    requires i <= |actions|
    ensures Run(c, actions[..i]).log <= Run(c, actions).log
  {
    Journal.LogPrefix(Machine(c), BOOT, actions, i);
  }

  // Decisions

  /** Action `i` logged the decision at position `k`: it routed this very message, which had a live session
      of its own agent and VM and a turn of its agent, and the policy in force decided so. */
  ghost predicate DecidedAt(c: Config, actions: seq<Action>, i: nat, k: nat, m: Message, decision: PolicyRules.Effect)
  {
    && Logged(c, actions, i, k, Decided(m, decision)) && actions[i].Route? && actions[i].message == m
    && RightlyDecided(c, Run(c, actions[..i]), actions[i], decision)
  }

  ghost predicate RightlyDecided(c: Config, s: State, a: Action, decision: PolicyRules.Effect)
    requires a.Route?
  {
    && !HandshakeMessage(a.message) && Entitled(s, a.message, a.connection, a.clock)
    && Correlated(c, s, a.message, a.clock) && JudgementOn(c, s, a.message, a.facts).effect == decision
  }

  lemma NewDecision(c: Config, s: State, a: Action, m: Message, decision: PolicyRules.Effect)
    requires Decided(m, decision) in Events(c, s, a)
    ensures a.Route? && a.message == m && RightlyDecided(c, s, a, decision)
  {
    AuthenticMeans(c, s, m, a.connection, a.clock);
  }

  /** Every decision in the log was made, by the action that logged it, for a message with a live session of
      its own agent and VM and a turn of its agent, under the rules in force at that time. */
  lemma DecisionsAreAuthentic(c: Config, actions: seq<Action>, k: nat, m: Message, decision: PolicyRules.Effect)
    requires k < |Run(c, actions).log| && Run(c, actions).log[k] == Decided(m, decision)
    ensures exists i :: DecidedAt(c, actions, i, k, m, decision)
  {
    var i := LoggingStep(c, actions, k, Decided(m, decision));
    NewDecision(c, Run(c, actions[..i]), actions[i], m, decision);
    assert DecidedAt(c, actions, i, k, m, decision);
  }

  // Memory operations of routed messages

  /** Action `i` decided to allow the message and then performed the operation at `k`. */
  ghost predicate RoutedAt(c: Config, actions: seq<Action>, i: nat, k: nat, m: Message)
  {
    && k > 0 && Logged(c, actions, i, k, Remembered(Routed(m))) && MemoryMessage(m)
    && DecidedAt(c, actions, i, k - 1, m, PolicyRules.Allow)
  }

  /** One action did so, and the log says so right before the operation. */
  ghost predicate RoutedLawfully(c: Config, actions: seq<Action>, k: nat, m: Message)
  {
    && 0 < k < |Run(c, actions).log| && Run(c, actions).log[k - 1] == Decided(m, PolicyRules.Allow)
    && exists i :: RoutedAt(c, actions, i, k, m)
  }

  lemma NewRouted(c: Config, s: State, a: Action, k: nat, m: Message)
    requires k < |Events(c, s, a)| && Events(c, s, a)[k] == Remembered(Routed(m))
    ensures k > 0 && Events(c, s, a)[k - 1] == Decided(m, PolicyRules.Allow) && MemoryMessage(m)
  {
  }

  /** Every memory operation of a routed message directly follows, in the log and within one action, the
      decision to allow that message. */
  lemma RoutedAfterAllow(c: Config, actions: seq<Action>, k: nat, m: Message)
    requires k < |Run(c, actions).log| && Run(c, actions).log[k] == Remembered(Routed(m))
    ensures RoutedLawfully(c, actions, k, m)
  {
    var i := LoggingStep(c, actions, k, Remembered(Routed(m)));
    var s := Run(c, actions[..i]);
    NewRouted(c, s, actions[i], k - |s.log|, m);
    NewDecision(c, s, actions[i], m, PolicyRules.Allow);
    StaysLogged(c, actions, i, k - 1, Decided(m, PolicyRules.Allow));
    assert RoutedAt(c, actions, i, k, m);
  }

  /** Action `i` routed the message while the rules in force permitted it. */
  ghost predicate PermittedAt(c: Config, permits: Permission, actions: seq<Action>, i: nat, m: Message)
  {
    && i < |actions| && actions[i].Route?
    && permits(Run(c, actions[..i]).rules,
               actions[i].facts.(agentId := m.core.agent, messageType := m.core.kind, correlationChainValid := true))
  }

  type Permission = (seq<PolicyRules.Rule>, PolicyRules.Facts) -> bool

  /** Whatever a policy demands before it allows held for every memory operation of a routed message. */
  lemma RoutedWasPermitted(c: Config, permits: Permission, actions: seq<Action>, k: nat, m: Message)
    requires forall rules, f :: c.policy(rules, f).effect == PolicyRules.Allow ==> permits(rules, f)
    requires k < |Run(c, actions).log| && Run(c, actions).log[k] == Remembered(Routed(m))
    ensures exists i :: RoutedAt(c, actions, i, k, m) && PermittedAt(c, permits, actions, i, m)
  {
    RoutedAfterAllow(c, actions, k, m);
    var i :| RoutedAt(c, actions, i, k, m);
    assert PermittedAt(c, permits, actions, i, m);
  }

  /** The user may use the agent, one rule grants the request in every field of its condition, and none of
      its priority or above stands against it. */
  ghost function Granted(glob: PolicyRules.Glob): Permission
  {
    (rules, f) => PolicyEngine.MayUseAgent(f) && PolicyEngine.Allowed(rules, PolicyEngine.VoiceOn(glob, f))
  }

  /** Under the policy engine, every memory operation of a routed message was granted by the rules in force. */
  lemma RoutedWasGranted(c: Config, glob: PolicyRules.Glob, actions: seq<Action>, k: nat, m: Message)
    requires c.policy == PolicyFor(glob)
    requires k < |Run(c, actions).log| && Run(c, actions).log[k] == Remembered(Routed(m))
    ensures exists i :: RoutedAt(c, actions, i, k, m) && PermittedAt(c, Granted(glob), actions, i, m)
  {
    RoutedWasPermitted(c, Granted(glob), actions, k, m);
  }

  // Elevations

  /** The elevation was created for this message on a logged decision to elevate it. */
  predicate ElevatedBy(log: seq<Event>, j: nat, id: nat, m: Message)
  {
    0 < j < |log| && log[j] == ElevationPending(id, m) && log[j - 1] == Decided(m, PolicyRules.Elevate)
  }

  lemma NewElevation(c: Config, s: State, a: Action)
    ensures var es, es' := s.desk.elevations, Next(c, s, a).desk.elevations;
      && |es| <= |es'| <= |es| + 1
      && (forall id | 0 <= id < |es| :: es'[id].request == es[id].request && es'[id].attached == es[id].attached)
      && (|es'| > |es| ==>
            && a.Route? && Holds(es'[|es|], a.message)
            && Events(c, s, a)[1..] == [Decided(a.message, PolicyRules.Elevate), ElevationPending(|es|, a.message)])
  {
  }

  /** Every elevation was created on a logged decision to elevate its own message. */
  lemma {:induction false} ElevationsAreDecided(c: Config, actions: seq<Action>, id: nat)
    requires id < |Run(c, actions).desk.elevations|
    ensures var s := Run(c, actions);
      exists j, m :: ElevatedBy(s.log, j, id, m) && Holds(s.desk.elevations[id], m)
  {
    var before, a := actions[..|actions| - 1], actions[|actions| - 1];
    var s, s' := Run(c, before), Run(c, actions);
    RunStep(c, actions);
    NewElevation(c, s, a);
    if id < |s.desk.elevations| {
      ElevationsAreDecided(c, before, id);
      var j, m :| ElevatedBy(s.log, j, id, m) && Holds(s.desk.elevations[id], m);
      assert ElevatedBy(s'.log, j, id, m);
    } else {
      assert s'.log[|s'.log| - 2..] == Events(c, s, a)[1..];
      assert ElevatedBy(s'.log, |s'.log| - 1, id, a.message);
    }
  }

  // Memory operations of approved elevations

  /** Action `i` performed the operation at `k` and logged its approval right after it: it approved the
      elevation while it was pending and before it expired. */
  ghost predicate ApprovedAt(c: Config, actions: seq<Action>, i: nat, k: nat, id: nat, request: Replay.Request)
  {
    && Logged(c, actions, i, k, Remembered(FromElevation(id, request)))
    && Logged(c, actions, i, k + 1, ElevationApproved(id)) && actions[i].Approve? && actions[i].id == id
    && var es := Run(c, actions[..i]).desk.elevations;
       && id < |es| && es[id].status == Replay.Pending && actions[i].now < es[id].expiresAt
       && Replay.ToReplay(es[id], request)
  }

  lemma NewOperation(c: Config, s: State, a: Action, k: nat, id: nat, request: Replay.Request)
    requires k < |Events(c, s, a)| && Events(c, s, a)[k] == Remembered(FromElevation(id, request))
    ensures k == 0 && a.Approve? && a.id == id && id < |s.desk.elevations|
    ensures Events(c, s, a) == [Remembered(FromElevation(id, request)), ElevationApproved(id)]
    ensures var e := s.desk.elevations[id];
      e.status == Replay.Pending && a.now < e.expiresAt && Replay.ToReplay(e, request)
    ensures |Next(c, s, a).desk.elevations| == |s.desk.elevations|
    ensures Next(c, s, a).desk.elevations[id].status == Replay.Approved
  {
  }

  /** Every memory operation for an elevation was made by the action that approved it, while it was
      pending and before it expired. */
  lemma ReplaysAreApproved(c: Config, actions: seq<Action>, k: nat, id: nat, request: Replay.Request)
    requires k < |Run(c, actions).log| && Run(c, actions).log[k] == Remembered(FromElevation(id, request))
    ensures exists i :: ApprovedAt(c, actions, i, k, id, request)
  {
    var i := LoggingStep(c, actions, k, Remembered(FromElevation(id, request)));
    var s := Run(c, actions[..i]);
    NewOperation(c, s, actions[i], k - |s.log|, id, request);
    assert ApprovedAt(c, actions, i, k, id, request);
  }

  /** The request is the message itself if it asks for memory, and else what was attached to it. */
  predicate AskedFor(m: Message, request: Replay.Request)
  {
    if m.core.kind == "memory:query" || m.core.kind == "memory:write" || m.core.kind == "memory:delete"
    then request.id == m.id && request.source == Replay.Vm(m.core.agent, m.machine) && request.target == m.target
    else m.core.kind == "memory:grant_request" && m.attached == Some(request)
  }

  /** The elevation's creation is logged at `j`, before `k`, right after the decision to elevate a message that
      asked for this; action `i` made that decision. */
  ghost predicate ElevatedBefore(c: Config, actions: seq<Action>, k: nat, id: nat, request: Replay.Request,
                                 i: nat, j: nat, m: Message)
  {
    && 0 < j < k && ElevatedBy(Run(c, actions).log, j, id, m) && AskedFor(m, request)
    && DecidedAt(c, actions, i, j - 1, m, PolicyRules.Elevate)
  }

  lemma ReplayedWasElevated(c: Config, actions: seq<Action>, k: nat, id: nat, request: Replay.Request, i: nat)
    requires ApprovedAt(c, actions, i, k, id, request)
    ensures exists h, j, m :: ElevatedBefore(c, actions, k, id, request, h, j, m)
  {
    var s, log := Run(c, actions[..i]), Run(c, actions).log;
    ElevationsAreDecided(c, actions[..i], id);
    var j: nat, m :| ElevatedBy(s.log, j, id, m) && Holds(s.desk.elevations[id], m);
    EarlierLog(c, actions, i);
    assert log[j] == s.log[j] && log[j - 1] == s.log[j - 1];
    DecisionsAreAuthentic(c, actions, j - 1, m, PolicyRules.Elevate);
    var h :| DecidedAt(c, actions, h, j - 1, m, PolicyRules.Elevate);
    assert ElevatedBefore(c, actions, k, id, request, h, j, m);
  }

  /** The operation at `k` was performed by approving the elevation while pending and unexpired, and a
      message entitled to ask for it had caused the elevation. */
  ghost predicate ReplayedLawfully(c: Config, actions: seq<Action>, k: nat, id: nat, request: Replay.Request)
  {
    && (exists i :: ApprovedAt(c, actions, i, k, id, request))
    && exists i, j, m :: ElevatedBefore(c, actions, k, id, request, i, j, m)
  }

  /** In every run, every memory operation was performed by an action that routed a message with a live
      session of its own agent and VM, a turn of its agent and an allow decision logged right before; or by
      one that approved, while pending and unexpired, an elevation that such a message had caused. */
  lemma MemoryProvenance(c: Config, actions: seq<Action>, k: nat, origin: Origin)
    requires k < |Run(c, actions).log| && Run(c, actions).log[k] == Remembered(origin)
    ensures origin.Routed? ==> RoutedLawfully(c, actions, k, origin.message)
    ensures origin.FromElevation? ==> ReplayedLawfully(c, actions, k, origin.id, origin.request)
  {
    if origin.Routed? {
      RoutedAfterAllow(c, actions, k, origin.message);
    } else {
      ReplaysAreApproved(c, actions, k, origin.id, origin.request);
      var i :| ApprovedAt(c, actions, i, k, origin.id, origin.request);
      ReplayedWasElevated(c, actions, k, origin.id, origin.request, i);
    }
  }

  /** No step reopens an elevation. */
  lemma NeverReopened(c: Config, s: State, a: Action, id: nat)
    requires id < |s.desk.elevations| && s.desk.elevations[id].status != Replay.Pending
    ensures id < |Next(c, s, a).desk.elevations| && Next(c, s, a).desk.elevations[id].status != Replay.Pending
  {
  }

  lemma {:induction false} ReplayedIsSettled(c: Config, actions: seq<Action>, k: nat, id: nat, request: Replay.Request)
    requires k < |Run(c, actions).log| && Run(c, actions).log[k] == Remembered(FromElevation(id, request))
    ensures id < |Run(c, actions).desk.elevations|
    ensures Run(c, actions).desk.elevations[id].status != Replay.Pending
  {
    var before, a := actions[..|actions| - 1], actions[|actions| - 1];
    var s := Run(c, before);
    RunStep(c, actions);
    if k < |s.log| {
      ReplayedIsSettled(c, before, k, id, request);
      NeverReopened(c, s, a, id);
    } else {
      NewOperation(c, s, a, k - |s.log|, id, request);
    }
  }

  /** No two memory operations of a run are for the same elevation. */
  lemma {:induction false} ReplayedOnce(c: Config, actions: seq<Action>, k: nat, l: nat, id: nat,
                                        first: Replay.Request, second: Replay.Request)
    requires k <= l < |Run(c, actions).log|
    requires Run(c, actions).log[k] == Remembered(FromElevation(id, first))
    requires Run(c, actions).log[l] == Remembered(FromElevation(id, second))
    ensures k == l
  {
    var before, a := actions[..|actions| - 1], actions[|actions| - 1];
    var s := Run(c, before);
    RunStep(c, actions);
    if l < |s.log| {
      ReplayedOnce(c, before, k, l, id, first, second);
    } else {
      NewOperation(c, s, a, l - |s.log|, id, second);
      if k < |s.log| {
        ReplayedIsSettled(c, before, k, id, first);
      }
    }
  }

  // Sessions

  /** Action `i` opened the session by a handshake that presented the hash of the manifest registered for
      the agent at that time, and no engine outside that manifest. */
  ghost predicate OpenedBy(c: Config, actions: seq<Action>, i: nat, session: Session)
  {
    && i < |actions| && actions[i].Handshake?
    && var a, agents := actions[i], Run(c, actions[..i]).agents;
       && a.agent != "" && a.agent in agents
       && a.hash != "" && a.hash == agents[a.agent].hash && a.engines <= agents[a.agent].engines
       && session == Session(a.agent, a.machine, a.now + c.sessionTtl)
  }

  lemma NewSession(c: Config, s: State, a: Action)
    ensures Next(c, s, a).sessions ==
            if a.Handshake? && HandshakeAccepted(s, a.agent, a.hash, a.engines)
            then s.sessions + [Session(a.agent, a.machine, a.now + c.sessionTtl)] else s.sessions
  {
  }

  lemma OpenedEarlier(c: Config, actions: seq<Action>, n: nat, i: nat, session: Session)
    requires n <= |actions| && OpenedBy(c, actions[..n], i, session)
    ensures OpenedBy(c, actions, i, session)
  {
    assert actions[..n][..i] == actions[..i];
  }

  /** Every session was opened by a handshake that presented the manifest hash registered for the agent at
      that time, and no engine outside that manifest. */
  lemma {:induction false} SessionsFromHandshakes(c: Config, actions: seq<Action>, session: Session)
    requires session in Run(c, actions).sessions
    ensures exists i :: OpenedBy(c, actions, i, session)
  {
    var before, a := actions[..|actions| - 1], actions[|actions| - 1];
    RunStep(c, actions);
    NewSession(c, Run(c, before), a);
    if session in Run(c, before).sessions {
      SessionsFromHandshakes(c, before, session);
      var i: nat :| OpenedBy(c, before, i, session);
      OpenedEarlier(c, actions, |before|, i, session);
    } else {
      assert actions[..|before|] == before;
      assert OpenedBy(c, actions, |before|, session);
    }
  }

  /** Action `h`, earlier than action `i`, was an accepted handshake of the message's own agent and VM, and
      its session had not expired when the message was judged. */
  ghost predicate HandshakeBefore(c: Config, actions: seq<Action>, h: nat, i: nat, m: Message)
  {
    && h < i < |actions| && actions[i].Route?
    && exists session :: OpenedBy(c, actions, h, session) && SessionOf(session, m, actions[i].clock)
  }

  predicate SessionOf(session: Session, m: Message, clock: Clock)
  {
    && session.agent == m.core.agent && session.machine == m.machine
    && (clock.connection < session.expiresAt || clock.token < session.expiresAt)
  }

  lemma EntitledHasSession(s: State, m: Message, connection: int, clock: Clock) returns (session: Session)
    requires Entitled(s, m, connection, clock)
    ensures session in s.sessions && SessionOf(session, m, clock)
  {
    var bound := if connection in s.connections then Some(s.connections[connection]) else None;
    session := if Owned(s, bound, clock.connection, m) then s.sessions[bound.value] else s.sessions[m.token.value];
  }

  /** Whatever the policy decided on, in any run, came after an accepted handshake of the message's own agent
      and VM, whose session was still live. */
  lemma DecisionsFollowHandshakes(c: Config, actions: seq<Action>, i: nat, k: nat, m: Message,
                                  decision: PolicyRules.Effect)
    requires DecidedAt(c, actions, i, k, m, decision)
    ensures exists h :: HandshakeBefore(c, actions, h, i, m)
  {
    var session := EntitledHasSession(Run(c, actions[..i]), m, actions[i].connection, actions[i].clock);
    SessionsFromHandshakes(c, actions[..i], session);
    var h: nat :| OpenedBy(c, actions[..i], h, session);
    OpenedEarlier(c, actions, i, h, session);
    assert HandshakeBefore(c, actions, h, i, m);
  }
}
