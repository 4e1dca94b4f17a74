/** The server's message router with its sessions, turns, policy and elevations as one state machine.  A
    routed message and a management request are one step each. */
module Router {
  import opened Common
  import Correlation
  import Elevations
  import PolicyDecision
  import PolicyEngine
  import PolicyRules
  import Replay
  import opened Sessions

  datatype Manifest = Manifest(hash: string, engines: set<string>)

  /** A message as the router sees it: what the turn store reads, the VM, a session token carried in
      the payload, the agent whose memory it is about, and a message attached for replay. */
  datatype Message = Message(
    id: nat,
    core: Correlation.Message,
    machine: string,
    token: Option<Token>,
    target: string,
    attached: Option<Replay.Request>)

  /** The audit log, with the memory operations in between. */
  datatype Event =
    | Hop(message: Message)
    | Decided(message: Message, decision: PolicyRules.Effect)
    | ElevationPending(id: nat, message: Message)
    | Remembered(origin: Origin)
    | ElevationApproved(id: nat)

  datatype Origin = Routed(message: Message) | FromElevation(id: nat, request: Replay.Request)

  datatype State = State(
    agents: map<string, Manifest>,
    sessions: seq<Session>,
    connections: map<int, Token>,
    turns: Correlation.Table,
    rules: seq<PolicyRules.Rule>,
    desk: Elevations.State,
    log: seq<Event>)

  datatype Judgement = Judgement(effect: PolicyRules.Effect, code: Option<PolicyDecision.Code>)

  /** The policy is whatever function of the rules and the facts is in force. */
  type Policy = (seq<PolicyRules.Rule>, PolicyRules.Facts) -> Judgement

  ghost function PolicyFor(glob: PolicyRules.Glob): Policy
  {
    (rules, f) => Judgement(PolicyEngine.Ruling(glob, rules, f), PolicyEngine.RulingCode(glob, rules, f))
  }

  datatype Config = Config(correlation: Correlation.Config, policy: Policy, sessionTtl: int, elevationTtl: int)

  /** The clock readings made while one message is routed. */
  datatype Clock = Clock(connection: int, token: int, judged: int, active: int, purged: int, purgedAgain: int,
                         registered: int, elevated: int)

  datatype Action =
    | Handshake(agent: string, machine: string, hash: string, engines: set<string>, connection: int, now: int)
    | Disconnect(connection: int)
    | Route(message: Message, connection: int, facts: PolicyRules.Facts, clock: Clock)
    | Approve(id: nat, granted: bool, now: int)
    | Deny(id: nat)
    | Sweep(now: int)
    | ChangeRules(rules: seq<PolicyRules.Rule>)
    | RegisterAgent(agent: string, manifest: Manifest)

  // Sessions

  /** The connection's session, or else the session of the token in the payload. */
  function SessionFor(s: State, m: Message, connection: int, clock: Clock): Option<Session>
  {
    var bound := ValidToken(s.sessions, ConnectionToken(s.connections, connection), clock.connection);
    if bound.Some? then bound else ValidToken(s.sessions, m.token, clock.token)
  }

  predicate HandshakeAccepted(s: State, agent: string, hash: string, engines: set<string>)
  {
    hash != "" && agent != "" && agent in s.agents && s.agents[agent].hash == hash && engines <= s.agents[agent].engines
  }

  function ShakenHands(c: Config, s: State, agent: string, machine: string, connection: int, now: int): State
  {
    s.(sessions := s.sessions + [Session(agent, machine, now + c.sessionTtl)],
       connections := s.connections[connection := |s.sessions|])
  }

  // Routing

  predicate IsHandshake(m: Message)
  {
    m.core.kind == "handshake" && m.core.messageClass in {Correlation.System, Correlation.Response}
  }

  predicate IsMemory(m: Message)
  {
    "memory:" <= m.core.kind
  }

  function KindOf(m: Message): Replay.Kind
  {
    if m.core.kind in {"memory:query", "memory:write", "memory:delete"} then Replay.Memory
    else if m.core.kind == "memory:grant_request" then Replay.GrantRequest
    else Replay.Other
  }

  function RequestOf(m: Message): Replay.Request
  {
    Replay.Request(m.id, KindOf(m), Replay.Vm(m.core.agent, m.machine), m.target)
  }

  /** The message has a live session of its own agent and VM. */
  predicate InSession(s: State, m: Message, connection: int, clock: Clock)
  {
    var session := SessionFor(s, m, connection, clock);
    session.Some? && session.value.agent == m.core.agent && session.value.machine == m.machine
  }

  /** It has one, and its correlation is accepted. */
  predicate Authentic(c: Config, s: State, m: Message, connection: int, clock: Clock)
  {
    && InSession(s, m, connection, clock)
    && Correlation.Judge(c.correlation, s.turns, m.core, clock.judged) == Correlation.Accepted
  }

  function FactsFor(m: Message, facts: PolicyRules.Facts): PolicyRules.Facts
  {
    facts.(agentId := m.core.agent, messageType := m.core.kind, correlationChainValid := true)
  }

  ghost function Decision(c: Config, s: State, m: Message, facts: PolicyRules.Facts): PolicyRules.Effect
  {
    c.policy(s.rules, FactsFor(m, facts)).effect
  }

  /** The turns after a message that reached the correlation check. */
  function TurnsAfter(c: Config, s: State, m: Message, clock: Clock): Correlation.Table
  {
    var judged := Correlation.Judged(c.correlation, s.turns, m.core, clock.judged, clock.active, clock.purged);
    if m.core.kind == "user_query" && m.core.userInput
    then Correlation.Registered(c.correlation, judged, m.core, clock.purgedAgain, clock.registered) else judged
  }

  /** What the policy's decision adds to the log. */
  function Verdict(m: Message, decision: PolicyRules.Effect, next: nat): seq<Event>
  {
    match decision
    case Deny => [Decided(m, decision)]
    case Elevate => [Decided(m, decision), ElevationPending(next, m)]
    case Allow => if IsMemory(m) then [Decided(m, decision), Remembered(Routed(m))] else [Decided(m, decision)]
  }

  function DeskAfter(c: Config, desk: Elevations.State, m: Message, decision: PolicyRules.Effect, clock: Clock)
    : Elevations.State
  {
    if decision == PolicyRules.Elevate
    then Elevations.Next(desk, Elevations.Create(clock.elevated + c.elevationTtl, RequestOf(m), m.attached))
    else desk
  }

  /** What one routed message adds to the log. */
  ghost function RouteEvents(c: Config, s: State, m: Message, connection: int, facts: PolicyRules.Facts, clock: Clock)
    : seq<Event>
  {
    if IsHandshake(m) || !Authentic(c, s, m, connection, clock) then [Hop(m)]
    else [Hop(m)] + Verdict(m, Decision(c, s, m, facts), |s.desk.elevations|)
  }

  ghost function RouteMessage(c: Config, s: State, m: Message, connection: int, facts: PolicyRules.Facts, clock: Clock)
    : State
  {
    if IsHandshake(m) then s
    else
      s.(turns := TurnsChecked(c, s, m, connection, clock),
         desk := if Authentic(c, s, m, connection, clock)
                 then DeskAfter(c, s.desk, m, Decision(c, s, m, facts), clock) else s.desk)
  }

  /** Approving performs the memory operation, if there is one, and is then audited. */
  function ApproveEvents(s: State, id: nat, granted: bool, now: int): seq<Event>
  {
    if !Elevations.Approvable(s.desk.elevations, id, now) then []
    else
      var operation := Elevations.Operation(s.desk.elevations[id], granted);
      if operation.Some? then [Remembered(FromElevation(id, operation.value)), ElevationApproved(id)]
      else [ElevationApproved(id)]
  }

  ghost function Events(c: Config, s: State, a: Action): seq<Event>
  {
    match a
    case Route(m, connection, facts, clock) => RouteEvents(c, s, m, connection, facts, clock)
    case Approve(id, granted, now) => ApproveEvents(s, id, granted, now)
    case _ => []
  }

  ghost function Moved(c: Config, s: State, a: Action): State
  {
    match a
    case Handshake(agent, machine, hash, engines, connection, now) =>
      if HandshakeAccepted(s, agent, hash, engines) then ShakenHands(c, s, agent, machine, connection, now) else s
    case Disconnect(connection) => s.(connections := s.connections - {connection})
    case Route(m, connection, facts, clock) => RouteMessage(c, s, m, connection, facts, clock)
    case Approve(id, granted, now) =>
      s.(desk := Elevations.Next(s.desk, Elevations.Approve(id, granted, now)))
    case Deny(id) => s.(desk := Elevations.Next(s.desk, Elevations.Deny(id)))
    case Sweep(now) => s.(desk := Elevations.Next(s.desk, Elevations.Sweep(now)))
    case ChangeRules(rules) => s.(rules := rules)
    case RegisterAgent(agent, manifest) => s.(agents := s.agents[agent := manifest])
  }

  ghost function Next(c: Config, s: State, a: Action): State
  {
    Moved(c, s, a).(log := s.log + Events(c, s, a))
  }

  // The router itself

  datatype Reply =
    | NoReply
    | SessionInvalid
    | CorrelationInvalid
    | CorrelationExpired
    | PolicyDenied(quota: bool)
    | ElevationRequired(id: nat)
    | MemoryResult
    | Forwarded

  /** The answer that follows from a decision. */
  function Consequence(m: Message, decision: PolicyRules.Effect, code: Option<PolicyDecision.Code>, next: nat): Reply
  {
    match decision
    case Deny => PolicyDenied(code == Some(PolicyDecision.QuotaExceeded))
    case Elevate => ElevationRequired(next)
    case Allow => if IsMemory(m) then MemoryResult else Forwarded
  }

  ghost function DecisionCode(c: Config, s: State, m: Message, facts: PolicyRules.Facts): Option<PolicyDecision.Code>
  {
    c.policy(s.rules, FactsFor(m, facts)).code
  }

  /** The answer to a message that the session and correlation checks refuse; none for an authentic one. */
  function Refusal(c: Config, s: State, m: Message, connection: int, clock: Clock): (r: Option<Reply>)
    ensures r.None? <==> Authentic(c, s, m, connection, clock)
  {
    if !InSession(s, m, connection, clock) then Some(SessionInvalid)
    else
      match Correlation.Judge(c.correlation, s.turns, m.core, clock.judged)
      case Expired => Some(CorrelationExpired)
      case Invalid => Some(CorrelationInvalid)
      case Accepted => None
  }

  /** The turns after the checks, whatever their outcome. */
  function TurnsChecked(c: Config, s: State, m: Message, connection: int, clock: Clock): Correlation.Table
  {
    if !InSession(s, m, connection, clock) then s.turns
    else if !Authentic(c, s, m, connection, clock) then
      Correlation.Judged(c.correlation, s.turns, m.core, clock.judged, clock.active, clock.purged)
    else TurnsAfter(c, s, m, clock)
  }

  /** The answer to a routed message. */
  ghost function ReplyTo(c: Config, s: State, m: Message, connection: int, facts: PolicyRules.Facts, clock: Clock)
    : Reply
  {
    if IsHandshake(m) then NoReply
    else
      var refusal := Refusal(c, s, m, connection, clock);
      if refusal.Some? then refusal.value
      else Consequence(m, Decision(c, s, m, facts), DecisionCode(c, s, m, facts), |s.desk.elevations|)
  }

  // What the checks and the answers mean

  predicate Live(s: State, token: Option<Token>, now: int)
  {
    token.Some? && token.value < |s.sessions| && now < s.sessions[token.value].expiresAt
  }

  /** The token's session is live, and of the message's own agent and VM. */
  predicate Owned(s: State, token: Option<Token>, now: int, m: Message)
  {
    && Live(s, token, now)
    && s.sessions[token.value].agent == m.core.agent && s.sessions[token.value].machine == m.machine
  }

  /** The connection's session is the message's own; or the connection has no live session, and the session
      of the token that the message carries is its own. */
  predicate Entitled(s: State, m: Message, connection: int, clock: Clock)
  {
    var bound := if connection in s.connections then Some(s.connections[connection]) else None;
    Owned(s, bound, clock.connection, m) || (!Live(s, bound, clock.connection) && Owned(s, m.token, clock.token, m))
  }

  /** The message needs no turn, or joins a live one of its agent with room, or is a query on an unknown one. */
  predicate Correlated(c: Config, s: State, m: Message, clock: Clock)
  {
    || Correlation.NeedsNoTurn(m.core)
    || Correlation.JoinsTurn(c.correlation, s.turns, m.core, clock.judged)
    || Correlation.OpensUnknown(s.turns, m.core)
  }

  predicate HandshakeMessage(m: Message)
  {
    && m.core.kind == "handshake"
    && (m.core.messageClass == Correlation.System || m.core.messageClass == Correlation.Response)
  }

  predicate MemoryMessage(m: Message)
  {
    |m.core.kind| >= 7 && m.core.kind[..7] == "memory:"
  }

  /** The facts as the policy sees them: the message speaks for its own agent, as what it is, and its
      correlation has been accepted. */
  ghost function JudgementOn(c: Config, s: State, m: Message, facts: PolicyRules.Facts): Judgement
  {
    c.policy(s.rules, facts.(agentId := m.core.agent, messageType := m.core.kind, correlationChainValid := true))
  }

  /** When each answer is the right one; exactly one is. */
  ghost predicate RightReply(c: Config, s: State, m: Message, connection: int, facts: PolicyRules.Facts, clock: Clock,
                             reply: Reply)
  {
    var judgement := JudgementOn(c, s, m, facts);
    if HandshakeMessage(m) then reply == NoReply
    else if !Entitled(s, m, connection, clock) then reply == SessionInvalid
    else if !Correlated(c, s, m, clock) then
      reply == if Correlation.Idle(c.correlation, s.turns, Correlation.TurnOf(m.core), clock.judged)
               then CorrelationExpired else CorrelationInvalid
    else
      match judgement.effect
      case Deny => reply == PolicyDenied(judgement.code == Some(PolicyDecision.QuotaExceeded))
      case Elevate => reply == ElevationRequired(|s.desk.elevations|)
      case Allow => reply == if MemoryMessage(m) then MemoryResult else Forwarded
  }

  /** The events that a message leaves in the log, by its answer. */
  predicate RightEvents(m: Message, reply: Reply, events: seq<Event>)
  {
    match reply
    case NoReply | SessionInvalid | CorrelationInvalid | CorrelationExpired => events == [Hop(m)]
    case PolicyDenied(_) => events == [Hop(m), Decided(m, PolicyRules.Deny)]
    case ElevationRequired(id) => events == [Hop(m), Decided(m, PolicyRules.Elevate), ElevationPending(id, m)]
    case MemoryResult => events == [Hop(m), Decided(m, PolicyRules.Allow), Remembered(Routed(m))]
    case Forwarded => events == [Hop(m), Decided(m, PolicyRules.Allow)]
  }

  /** The elevation keeps the message, what it is about and what was attached to it, and its time. */
  predicate Holds(e: Replay.Elevation, m: Message)
  {
    && e.request.id == m.id && e.request.source == Replay.Vm(m.core.agent, m.machine)
    && e.request.target == m.target && e.attached == m.attached
    && (e.request.kind == Replay.Memory <==>
          m.core.kind == "memory:query" || m.core.kind == "memory:write" || m.core.kind == "memory:delete")
    && (e.request.kind == Replay.GrantRequest <==> m.core.kind == "memory:grant_request")
  }

  /** One elevation is filed for the message exactly when it is answered so. */
  predicate RightDesk(c: Config, desk: Elevations.State, desk': Elevations.State, m: Message, clock: Clock,
                      reply: Reply)
  {
    if reply.ElevationRequired? then
      && reply.id == |desk.elevations| == |desk'.elevations| - 1 && desk.elevations <= desk'.elevations
      && var e := desk'.elevations[reply.id];
         Holds(e, m) && e.status == Replay.Pending && e.expiresAt == clock.elevated + c.elevationTtl
    else desk' == desk
  }

  /** A message without a session leaves the turns alone, direct user input opens its turn, and any other
      message counts in the turn that it joins. */
  ghost predicate RightTurns(c: Config, turns: Correlation.Table, turns': Correlation.Table, m: Message, clock: Clock,
                             reply: Reply)
  {
    if reply.NoReply? || reply.SessionInvalid? then turns' == turns
    else if m.core.kind == "user_query" && m.core.userInput then
      && m.core.correlationId in turns'
      && turns'[m.core.correlationId]
         == Correlation.Row(m.core.agent, m.core.user, clock.registered, clock.registered, 0)
      && Correlation.OthersKept(c.correlation, turns, turns', m.core.correlationId, clock.purgedAgain)
    else Correlation.RightTable(c.correlation, turns, turns', m.core, clock.judged, clock.active, clock.purged)
  }

  /** What routing leaves behind, by its answer. */
  ghost predicate RightEffects(c: Config, s: State, s': State, m: Message, clock: Clock, reply: Reply)
  {
    && s'.agents == s.agents && s'.sessions == s.sessions && s'.connections == s.connections && s'.rules == s.rules
    && s.log <= s'.log && RightEvents(m, reply, s'.log[|s.log|..])
    && RightDesk(c, s.desk, s'.desk, m, clock, reply)
    && RightTurns(c, s.turns, s'.turns, m, clock, reply)
  }

  lemma InSessionMeans(s: State, m: Message, connection: int, clock: Clock)
    ensures InSession(s, m, connection, clock) <==> Entitled(s, m, connection, clock)
  {
  }

  lemma AuthenticMeans(c: Config, s: State, m: Message, connection: int, clock: Clock)
    ensures Authentic(c, s, m, connection, clock) <==> Entitled(s, m, connection, clock) && Correlated(c, s, m, clock)
  {
  }

  lemma ReplyIsRight(c: Config, s: State, m: Message, connection: int, facts: PolicyRules.Facts, clock: Clock)
    ensures RightReply(c, s, m, connection, facts, clock, ReplyTo(c, s, m, connection, facts, clock))
  {
    InSessionMeans(s, m, connection, clock);
    AuthenticMeans(c, s, m, connection, clock);
  }

  lemma EventsAreRight(c: Config, s: State, m: Message, connection: int, facts: PolicyRules.Facts, clock: Clock)
    ensures RightEvents(m, ReplyTo(c, s, m, connection, facts, clock), RouteEvents(c, s, m, connection, facts, clock))
  {
  }

  lemma DeskIsRight(c: Config, s: State, m: Message, connection: int, facts: PolicyRules.Facts, clock: Clock)
    ensures RightDesk(c, s.desk, RouteMessage(c, s, m, connection, facts, clock).desk, m, clock,
                      ReplyTo(c, s, m, connection, facts, clock))
  {
  }

  lemma TurnsAreRight(c: Config, s: State, m: Message, connection: int, facts: PolicyRules.Facts, clock: Clock)
    ensures RightTurns(c, s.turns, RouteMessage(c, s, m, connection, facts, clock).turns, m, clock,
                       ReplyTo(c, s, m, connection, facts, clock))
  {
    if m.core.kind == "user_query" && m.core.userInput {
      Correlation.OpensItsTurn(c.correlation, s.turns, m.core, clock.purgedAgain, clock.registered);
      assert Correlation.Judged(c.correlation, s.turns, m.core, clock.judged, clock.active, clock.purged) == s.turns;
    } else {
      Correlation.TableIsRight(c.correlation, s.turns, m.core, clock.judged, clock.active, clock.purged);
    }
  }

  lemma EffectsAreRight(c: Config, s: State, m: Message, connection: int, facts: PolicyRules.Facts, clock: Clock)
    ensures RightEffects(c, s, Next(c, s, Route(m, connection, facts, clock)), m, clock,
                         ReplyTo(c, s, m, connection, facts, clock))
  {
    var s' := Next(c, s, Route(m, connection, facts, clock));
    assert s'.log[|s.log|..] == RouteEvents(c, s, m, connection, facts, clock);
    EventsAreRight(c, s, m, connection, facts, clock);
    DeskIsRight(c, s, m, connection, facts, clock);
    TurnsAreRight(c, s, m, connection, facts, clock);
  }

  /** What the other requests change, and that they change nothing else. */
  lemma RequestsMean(c: Config, s: State)
    ensures forall k ::
      var s' := Next(c, s, Disconnect(k));
      && s' == s.(connections := s'.connections) && k !in s'.connections
      && forall other | other != k ::
           (other in s'.connections <==> other in s.connections)
           && (other in s'.connections ==> s'.connections[other] == s.connections[other])
    ensures forall rules :: Next(c, s, ChangeRules(rules)) == s.(rules := rules)
    ensures forall agent, manifest ::
      Next(c, s, RegisterAgent(agent, manifest)) == s.(agents := s.agents[agent := manifest])
  {
    assert s.log + [] == s.log;
  }

  lemma DeskRequestsMean(c: Config, s: State)
    ensures forall id, es' | es' == Next(c, s, Deny(id)).desk.elevations ::
      && Next(c, s, Deny(id)) == s.(desk := s.desk.(elevations := es')) && |es'| == |s.desk.elevations|
      && forall i | 0 <= i < |es'| ::
           es'[i] == if i == id then s.desk.elevations[i].(status := Replay.Denied) else s.desk.elevations[i]
    ensures forall now, es' | es' == Next(c, s, Sweep(now)).desk.elevations ::
      && Next(c, s, Sweep(now)) == s.(desk := s.desk.(elevations := es')) && |es'| == |s.desk.elevations|
      && forall i | 0 <= i < |es'| ::
           var e := s.desk.elevations[i];
           es'[i] == if e.status == Replay.Pending && e.expiresAt <= now then e.(status := Replay.Expired) else e
  {
    assert s.log + [] == s.log;
  }

  /** After a disconnection the connection speaks for nobody: a message on it needs a token of its own. */
  lemma DisconnectedNeedsToken(c: Config, s: State, m: Message, connection: int, clock: Clock)
    ensures Entitled(Next(c, s, Disconnect(connection)), m, connection, clock) <==> Owned(s, m.token, clock.token, m)
  {
    RequestsMean(c, s);
  }

  class MessageRouter {
    const glob: PolicyRules.Glob
    const elevationTtl: int
    const sessions: SessionManager
    const transport: Replay.AgentTransport
    const correlation: Correlation.CorrelationStore
    const rules: PolicyRules.RuleStore
    const elevations: Elevations.ElevationApi
    var agents: map<string, Manifest>
    var log: seq<Event>

    ghost function Snapshot(): State
      reads this, sessions, correlation, rules, elevations
    {
      State(agents, sessions.sessions, sessions.connections, correlation.turns, rules.rules, elevations.History(), log)
    }

    ghost function Settings(): Config
    {
      Config(correlation.config, PolicyFor(glob), sessions.ttl, elevationTtl)
    }

    constructor (glob: PolicyRules.Glob, elevationTtl: int, sessions: SessionManager, transport: Replay.AgentTransport,
                 correlation: Correlation.CorrelationStore, rules: PolicyRules.RuleStore,
                 elevations: Elevations.ElevationApi)
      ensures this.glob == glob && this.elevationTtl == elevationTtl
      ensures this.sessions == sessions && this.transport == transport && this.correlation == correlation
      ensures this.rules == rules && this.elevations == elevations && agents == map[] && log == []
    {
      this.glob, this.elevationTtl, this.transport := glob, elevationTtl, transport;
      this.sessions, this.correlation, this.rules, this.elevations := sessions, correlation, rules, elevations;
      agents, log := map[], [];
    }

    /** A handshake that is accepted opens a session and binds both the connection and the VM. */
    method Shake(agent: string, machine: string, hash: string, engines: set<string>, connection: int, now: int)
      returns (token: Option<Token>)
      modifies sessions, transport
      ensures Snapshot() == Next(Settings(), old(Snapshot()), Handshake(agent, machine, hash, engines, connection, now))
      ensures token.Some? <==>
              && hash != "" && agent != "" && agent in agents
              && agents[agent].hash == hash && engines <= agents[agent].engines
      ensures token.Some? ==>
              && token.value == |old(sessions.sessions)|
              && sessions.sessions == old(sessions.sessions) + [Session(agent, machine, now + sessions.ttl)]
      ensures token.Some? ==> token == ConnectionToken(sessions.connections, connection)
      ensures var vm := Replay.Vm(agent, machine);
        forall v :: Replay.Reachable(transport.State(), v) <==>
          if token.Some? && v == vm then connection in old(transport.open)
          else Replay.Reachable(old(transport.State()), v)
    {
      if hash == "" || agent == "" {
        return None;
      }
      if agent !in agents || agents[agent].hash != hash {
        return None;
      }
      if !(engines <= agents[agent].engines) {
        return None;
      }
      var created, _ := sessions.CreateSession(agent, machine, now);
      sessions.BindConnection(connection, created);
      transport.BindAgent(Replay.Vm(agent, machine), connection);
      return Some(created);
    }

    /** From now on the agent's handshakes are judged by this manifest, those of others as before. */
    method RegisterAgentManifest(agent: string, manifest: Manifest)
      modifies this`agents
      ensures Snapshot() == Next(Settings(), old(Snapshot()), RegisterAgent(agent, manifest))
      ensures forall other, hash, engines :: HandshakeAccepted(Snapshot(), other, hash, engines) <==>
                if other == agent then hash != "" && agent != "" && hash == manifest.hash && engines <= manifest.engines
                else HandshakeAccepted(old(Snapshot()), other, hash, engines)
    {
      agents := agents[agent := manifest];
    }

    /** Approving an elevation is one step of the state machine: its memory operation, if there is one, and
        then the approval are logged. */
    method ApproveElevation(id: nat, grant: Option<nat>, created: nat, now: int, success: bool, luck: Replay.Luck)
      returns (answer: Elevations.Answer)
      modifies this`log, elevations, elevations.replay, elevations.replay.queue, elevations.replay.queue.transport
      ensures Snapshot() == Next(Settings(), old(Snapshot()), Approve(id, grant.Some?, now))
      ensures answer.Granted? <==> Elevations.Approvable(old(elevations.elevations), id, now)
    {
      ghost var before := Snapshot();
      var performed := |elevations.replay.effects|;
      answer := elevations.ApproveElevation(id, grant, created, now, success, luck);
      var events := [];
      if |elevations.replay.effects| > performed {
        events := [Remembered(FromElevation(id, elevations.replay.effects[|elevations.replay.effects| - 1].0))];
      }
      if answer.Granted? {
        events := events + [ElevationApproved(id)];
      }
      assert events == ApproveEvents(before, id, grant.Some?, now);
      log := log + events;
      ApproveStep(Settings(), before, id, grant.Some?, now);
    }

    /** The message belongs to a live session of its own agent and VM. */
    method CheckSession(m: Message, connection: int, clock: Clock) returns (ok: bool)
      ensures ok == InSession(Snapshot(), m, connection, clock) == Entitled(Snapshot(), m, connection, clock)
    {
      var session := sessions.ValidateConnection(connection, clock.connection);
      if session.None? {
        session := sessions.ValidateToken(m.token, clock.token);
      }
      if session.None? {
        return false;
      }
      if m.core.agent != session.value.agent {
        return false;
      }
      if m.machine != session.value.machine {
        return false;
      }
      return true;
    }

    method Decide(m: Message, facts: PolicyRules.Facts) returns (decision: PolicyDecision.Decision)
      ensures decision.decision == Decision(Settings(), Snapshot(), m, facts)
      ensures decision.code == DecisionCode(Settings(), Snapshot(), m, facts)
    {
      decision := PolicyEngine.Evaluate(glob, rules, FactsFor(m, facts));
    }

    /** Acting on the policy's decision. */
    method Conclude(m: Message, decision: PolicyDecision.Decision, clock: Clock) returns (reply: Reply)
      modifies this`log, elevations
      ensures log == old(log) + Verdict(m, decision.decision, |old(elevations.elevations)|)
      ensures elevations.History() ==
              DeskAfter(Settings(), old(elevations.History()), m, decision.decision, clock)
      ensures reply == Consequence(m, decision.decision, decision.code, |old(elevations.elevations)|)
    {
      log := log + [Decided(m, decision.decision)];
      if decision.decision == PolicyRules.Deny {
        return PolicyDenied(decision.code == Some(PolicyDecision.QuotaExceeded));
      }
      if decision.decision == PolicyRules.Elevate {
        var id := elevations.CreateElevation(clock.elevated + elevationTtl, RequestOf(m), m.attached);
        log := log + [ElevationPending(id, m)];
        return ElevationRequired(id);
      }
      if IsMemory(m) {
        log := log + [Remembered(Routed(m))];
        return MemoryResult;
      }
      return Forwarded;
    }

    /** The session and correlation checks; an accepted user query opens its turn. */
    method Admit(m: Message, connection: int, clock: Clock) returns (refusal: Option<Reply>)
      modifies correlation
      ensures refusal == Refusal(Settings(), old(Snapshot()), m, connection, clock)
      ensures correlation.turns == TurnsChecked(Settings(), old(Snapshot()), m, connection, clock)
    {
      var ok := CheckSession(m, connection, clock);
      if !ok {
        return Some(SessionInvalid);
      }
      var verdict := correlation.Validate(m.core, clock.judged, clock.active, clock.purged);
      if verdict != Correlation.Accepted {
        return Some(if verdict == Correlation.Expired then CorrelationExpired else CorrelationInvalid);
      }
      if m.core.kind == "user_query" && m.core.userInput {
        correlation.RegisterUserQuery(m.core, clock.purgedAgain, clock.registered);
      }
      return None;
    }

    /** Routing a message: the answer is the right one for the session, the turn and the policy, and the
        answer tells what has been logged and what else has changed. */
    method Handle(m: Message, connection: int, facts: PolicyRules.Facts, clock: Clock) returns (reply: Reply)
      modifies this`log, correlation, elevations
      ensures Snapshot() == Next(Settings(), old(Snapshot()), Route(m, connection, facts, clock))
      ensures RightReply(Settings(), old(Snapshot()), m, connection, facts, clock, reply)
      ensures RightEffects(Settings(), old(Snapshot()), Snapshot(), m, clock, reply)
    {
      ghost var s := Snapshot();
      reply := Process(m, connection, facts, clock);
      ReplyIsRight(Settings(), s, m, connection, facts, clock);
      EffectsAreRight(Settings(), s, m, connection, facts, clock);
    }

    /** One step of the state machine, with its answer. */
    method Process(m: Message, connection: int, facts: PolicyRules.Facts, clock: Clock) returns (reply: Reply)
      modifies this`log, correlation, elevations
      ensures Snapshot() == Next(Settings(), old(Snapshot()), Route(m, connection, facts, clock))
      ensures reply == ReplyTo(Settings(), old(Snapshot()), m, connection, facts, clock)
    {
      log := log + [Hop(m)];
      if IsHandshake(m) {
        return NoReply;
      }
      var refusal := Admit(m, connection, clock);
      if refusal.Some? {
        return refusal.value;
      }
      var decision := Decide(m, facts);
      reply := Conclude(m, decision, clock);
      RouteStep(Settings(), old(Snapshot()), m, connection, facts, clock);
    }
  }

  /** What approving does: the elevation is settled, its operation and then the approval are logged. */
  lemma ApproveStep(c: Config, s: State, id: nat, granted: bool, now: int)
    ensures Next(c, s, Approve(id, granted, now)) ==
            s.(desk := Elevations.Next(s.desk, Elevations.Approve(id, granted, now)),
               log := s.log + ApproveEvents(s, id, granted, now))
  {
  }

  /** What routing does to an authentic message. */
  lemma RouteStep(c: Config, s: State, m: Message, connection: int, facts: PolicyRules.Facts, clock: Clock)
    requires !IsHandshake(m) && Authentic(c, s, m, connection, clock)
    ensures Next(c, s, Route(m, connection, facts, clock)) ==
            s.(turns := TurnsChecked(c, s, m, connection, clock),
               desk := DeskAfter(c, s.desk, m, Decision(c, s, m, facts), clock),
               log := s.log + [Hop(m)] + Verdict(m, Decision(c, s, m, facts), |s.desk.elevations|))
  {
    assert s.log + [Hop(m)] + Verdict(m, Decision(c, s, m, facts), |s.desk.elevations|)
        == s.log + RouteEvents(c, s, m, connection, facts, clock);
  }

  /** Memory is touched for a routed message exactly when it is answered with a memory result. */
  lemma MemoryIffAnswered(c: Config, s: State, m: Message, connection: int, facts: PolicyRules.Facts, clock: Clock)
    ensures Remembered(Routed(m)) in RouteEvents(c, s, m, connection, facts, clock) <==>
            ReplyTo(c, s, m, connection, facts, clock) == MemoryResult
  {
    assert Hop(m) != Remembered(Routed(m));
  }
}
