/** The correlation store: which messages belong to a live turn.  Rows are purged eagerly; the laws
    say that purging cannot be seen from outside and how many chained messages a turn admits. */
module Correlation {
  import opened Common

  type Id = string

  datatype Class = Request | Response | Event | Error | System

  /** What the store looks at in a message. */
  datatype Message = Message(
    kind: string,
    messageClass: Class,
    userInput: bool,
    agent: string,
    user: Option<string>,
    correlationId: Id,
    origin: Option<Id>)
  {
    function Turn(): Id { if origin.Some? then origin.value else correlationId }
  }

  datatype Row = Row(agent: string, user: Option<string>, startedAt: int, lastActivity: int, depth: int)

  type Table = map<Id, Row>

  datatype Config = Config(timeout: int, maxDepth: int)

  datatype Verdict = Accepted | Invalid | Expired

  function Purge(t: Table, cutoff: int): (p: Table)
    ensures forall id :: id in p <==> id in t && t[id].lastActivity >= cutoff
    ensures forall id | id in p :: p[id] == t[id]
  {
    map id | id in t && t[id].lastActivity >= cutoff :: t[id]
  }

  /** Messages that are accepted without belonging to a turn. */
  predicate Exempt(m: Message)
  {
    (m.kind == "user_query" && m.userInput) || m.messageClass == System || m.kind == "handshake"
  }

  /** The answer to a message at clock reading `now`. */
  function Judge(c: Config, t: Table, m: Message, now: int): Verdict
  {
    if Exempt(m) then Accepted
    else if m.Turn() !in t then (if m.kind == "user_query" then Accepted else Invalid)
    else
      var row := t[m.Turn()];
      if row.lastActivity < now - c.timeout then Expired
      else if row.agent != m.agent then Invalid
      else if row.depth + 1 > c.maxDepth then Invalid
      else Accepted
  }

  /** The message is accepted as a member of its turn. */
  predicate Chains(c: Config, t: Table, m: Message, now: int)
  {
    !Exempt(m) && m.Turn() in t && Judge(c, t, m, now) == Accepted
  }

  /** The table after a message: an expired turn is dropped, a chained message deepens its turn.
      The clock is read three times: for the test, for the new activity and for the purge. */
  function Judged(c: Config, t: Table, m: Message, now: int, active: int, purged: int): (u: Table)
  {
    if Chains(c, t, m, now) then
      Purge(t[m.Turn() := t[m.Turn()].(lastActivity := active, depth := t[m.Turn()].depth + 1)],
            purged - c.timeout)
    else if !Exempt(m) && m.Turn() in t && Judge(c, t, m, now) == Expired then t - {m.Turn()}
    else t
  }

  function Registered(c: Config, t: Table, m: Message, purged: int, now: int): (u: Table)
  {
    Purge(t, purged - c.timeout)[m.correlationId := Row(m.agent, m.user, now, now, 0)]
  }

  // What acceptance means

  /** The turn a message speaks of: the one it originates from, or else its own. */
  function TurnOf(m: Message): Id
  {
    match m.origin
    case Some(id) => id
    case None => m.correlationId
  }

  /** Direct user input, system messages and handshakes. */
  predicate NeedsNoTurn(m: Message)
  {
    || (m.kind == "user_query" && m.userInput)
    || m.messageClass == System
    || m.kind == "handshake"
  }

  predicate Idle(c: Config, t: Table, turn: Id, now: int)
  {
    turn in t && t[turn].lastActivity + c.timeout < now
  }

  /** The turn is known and not idle past the timeout, the message is of its agent, and it has room. */
  predicate JoinsTurn(c: Config, t: Table, m: Message, now: int)
  {
    && !NeedsNoTurn(m) && TurnOf(m) in t && !Idle(c, t, TurnOf(m), now)
    && t[TurnOf(m)].agent == m.agent && t[TurnOf(m)].depth < c.maxDepth
  }

  predicate OpensUnknown(t: Table, m: Message)
  {
    m.kind == "user_query" && TurnOf(m) !in t
  }

  /** The table after a message: one that joins its turn renews it and raises its depth by one, and idle turns
      go; one on an idle turn makes just that turn go; any other leaves the table alone. */
  ghost predicate RightTable(c: Config, t: Table, t': Table, m: Message, now: int, active: int, purged: int)
  {
    if JoinsTurn(c, t, m, now) then
      && (TurnOf(m) in t' <==> purged <= active + c.timeout)
      && (TurnOf(m) in t' ==>
            var row, was := t'[TurnOf(m)], t[TurnOf(m)];
            && row.depth == was.depth + 1 && row.lastActivity == active
            && row.agent == was.agent && row.user == was.user && row.startedAt == was.startedAt)
      && OthersKept(c, t, t', TurnOf(m), purged)
    else if !NeedsNoTurn(m) && Idle(c, t, TurnOf(m), now) then t' == t - {TurnOf(m)}
    else t' == t
  }

  /** All other turns are kept unless they have been idle past the timeout. */
  ghost predicate OthersKept(c: Config, t: Table, t': Table, turn: Id, now: int)
  {
    forall id | id != turn :: (id in t' <==> id in t && !Idle(c, t, id, now)) && (id in t' ==> t'[id] == t[id])
  }

  lemma TableIsRight(c: Config, t: Table, m: Message, now: int, active: int, purged: int)
    ensures RightTable(c, t, Judged(c, t, m, now, active, purged), m, now, active, purged)
  {
  }

  lemma OpensItsTurn(c: Config, t: Table, m: Message, purged: int, now: int)
    ensures var t' := Registered(c, t, m, purged, now);
      && m.correlationId in t' && t'[m.correlationId] == Row(m.agent, m.user, now, now, 0)
      && OthersKept(c, t, t', m.correlationId, purged)
  {
  }

  class CorrelationStore {
    const config: Config
    var turns: Table

    constructor (config: Config)
      ensures this.config == config && turns == map[]
    {
      this.config := config;
      turns := map[];
    }

    method PurgeExpired(now: int)
      modifies this
      ensures turns == Purge(old(turns), now - config.timeout)
    {
      var cutoff := now - config.timeout;
      turns := map id | id in turns && turns[id].lastActivity >= cutoff :: turns[id];
    }

    method RegisterUserQuery(m: Message, purged: int, now: int)
      modifies this
      ensures turns == Registered(config, old(turns), m, purged, now)
      ensures m.correlationId in turns && turns[m.correlationId] == Row(m.agent, m.user, now, now, 0)
      ensures OthersKept(config, old(turns), turns, m.correlationId, purged)
    {
      OpensItsTurn(config, turns, m, purged, now);
      PurgeExpired(purged);
      turns := turns[m.correlationId := Row(m.agent, m.user, now, now, 0)];
    }

    /** A message is accepted if and only if it needs no turn, or its turn is alive, of the same agent and not
        yet full, or it is a user query whose turn is unknown.  An accepted message counts in its turn. */
    method Validate(m: Message, now: int, active: int, purged: int) returns (v: Verdict)
      modifies this
      ensures v == Judge(config, old(turns), m, now)
      ensures turns == Judged(config, old(turns), m, now, active, purged)
      ensures v == Accepted <==> NeedsNoTurn(m) || JoinsTurn(config, old(turns), m, now) || OpensUnknown(old(turns), m)
      ensures v == Expired <==> !NeedsNoTurn(m) && Idle(config, old(turns), TurnOf(m), now)
      ensures RightTable(config, old(turns), turns, m, now, active, purged)
    {
      TableIsRight(config, turns, m, now, active, purged);
      if m.kind == "user_query" && m.userInput {
        return Accepted;
      }
      if m.messageClass == System {
        return Accepted;
      }
      if m.kind == "handshake" {
        return Accepted;
      }
      var origin := m.Turn();
      if origin !in turns {
        return if m.kind == "user_query" then Accepted else Invalid;
      }
      var turn := turns[origin];
      if turn.lastActivity < now - config.timeout {
        turns := turns - {origin};
        return Expired;
      }
      if turn.agent != m.agent {
        return Invalid;
      }
      var depth := turn.depth + 1;
      if depth > config.maxDepth {
        return Invalid;
      }
      turns := turns[origin := turn.(lastActivity := active, depth := depth)];
      PurgeExpired(purged);
      v := Accepted;
    }
  }

  // Runs

  datatype Call =
    | Startup(now: int)
    | Register(m: Message, purged: int, now: int)
    | Validate(m: Message, now: int, active: int, purged: int)
  {
    function First(): int { match this case Startup(t) => t case Register(_, t, _) => t case Validate(_, t, _, _) => t }
    function Last(): int { match this case Startup(t) => t case Register(_, _, t) => t case Validate(_, _, _, t) => t }
    predicate Ordered() {
      match this
      case Startup(_) => true
      case Register(_, purged, now) => purged <= now
      case Validate(_, now, active, purged) => now <= active <= purged
    }
  }

  /** The clock never runs backwards, within a call or between calls. */
  predicate Monotone(calls: seq<Call>)
  {
    && (forall i | 0 <= i < |calls| :: calls[i].Ordered())
    && (forall i, j | 0 <= i < j < |calls| :: calls[i].Last() <= calls[j].First())
  }

  function Next(c: Config, t: Table, call: Call): Table
  {
    match call
    case Startup(now) => Purge(t, now - c.timeout)
    case Register(m, purged, now) => Registered(c, t, m, purged, now)
    case Validate(m, now, active, purged) => Judged(c, t, m, now, active, purged)
  }

  /** The store that never purges: rows go only when a message finds its own turn expired. */
  function NextLazy(c: Config, t: Table, call: Call): Table
  {
    match call
    case Startup(now) => t
    case Register(m, _, now) => t[m.correlationId := Row(m.agent, m.user, now, now, 0)]
    case Validate(m, now, active, _) =>
      if Chains(c, t, m, now)
      then t[m.Turn() := t[m.Turn()].(lastActivity := active, depth := t[m.Turn()].depth + 1)]
      else if !Exempt(m) && m.Turn() in t && Judge(c, t, m, now) == Expired then t - {m.Turn()}
      else t
  }

  function Run(c: Config, t: Table, calls: seq<Call>): Table
  {
    if calls == [] then t else Next(c, Run(c, t, calls[..|calls| - 1]), calls[|calls| - 1])
  }

  function RunLazy(c: Config, t: Table, calls: seq<Call>): Table
  {
    if calls == [] then t else NextLazy(c, RunLazy(c, t, calls[..|calls| - 1]), calls[|calls| - 1])
  }

  /** The eager table holds rows of the lazy one, and at least those still alive at `now`. */
  ghost predicate Agree(c: Config, eager: Table, lax: Table, now: int)
  {
    && (forall id | id in eager :: id in lax && eager[id] == lax[id])
    && (forall id | id in lax && lax[id].lastActivity >= now - c.timeout :: id in eager)
  }

  lemma NextAgrees(c: Config, eager: Table, lax: Table, before: int, call: Call)
    requires Agree(c, eager, lax, before)
    requires call.Ordered() && before <= call.First()
    ensures Agree(c, Next(c, eager, call), NextLazy(c, lax, call), call.Last())
  {
  }

  lemma {:induction false} RunAgrees(c: Config, t: Table, calls: seq<Call>, start: int)
    requires Monotone(calls) && (calls != [] ==> start <= calls[0].First())
    ensures var now := if calls == [] then start else calls[|calls| - 1].Last();
      Agree(c, Run(c, t, calls), RunLazy(c, t, calls), now)
  {
    if calls != [] {
      var front := calls[..|calls| - 1];
      RunAgrees(c, t, front, start);
      var before := if front == [] then start else front[|front| - 1].Last();
      assert before <= calls[|calls| - 1].First();
      NextAgrees(c, Run(c, t, front), RunLazy(c, t, front), before, calls[|calls| - 1]);
    }
  }

  /** Purging is invisible.  After any run with a clock that does not run backwards, the eager and the
      lazy store have the same live turns, and they accept the same messages other than user queries;
      a rejection may differ only in saying invalid where the lazy store says expired. */
  lemma PurgingIsInvisible(c: Config, t: Table, calls: seq<Call>, m: Message, now: int)
    requires Monotone(calls) && (calls != [] ==> calls[|calls| - 1].Last() <= now)
    ensures var eager, lax := Run(c, t, calls), RunLazy(c, t, calls);
      && Purge(eager, now - c.timeout) == Purge(lax, now - c.timeout)
      && (m.kind != "user_query" ==>
            var v, w := Judge(c, eager, m, now), Judge(c, lax, m, now);
            v == w || (v == Invalid && w == Expired))
  {
    RunAgrees(c, t, calls, if calls == [] then now else calls[0].First());
  }

  /** For every message the two answers differ exactly when the eager store has already dropped an
      expired turn that the lazy one still holds; a user query is then accepted, not refused. */
  lemma AnswersDifferIff(c: Config, t: Table, calls: seq<Call>, m: Message, now: int)
    requires Monotone(calls) && (calls != [] ==> calls[|calls| - 1].Last() <= now)
    ensures var eager, lax := Run(c, t, calls), RunLazy(c, t, calls);
      && (Judge(c, eager, m, now) != Judge(c, lax, m, now) <==>
            !Exempt(m) && m.Turn() in lax && m.Turn() !in eager)
      && (Judge(c, eager, m, now) != Judge(c, lax, m, now) ==>
            && Judge(c, lax, m, now) == Expired
            && Judge(c, eager, m, now) == if m.kind == "user_query" then Accepted else Invalid)
  {
    RunAgrees(c, t, calls, if calls == [] then now else calls[0].First());
  }

  /** After a turn has been registered, as the router does for direct user input, and has timed out, a
      further user query on it that is not user input is accepted by one store and refused by the
      other. */
  lemma UserQueryCanTell() returns (c: Config, calls: seq<Call>, m: Message, now: int)
    ensures Monotone(calls) && calls != [] && calls[|calls| - 1].Last() <= now
    ensures forall call | call in calls && call.Register? :: call.m.kind == "user_query" && call.m.userInput
    ensures Judge(c, Run(c, map[], calls), m, now) == Accepted
    ensures Judge(c, RunLazy(c, map[], calls), m, now) == Expired
  {
    c := Config(10, 16);
    var first := Message("user_query", Request, true, "agent", None, "turn", None);
    m := Message("user_query", Request, false, "agent", None, "again", Some("turn"));
    calls := [Register(first, 0, 0), Startup(20)];
    now := 20;
    assert calls[..1] == [calls[0]] && calls[..1][..0] == [];
    assert Run(c, map[], calls[..1])["turn"].lastActivity == 0;
    assert RunLazy(c, map[], calls[..1])["turn"].lastActivity == 0;
  }

  // Chains of messages

  /** A turn is opened by a registration and joined by every message accepted into it; `active` is
      the activity time written, `at` the time the message was judged. */
  datatype Event =
    | Opened(turn: Id, agent: string, active: int)
    | Joined(turn: Id, agent: string, active: int, at: int)

  function EventsOf(c: Config, t: Table, call: Call): seq<Event>
  {
    match call
    case Startup(_) => []
    case Register(m, _, now) => [Opened(m.correlationId, m.agent, now)]
    case Validate(m, now, active, _) =>
      if Chains(c, t, m, now) then [Joined(m.Turn(), m.agent, active, now)] else []
  }

  /** Everything that happened to turns in a run from an empty store. */
  function History(c: Config, calls: seq<Call>): seq<Event>
  {
    if calls == [] then []
    else
      var front := calls[..|calls| - 1];
      History(c, front) + EventsOf(c, Run(c, map[], front), calls[|calls| - 1])
  }

  /** The events of one turn since it was last opened. */
  function Chain(events: seq<Event>, turn: Id): seq<Event>
  {
    if events == [] then []
    else
      var last, before := events[|events| - 1], Chain(events[..|events| - 1], turn);
      if last.turn != turn then before
      else if last.Opened? then [last]
      else before + [last]
  }

  /** Opened once, joined at most `maxDepth` times, only by the agent that opened it, and each time
      within the timeout of the activity before. */
  ghost predicate Sound(c: Config, chain: seq<Event>)
  {
    chain != [] ==>
      && chain[0].Opened?
      && (|chain| > 1 ==> |chain| - 1 <= c.maxDepth)
      && forall i | 1 <= i < |chain| ::
           chain[i].Joined? && chain[i].agent == chain[0].agent && chain[i].at - c.timeout <= chain[i - 1].active
  }

  /** The stored row tells the chain's agent, its length and its latest activity. */
  ghost predicate Mirrors(row: Row, chain: seq<Event>)
  {
    && chain != []
    && row.agent == chain[0].agent
    && row.depth == |chain| - 1
    && row.lastActivity == chain[|chain| - 1].active
  }

  lemma ChainSnoc(events: seq<Event>, e: Event, turn: Id)
    ensures Chain(events + [e], turn) ==
            if e.turn != turn then Chain(events, turn)
            else if e.Opened? then [e] else Chain(events, turn) + [e]
  {
    assert (events + [e])[..|events|] == events;
  }

  ghost predicate TurnInv(c: Config, t: Table, events: seq<Event>, turn: Id)
  {
    var chain := Chain(events, turn);
    Sound(c, chain) && (turn in t ==> Mirrors(t[turn], chain))
  }

  lemma RegisterChains(c: Config, t: Table, events: seq<Event>, call: Call, turn: Id)
    requires TurnInv(c, t, events, turn) && call.Register?
    ensures TurnInv(c, Next(c, t, call), events + EventsOf(c, t, call), turn)
  {
    ChainSnoc(events, EventsOf(c, t, call)[0], turn);
  }

  lemma ValidateChains(c: Config, t: Table, events: seq<Event>, call: Call, turn: Id)
    requires TurnInv(c, t, events, turn) && call.Validate?
    ensures TurnInv(c, Next(c, t, call), events + EventsOf(c, t, call), turn)
  {
    if Chains(c, t, call.m, call.now) {
      ChainSnoc(events, EventsOf(c, t, call)[0], turn);
    } else {
      assert events + [] == events;
    }
  }

  lemma NextChains(c: Config, t: Table, events: seq<Event>, call: Call, turn: Id)
    requires TurnInv(c, t, events, turn)
    ensures TurnInv(c, Next(c, t, call), events + EventsOf(c, t, call), turn)
  {
    if call.Register? {
      RegisterChains(c, t, events, call, turn);
    } else if call.Validate? {
      ValidateChains(c, t, events, call, turn);
    } else {
      assert events + [] == events;
    }
  }

  /** In every run from an empty store: between two registrations a turn admits at most `maxDepth`
      messages, each from the agent that registered it and within the timeout of the activity before
      it; and while the turn is stored, its depth is the number of messages admitted. */
  lemma {:induction false} TurnsAdmitBoundedChains(c: Config, calls: seq<Call>, turn: Id)
    ensures Sound(c, Chain(History(c, calls), turn))
    ensures var t := Run(c, map[], calls);
      turn in t ==> Mirrors(t[turn], Chain(History(c, calls), turn))
  {
    assert TurnInv(c, Run(c, map[], calls), History(c, calls), turn) by {
      RunChains(c, calls, turn);
    }
  }

  lemma {:induction false} RunChains(c: Config, calls: seq<Call>, turn: Id)
    ensures TurnInv(c, Run(c, map[], calls), History(c, calls), turn)
  {
    if calls != [] {
      var front := calls[..|calls| - 1];
      RunChains(c, front, turn);
      NextChains(c, Run(c, map[], front), History(c, front), calls[|calls| - 1], turn);
    }
  }

  // A turn stays open

  /** A turn whose last activity is within the timeout is still stored. */
  ghost predicate Kept(c: Config, t: Table, events: seq<Event>, turn: Id, now: int)
  {
    var chain := Chain(events, turn);
    chain != [] && now <= chain[|chain| - 1].active + c.timeout ==> turn in t
  }

  lemma NextKept(c: Config, t: Table, events: seq<Event>, call: Call, turn: Id, before: int)
    requires TurnInv(c, t, events, turn) && Kept(c, t, events, turn, before)
    requires call.Ordered() && before <= call.First()
    ensures Kept(c, Next(c, t, call), events + EventsOf(c, t, call), turn, call.Last())
  {
    if EventsOf(c, t, call) != [] {
      ChainSnoc(events, EventsOf(c, t, call)[0], turn);
    } else {
      assert events + [] == events;
    }
  }

  lemma {:induction false} RunKept(c: Config, calls: seq<Call>, turn: Id, now: int)
    requires Monotone(calls) && (calls != [] ==> calls[|calls| - 1].Last() <= now)
    ensures Kept(c, Run(c, map[], calls), History(c, calls), turn, now)
  {
    if calls != [] {
      var front, call := calls[..|calls| - 1], calls[|calls| - 1];
      RunKept(c, front, turn, call.First());
      RunChains(c, front, turn);
      NextKept(c, Run(c, map[], front), History(c, front), call, turn, call.First());
    }
  }

  /** In every run: a message is accepted into its turn if and only if the turn was opened, since then fewer
      than `maxDepth` messages have joined it, the latest activity is within the timeout, and the message
      is of the agent that opened it. */
  lemma JoinsIff(c: Config, calls: seq<Call>, m: Message, now: int)
    requires Monotone(calls) && (calls != [] ==> calls[|calls| - 1].Last() <= now)
    requires !NeedsNoTurn(m)
    ensures var chain := Chain(History(c, calls), TurnOf(m));
      JoinsTurn(c, Run(c, map[], calls), m, now) <==>
        && chain != [] && |chain| - 1 < c.maxDepth
        && now <= chain[|chain| - 1].active + c.timeout && chain[0].agent == m.agent
  {
    RunKept(c, calls, TurnOf(m), now);
    RunChains(c, calls, TurnOf(m));
  }

  /** A series of messages of one agent on one turn, each judged within the timeout of the activity before. */
  ghost predicate Timely(c: Config, calls: seq<Call>, turn: Id, agent: string, since: int)
  {
    && (forall i | 0 <= i < |calls| ::
          && calls[i].Validate? && !NeedsNoTurn(calls[i].m)
          && TurnOf(calls[i].m) == turn && calls[i].m.agent == agent)
    && (forall i | 0 <= i < |calls| :: calls[i].now <= ActiveBefore(calls, i, since) + c.timeout)
  }

  function ActiveBefore(calls: seq<Call>, i: nat, since: int): int
    requires i <= |calls| && forall j | 0 <= j < |calls| :: calls[j].Validate?
  {
    if i == 0 then since else calls[i - 1].active
  }

  /** The row of a turn after `n` timely messages, the clock having reached `now`. */
  ghost predicate Filled(c: Config, t: Table, turn: Id, agent: string, n: nat, active: int, now: int)
  {
    if n <= c.maxDepth then
      now <= active + c.timeout ==>
        turn in t && t[turn].agent == agent && t[turn].depth == n && t[turn].lastActivity == active
    else turn in t ==> t[turn].depth >= c.maxDepth
  }

  lemma FillsUp(c: Config, t: Table, call: Call, turn: Id, agent: string, n: nat, active: int, now: int)
    requires Filled(c, t, turn, agent, n, active, call.First())
    requires call.Validate? && call.Ordered() && call.Last() <= now
    requires !NeedsNoTurn(call.m) && TurnOf(call.m) == turn && call.m.agent == agent
    requires call.now <= active + c.timeout
    ensures JoinsTurn(c, t, call.m, call.now) <==> n < c.maxDepth
    ensures Filled(c, Next(c, t, call), turn, agent, n + 1, call.active, now)
  {
  }

  lemma InTime(opening: Call, calls: seq<Call>, n: nat)
    requires Monotone([opening] + calls) && n < |calls|
    ensures calls[n].Ordered() && (if n == 0 then opening else calls[n - 1]).Last() <= calls[n].First()
  {
    var all := [opening] + calls;
    assert all[n + 1] == calls[n] && all[n] == if n == 0 then opening else calls[n - 1];
  }

  /** One more timely message. */
  lemma FillsOne(c: Config, opening: Call, calls: seq<Call>, t: Table, n: nat, now: int)
    requires opening.Register? && n < |calls| && Monotone([opening] + calls) && calls[n].Last() <= now
    requires Timely(c, calls, opening.m.correlationId, opening.m.agent, opening.now)
    requires Filled(c, t, opening.m.correlationId, opening.m.agent, n, ActiveBefore(calls, n, opening.now),
                    calls[n].First())
    ensures Filled(c, Next(c, t, calls[n]), opening.m.correlationId, opening.m.agent, n + 1, calls[n].active, now)
    ensures JoinsTurn(c, t, calls[n].m, calls[n].now) <==> n < c.maxDepth
  {
    InTime(opening, calls, n);
    FillsUp(c, t, calls[n], opening.m.correlationId, opening.m.agent, n, ActiveBefore(calls, n, opening.now), now);
  }

  lemma {:induction false} FillsStepwise(c: Config, opening: Call, calls: seq<Call>, t: Table, n: nat, now: int)
    requires opening.Register? && n <= |calls|
    requires Monotone([opening] + calls) && (n > 0 ==> calls[n - 1].Last() <= now)
    requires Timely(c, calls, opening.m.correlationId, opening.m.agent, opening.now)
    ensures Filled(c, Run(c, Next(c, t, opening), calls[..n]), opening.m.correlationId, opening.m.agent, n,
                   ActiveBefore(calls, n, opening.now), now)
    decreases n
  {
    if n > 0 {
      if n > 1 {
        InTime(opening, calls, n - 1);
      }
      FillsStepwise(c, opening, calls, t, n - 1, calls[n - 1].First());
      FillsOne(c, opening, calls, Run(c, Next(c, t, opening), calls[..n - 1]), n - 1, now);
      RunOneMore(c, Next(c, t, opening), calls, n);
    }
  }

  lemma RunOneMore(c: Config, t: Table, calls: seq<Call>, n: nat)
    requires 0 < n <= |calls|
    ensures Run(c, t, calls[..n]) == Next(c, Run(c, t, calls[..n - 1]), calls[n - 1])
  {
    assert calls[..n][..n - 1] == calls[..n - 1];
  }

  /** After a registration, of any number of timely messages of the registering agent exactly the first
      `maxDepth` join its turn; the others are refused, unless they are user queries. */
  lemma ExactlyMaxDepthJoin(c: Config, opening: Call, calls: seq<Call>, t: Table, n: nat)
    requires opening.Register? && n < |calls| && Monotone([opening] + calls)
    requires Timely(c, calls, opening.m.correlationId, opening.m.agent, opening.now)
    ensures var t', m, now := Run(c, Next(c, t, opening), calls[..n]), calls[n].m, calls[n].now;
      && (JoinsTurn(c, t', m, now) <==> n < c.maxDepth)
      && (n < c.maxDepth ==> Judge(c, t', m, now) == Accepted)
      && (n >= c.maxDepth && m.kind != "user_query" ==> Judge(c, t', m, now) != Accepted)
  {
    InTime(opening, calls, n);
    FillsStepwise(c, opening, calls, t, n, calls[n].First());
    FillsOne(c, opening, calls, Run(c, Next(c, t, opening), calls[..n]), n, calls[n].Last());
  }
}
