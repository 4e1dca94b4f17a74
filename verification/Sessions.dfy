/** Session tokens.  Sessions are never removed, and a token is the position of its session. */
module Sessions {
  import opened Common

  type Token = nat

  datatype Session = Session(agent: string, machine: string, expiresAt: int)

  /** The session of a token, unless the token is unknown or the session has expired. */
  function ValidToken(sessions: seq<Session>, token: Option<Token>, now: int): (r: Option<Session>)
    ensures r.Some? ==> r.value in sessions && now < r.value.expiresAt
  {
    if token.Some? && token.value < |sessions| && now < sessions[token.value].expiresAt
    then Some(sessions[token.value]) else None
  }

  function ConnectionToken(connections: map<int, Token>, connection: int): Option<Token>
  {
    if connection in connections then Some(connections[connection]) else None
  }

  class SessionManager {
    const ttl: int
    var sessions: seq<Session>
    var connections: map<int, Token>

    constructor (ttl: int)
      ensures this.ttl == ttl && sessions == [] && connections == map[]
    {
      this.ttl, sessions, connections := ttl, [], map[];
    }

    method CreateSession(agent: string, machine: string, now: int) returns (token: Token, expiresAt: int)
      modifies this`sessions
      ensures sessions == old(sessions) + [Session(agent, machine, now + ttl)]
      ensures token == |old(sessions)| && expiresAt == now + ttl
    {
      token, expiresAt := |sessions|, now + ttl;
      sessions := sessions + [Session(agent, machine, expiresAt)];
    }

    method BindConnection(connection: int, token: Token)
      modifies this`connections
      ensures forall other :: ConnectionToken(connections, other) ==
                if other == connection then Some(token) else ConnectionToken(old(connections), other)
      ensures connections == old(connections)[connection := token]
    {
      connections := connections[connection := token];
    }

    method UnbindConnection(connection: int)
      modifies this`connections
      ensures connections == old(connections) - {connection}
      ensures ConnectionToken(connections, connection).None?
    {
      connections := connections - {connection};
    }

    method ValidateToken(token: Option<Token>, now: int) returns (session: Option<Session>)
      ensures session == ValidToken(sessions, token, now)
    {
      if token.None? {
        return None;
      }
      if token.value >= |sessions| {
        return None;
      }
      var found := sessions[token.value];
      if now >= found.expiresAt {
        return None;
      }
      return Some(found);
    }

    method ValidateConnection(connection: int, now: int) returns (session: Option<Session>)
      ensures session == ValidToken(sessions, ConnectionToken(connections, connection), now)
    {
      var token := ConnectionToken(connections, connection);
      session := ValidateToken(token, now);
    }
  }
}
