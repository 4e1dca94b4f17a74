/** Behavioral counters: events are counted in one-minute buckets, and a signal sums the buckets that
    start within its window.  Times are integers; MINUTE of them make a minute. */
module Behavioral {
  const MINUTE: int := 60_000_000

  /** The start of the minute that contains `t`. */
  function MinuteBucket(t: int): (b: int)
    ensures b <= t < b + MINUTE && b % MINUTE == 0
  {
    t - t % MINUTE
  }

  /** One row of the counters table. */
  datatype Row = Row(agent: string, signal: string, windowStart: int, count: nat)

  predicate IsKey(row: Row, agent: string, signal: string, windowStart: int)
  {
    row.agent == agent && row.signal == signal && row.windowStart == windowStart
  }

  /** Inserts the row with count one, or adds one to the row that is there. */
  function Increment(rows: seq<Row>, agent: string, signal: string, windowStart: int): (r: seq<Row>)
  {
    if rows == [] then [Row(agent, signal, windowStart, 1)]
    else if IsKey(rows[0], agent, signal, windowStart)
    then [rows[0].(count := rows[0].count + 1)] + rows[1..]
    else [rows[0]] + Increment(rows[1..], agent, signal, windowStart)
  }

  function PurgeBefore(rows: seq<Row>, cutoff: int): (r: seq<Row>)
  {
    if rows == [] then []
    else (if rows[0].windowStart < cutoff then [] else [rows[0]]) + PurgeBefore(rows[1..], cutoff)
  }

  function SumSince(rows: seq<Row>, agent: string, signal: string, since: int): nat
  {
    if rows == [] then 0
    else
      (if rows[0].agent == agent && rows[0].signal == signal && rows[0].windowStart >= since
       then rows[0].count else 0) + SumSince(rows[1..], agent, signal, since)
  }

  datatype Config = Config(grantDenialWindow: nat, crossAgentWindow: nat, retention: nat)   // in minutes

  const GRANT_DENIAL := "grant_denial"
  const CROSS_AGENT_MEMORY := "cross_agent_memory"
  const MESSAGE_HOP := "message_hop"

  class Monitor {
    const config: Config
    var rows: seq<Row>

    constructor (config: Config)
      ensures this.config == config && rows == []
    {
      this.config := config;
      rows := [];
    }

    method Startup(now: int)
      modifies this
      ensures rows == PurgeBefore(old(rows), now - config.retention * MINUTE)
      ensures forall row :: row in rows <==> row in old(rows) && row.windowStart >= now - config.retention * MINUTE
    {
      var kept := [];
      for i := 0 to |rows|
        invariant rows == old(rows)
        invariant kept + PurgeBefore(rows[i..], now - config.retention * MINUTE)
               == PurgeBefore(rows, now - config.retention * MINUTE)
      {
        if rows[i].windowStart >= now - config.retention * MINUTE {
          kept := kept + [rows[i]];
        }
      }
      rows := kept;
      PurgeKeeps(old(rows), now - config.retention * MINUTE);
    }

    method Record(agent: string, signal: string, now: int)
      modifies this
      ensures rows == Increment(old(rows), agent, signal, MinuteBucket(now))
    {
      var bucket := MinuteBucket(now);
      var i := 0;
      while i < |rows| && !IsKey(rows[i], agent, signal, bucket)
        invariant 0 <= i <= |rows| && rows == old(rows)
        invariant Increment(rows, agent, signal, bucket) == rows[..i] + Increment(rows[i..], agent, signal, bucket)
      {
        i := i + 1;
      }
      if i < |rows| {
        rows := rows[..i] + [rows[i].(count := rows[i].count + 1)] + rows[i + 1..];
      } else {
        rows := rows + [Row(agent, signal, bucket, 1)];
      }
    }

    /** Every message but a handshake counts as a hop; a memory message aimed at another agent counts
        twice over. */
    method RecordMessageHop(agent: string, kind: HopKind, now: int)
      modifies this
      ensures rows == HopRows(old(rows), agent, kind, now)
      ensures forall a, signal, since ::
                SumSince(rows, a, signal, since) ==
                SumSince(old(rows), a, signal, since) +
                  if a == agent && MinuteBucket(now) >= since && !kind.HandshakeHop? &&
                     (signal == MESSAGE_HOP
                      || (signal == CROSS_AGENT_MEMORY && kind.MemoryHop? && kind.target != "" && kind.target != agent))
                  then 1 else 0
    {
      HopSums(rows, agent, kind, now);
      if kind.HandshakeHop? {
        return;
      }
      Record(agent, MESSAGE_HOP, now);
      if kind.MemoryHop? {
        var target := if kind.target != "" then kind.target else agent;
        if target != agent {
          Record(agent, CROSS_AGENT_MEMORY, now);
        }
      }
    }

    /** The two counting signals of an agent.  For counters that come from a history of events, each lies
        between the exact numbers of events in its window less a minute and in its whole window. */
    method SignalsFor(agent: string, now: int) returns (denials: nat, crossAgent: nat)
      ensures denials == SumSince(rows, agent, GRANT_DENIAL, now - config.grantDenialWindow * MINUTE)
      ensures crossAgent == SumSince(rows, agent, CROSS_AGENT_MEMORY, now - config.crossAgentWindow * MINUTE)
      ensures forall events | rows == Replay(events, config.retention) && Chronological(events, now) ::
                && Between(events, agent, GRANT_DENIAL, config.grantDenialWindow, config.retention, now, denials)
                && Between(events, agent, CROSS_AGENT_MEMORY, config.crossAgentWindow, config.retention, now,
                           crossAgent)
    {
      denials := SumSince(rows, agent, GRANT_DENIAL, now - config.grantDenialWindow * MINUTE);
      crossAgent := SumSince(rows, agent, CROSS_AGENT_MEMORY, now - config.crossAgentWindow * MINUTE);
      forall events | rows == Replay(events, config.retention) && Chronological(events, now)
        ensures Between(events, agent, GRANT_DENIAL, config.grantDenialWindow, config.retention, now, denials)
        ensures Between(events, agent, CROSS_AGENT_MEMORY, config.crossAgentWindow, config.retention, now, crossAgent)
      {
        if config.grantDenialWindow <= config.retention {
          SignalBetweenWindows(events, config.retention, config.grantDenialWindow, now, agent, GRANT_DENIAL);
        }
        if config.crossAgentWindow <= config.retention {
          SignalBetweenWindows(events, config.retention, config.crossAgentWindow, now, agent, CROSS_AGENT_MEMORY);
        }
      }
    }
  }

  /** What the monitor distinguishes in a message; an empty target stands for none. */
  datatype HopKind = HandshakeHop | MemoryHop(target: string) | OtherHop

  function HopRows(rows: seq<Row>, agent: string, kind: HopKind, now: int): seq<Row>
  {
    if kind.HandshakeHop? then rows
    else
      var hopped := Increment(rows, agent, MESSAGE_HOP, MinuteBucket(now));
      if kind.MemoryHop? && kind.target != "" && kind.target != agent
      then Increment(hopped, agent, CROSS_AGENT_MEMORY, MinuteBucket(now))
      else hopped
  }

  lemma {:induction false} PurgeKeeps(rows: seq<Row>, cutoff: int)
    ensures forall row :: row in PurgeBefore(rows, cutoff) <==> row in rows && row.windowStart >= cutoff
  {
    if rows != [] {
      PurgeKeeps(rows[1..], cutoff);
      assert rows == [rows[0]] + rows[1..];
    }
  }

  /** What a hop adds to each sum. */
  lemma HopSums(rows: seq<Row>, agent: string, kind: HopKind, now: int)
    ensures forall a, signal, since ::
              SumSince(HopRows(rows, agent, kind, now), a, signal, since) ==
              SumSince(rows, a, signal, since) +
                if a == agent && MinuteBucket(now) >= since && !kind.HandshakeHop? &&
                   (signal == MESSAGE_HOP
                    || (signal == CROSS_AGENT_MEMORY && kind.MemoryHop? && kind.target != "" && kind.target != agent))
                then 1 else 0
  {
    var bucket := MinuteBucket(now);
    var hopped := Increment(rows, agent, MESSAGE_HOP, bucket);
    forall a, signal, since
      ensures SumSince(hopped, a, signal, since) ==
              SumSince(rows, a, signal, since) + if a == agent && signal == MESSAGE_HOP && bucket >= since then 1 else 0
      ensures SumSince(Increment(hopped, agent, CROSS_AGENT_MEMORY, bucket), a, signal, since) ==
              SumSince(hopped, a, signal, since)
                + if a == agent && signal == CROSS_AGENT_MEMORY && bucket >= since then 1 else 0
    {
      SumIncrement(rows, agent, MESSAGE_HOP, bucket, a, signal, since);
      SumIncrement(hopped, agent, CROSS_AGENT_MEMORY, bucket, a, signal, since);
    }
    assert MESSAGE_HOP[0] != CROSS_AGENT_MEMORY[0];
  }

  /** If counters are kept as long as the window, the count is bounded by the exact numbers. */
  predicate Between(
    events: seq<Event>, agent: string, signal: string, window: nat, retention: nat, now: int, count: nat)
  {
    window <= retention ==>
      var since := now - window * MINUTE;
      ExactSince(events, agent, signal, since + MINUTE) <= count <= ExactSince(events, agent, signal, since)
  }

  // Histories

  datatype Event = Recorded(agent: string, signal: string, at: int) | Purged(at: int)

  function Apply(rows: seq<Row>, e: Event, retention: nat): seq<Row>
  {
    match e
    case Recorded(agent, signal, at) => Increment(rows, agent, signal, MinuteBucket(at))
    case Purged(at) => PurgeBefore(rows, at - retention * MINUTE)
  }

  function Replay(events: seq<Event>, retention: nat): seq<Row>
  {
    if events == [] then [] else Apply(Replay(events[..|events| - 1], retention), events[|events| - 1], retention)
  }

  /** The exact number of events of a kind at or after `from`, from a log that forgets nothing. */
  function ExactSince(events: seq<Event>, agent: string, signal: string, from: int): nat
  {
    if events == [] then 0
    else
      var last := events[|events| - 1];
      ExactSince(events[..|events| - 1], agent, signal, from) +
        if last.Recorded? && last.agent == agent && last.signal == signal && last.at >= from then 1 else 0
  }

  /** The first minute boundary at or after `t`. */
  function NextBoundary(t: int): int
  {
    if t % MINUTE == 0 then t else MinuteBucket(t) + MINUTE
  }

  /** Between two multiples of a minute there is at least a minute. */
  lemma MultiplesApart(b: int, q: int)
    requires b % MINUTE == 0 && q % MINUTE == 0
    ensures b >= q <==> b > q - MINUTE
  {
    assert b == (b / 60_000_000) * 60_000_000;
    assert q == (q / 60_000_000) * 60_000_000;
  }

  lemma BoundaryFollows(t: int)
    ensures NextBoundary(t) % MINUTE == 0 && t <= NextBoundary(t) < t + MINUTE
  {
    var b := MinuteBucket(t);
    assert (b + 60_000_000) % 60_000_000 == b % 60_000_000;
  }

  lemma BucketReaches(t: int, since: int)
    ensures MinuteBucket(t) >= since <==> t >= NextBoundary(since)
  {
    BoundaryFollows(since);
    MultiplesApart(MinuteBucket(t), NextBoundary(since));
  }

  lemma {:induction false} SumIncrement(
      rows: seq<Row>, agent: string, signal: string, bucket: int, a: string, s: string, since: int)
    ensures SumSince(Increment(rows, agent, signal, bucket), a, s, since) ==
            SumSince(rows, a, s, since) + if a == agent && s == signal && bucket >= since then 1 else 0
  {
    if rows != [] && !IsKey(rows[0], agent, signal, bucket) {
      SumIncrement(rows[1..], agent, signal, bucket, a, s, since);
    }
  }

  lemma {:induction false} SumPurge(rows: seq<Row>, cutoff: int, a: string, s: string, since: int)
    requires cutoff <= since
    ensures SumSince(PurgeBefore(rows, cutoff), a, s, since) == SumSince(rows, a, s, since)
  {
    if rows != [] {
      SumPurge(rows[1..], cutoff, a, s, since);
      assert [] + PurgeBefore(rows[1..], cutoff) == PurgeBefore(rows[1..], cutoff);
    }
  }

  /** The clock readings do not decrease and none is later than `now`. */
  predicate Chronological(events: seq<Event>, now: int)
  {
    && (forall i, j | 0 <= i < j < |events| :: events[i].at <= events[j].at)
    && (forall i | 0 <= i < |events| :: events[i].at <= now)
  }

  /** A bucketed sum is the exact number of events since the first minute boundary in its window. */
  lemma {:induction false} SumIsExactFromBoundary(
      events: seq<Event>, retention: nat, now: int, agent: string, signal: string, since: int)
    requires Chronological(events, now) && since >= now - retention * MINUTE
    ensures SumSince(Replay(events, retention), agent, signal, since) ==
            ExactSince(events, agent, signal, NextBoundary(since))
  {
    if events != [] {
      var front, last := events[..|events| - 1], events[|events| - 1];
      SumIsExactFromBoundary(front, retention, now, agent, signal, since);
      var rows := Replay(front, retention);
      match last
      case Recorded(a, s, at) =>
        SumIncrement(rows, a, s, MinuteBucket(at), agent, signal, since);
        BucketReaches(at, since);
      case Purged(at) =>
        SumPurge(rows, at - retention * MINUTE, agent, signal, since);
    }
  }

  lemma {:induction false} ExactMonotone(events: seq<Event>, agent: string, signal: string, from: int, later: int)
    requires from <= later
    ensures ExactSince(events, agent, signal, later) <= ExactSince(events, agent, signal, from)
  {
    if events != [] {
      ExactMonotone(events[..|events| - 1], agent, signal, from, later);
    }
  }

  /** Whatever was recorded and purged, a signal over a window of W minutes counts no event outside
      the window and misses none of the last W - 1 minutes, if rows are kept for at least W minutes. */
  lemma SignalBetweenWindows(
      events: seq<Event>, retention: nat, window: nat, now: int, agent: string, signal: string)
    requires Chronological(events, now) && window <= retention
    ensures var since := now - window * MINUTE;
      ExactSince(events, agent, signal, since + MINUTE)
        <= SumSince(Replay(events, retention), agent, signal, since)
        <= ExactSince(events, agent, signal, since)
  {
    var since := now - window * MINUTE;
    SumIsExactFromBoundary(events, retention, now, agent, signal, since);
    ExactMonotone(events, agent, signal, since, NextBoundary(since));
    ExactMonotone(events, agent, signal, NextBoundary(since), since + MINUTE);
  }
}
