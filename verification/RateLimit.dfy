/** The management API's sliding-window limiter, proved against a reference that forgets nothing. */
module SlidingWindow {
  /** The deque after its expired head has been popped. */
  function Prune(w: seq<real>, cutoff: real): (p: seq<real>)
  {
    if w != [] && w[0] < cutoff then Prune(w[1..], cutoff) else w
  }

  class Limiter {
    const limit: int
    const window: real
    var hits: map<string, seq<real>>

    constructor (limit: int, window: real)
      ensures this.limit == limit && this.window == window && hits == map[]
    {
      this.limit := limit;
      this.window := window;
      hits := map[];
    }

    method Allow(key: string, now: real) returns (ok: bool)
      modifies this
      ensures ok == Answer(limit, window, old(hits), key, now)
      ensures hits == Hit(limit, window, old(hits), key, now)
    {
      if limit <= 0 {
        return true;
      }
      var w := if key in hits then hits[key] else [];
      ghost var whole := w;
      var cutoff := now - window;
      while w != [] && w[0] < cutoff
        invariant Prune(w, cutoff) == Prune(whole, cutoff)
        decreases |w|
      {
        w := w[1..];
      }
      if |w| >= limit {
        hits := hits[key := w];
        return false;
      }
      hits := hits[key := w + [now]];
      ok := true;
    }

    method RetryAfterSeconds(key: string, now: real) returns (seconds: int)
      ensures seconds == RetryAfter(limit, window, hits, key, now)
    {
      if limit <= 0 || key !in hits || hits[key] == [] {
        return 0;
      }
      var remaining := window - (now - hits[key][0]);
      var whole := Truncate(remaining + 0.999);
      seconds := if whole < 1 then 1 else whole;
    }
  }

  function WindowOf(hits: map<string, seq<real>>, key: string): seq<real>
  {
    if key in hits then hits[key] else []
  }

  function Answer(limit: int, window: real, hits: map<string, seq<real>>, key: string, now: real): bool
  {
    limit <= 0 || |Prune(WindowOf(hits, key), now - window)| < limit
  }

  function Hit(limit: int, window: real, hits: map<string, seq<real>>, key: string, now: real): map<string, seq<real>>
  {
    if limit <= 0 then hits
    else
      var w := Prune(WindowOf(hits, key), now - window);
      hits[key := if |w| < limit then w + [now] else w]
  }

  /** Python's `int` on a float. */
  function Truncate(x: real): int
  {
    if x >= 0.0 then x.Floor else -(-x).Floor
  }

  function RetryAfter(limit: int, window: real, hits: map<string, seq<real>>, key: string, now: real): int
  {
    if limit <= 0 || WindowOf(hits, key) == [] then 0
    else
      var whole := Truncate(window - (now - WindowOf(hits, key)[0]) + 0.999);
      if whole < 1 then 1 else whole
  }

  // Runs against the reference

  datatype Call = Call(key: string, now: real)

  predicate Monotone(calls: seq<Call>)
  {
    forall i, j | 0 <= i < j < |calls| :: calls[i].now <= calls[j].now
  }

  function Run(limit: int, window: real, calls: seq<Call>): map<string, seq<real>>
  {
    if calls == [] then map[]
    else
      var last := calls[|calls| - 1];
      Hit(limit, window, Run(limit, window, calls[..|calls| - 1]), last.key, last.now)
  }

  /** How many of the times are at or after `from`. */
  function CountFrom(times: seq<real>, from: real): nat
  {
    if times == [] then 0
    else CountFrom(times[..|times| - 1], from) + if times[|times| - 1] >= from then 1 else 0
  }

  function CountWithin(times: seq<real>, from: real, to: real): nat
  {
    if times == [] then 0
    else CountWithin(times[..|times| - 1], from, to) + if from <= times[|times| - 1] <= to then 1 else 0
  }

  /** The reference: it keeps every accepted time of every key and counts those in the window. */
  predicate RefAnswer(limit: int, window: real, accepted: seq<real>, now: real)
  {
    limit <= 0 || CountFrom(accepted, now - window) < limit
  }

  function Accepted(limit: int, window: real, calls: seq<Call>, key: string): seq<real>
  {
    if calls == [] then []
    else
      var last, before := calls[|calls| - 1], Accepted(limit, window, calls[..|calls| - 1], key);
      if last.key == key && RefAnswer(limit, window, before, last.now) then before + [last.now] else before
  }

  lemma {:induction false} PruneSnoc(w: seq<real>, x: real, cutoff: real)
    ensures Prune(w + [x], cutoff) ==
            if Prune(w, cutoff) != [] then Prune(w, cutoff) + [x] else Prune([x], cutoff)
  {
    if w == [] {
      assert w + [x] == [x];
    } else if w[0] < cutoff {
      assert (w + [x])[1..] == w[1..] + [x];
      PruneSnoc(w[1..], x, cutoff);
    }
  }

  lemma {:induction false} PruneTwice(w: seq<real>, first: real, second: real)
    requires first <= second
    ensures Prune(Prune(w, first), second) == Prune(w, second)
  {
    if w != [] && w[0] < first {
      PruneTwice(w[1..], first, second);
    }
  }

  predicate Ascending(times: seq<real>)
  {
    forall i, j | 0 <= i < j < |times| :: times[i] <= times[j]
  }

  lemma {:induction false} PruneCounts(times: seq<real>, cutoff: real)
    requires Ascending(times)
    ensures |Prune(times, cutoff)| == CountFrom(times, cutoff)
  {
    if times != [] {
      var front, last := times[..|times| - 1], times[|times| - 1];
      assert times == front + [last];
      PruneCounts(front, cutoff);
      PruneSnoc(front, last, cutoff);
      PruneInside(front, cutoff);
      var p := Prune(front, cutoff);
      if p != [] {
        assert p[0] in p;
        var i :| 0 <= i < |front| && front[i] == p[0];
        assert times[i] <= last;
      }
    }
  }

  lemma {:induction false} PruneInside(w: seq<real>, cutoff: real)
    ensures forall x | x in Prune(w, cutoff) :: x in w
    ensures Prune(w, cutoff) != [] ==> Prune(w, cutoff)[0] >= cutoff
  {
    if w != [] && w[0] < cutoff {
      PruneInside(w[1..], cutoff);
    }
  }

  /** From the latest cutoff on, the pruned deque and the full record prune to the same times. */
  ghost predicate Agree(hits: map<string, seq<real>>, key: string, accepted: seq<real>, cutoff: real)
  {
    forall c | c >= cutoff :: Prune(WindowOf(hits, key), c) == Prune(accepted, c)
  }

  /** A call on the key keeps the agreement and is answered as the reference answers it. */
  lemma HitAgrees(limit: int, window: real, hits: map<string, seq<real>>, accepted: seq<real>, key: string, now: real)
    requires limit > 0 && Ascending(accepted) && Agree(hits, key, accepted, now - window)
    ensures Answer(limit, window, hits, key, now) == RefAnswer(limit, window, accepted, now)
    ensures var accepted' := if RefAnswer(limit, window, accepted, now) then accepted + [now] else accepted;
      Agree(Hit(limit, window, hits, key, now), key, accepted', now - window)
  {
    var cutoff := now - window;
    var whole := WindowOf(hits, key);
    var w := Prune(whole, cutoff);
    assert w == Prune(accepted, cutoff);
    PruneCounts(accepted, cutoff);
    forall c | c >= cutoff
      ensures Prune(w, c) == Prune(accepted, c)
      ensures Prune(w + [now], c) == Prune(accepted + [now], c)
    {
      PruneTwice(whole, cutoff, c);
      PruneSnoc(w, now, c);
      PruneSnoc(accepted, now, c);
    }
  }

  ghost predicate RunInv(limit: int, window: real, calls: seq<Call>, key: string)
  {
    var accepted := Accepted(limit, window, calls, key);
    && Ascending(accepted)
    && (forall t | t in accepted :: calls != [] && t <= calls[|calls| - 1].now)
    && (calls != [] ==> Agree(Run(limit, window, calls), key, accepted, calls[|calls| - 1].now - window))
  }

  lemma {:induction false} RunAgrees(limit: int, window: real, calls: seq<Call>, key: string)
    requires limit > 0 && Monotone(calls)
    ensures RunInv(limit, window, calls, key)
  {
    if calls != [] {
      var front, last := calls[..|calls| - 1], calls[|calls| - 1];
      RunAgrees(limit, window, front, key);
      assert front != [] ==> front[|front| - 1].now <= last.now;
      NextAgrees(limit, window, front, last, key);
      assert front + [last] == calls;
    }
  }

  lemma NextAgrees(limit: int, window: real, calls: seq<Call>, next: Call, key: string)
    requires limit > 0 && RunInv(limit, window, calls, key)
    requires calls != [] ==> calls[|calls| - 1].now <= next.now
    ensures RunInv(limit, window, calls + [next], key)
    ensures Answer(limit, window, Run(limit, window, calls), key, next.now)
         == RefAnswer(limit, window, Accepted(limit, window, calls, key), next.now)
  {
    assert (calls + [next])[..|calls|] == calls;
    var hits, accepted := Run(limit, window, calls), Accepted(limit, window, calls, key);
    AgreesLater(limit, window, calls, next, key);
    HitAgrees(limit, window, hits, accepted, key, next.now);
    AscendingSnoc(accepted, next.now);
  }

  lemma AgreesLater(limit: int, window: real, calls: seq<Call>, next: Call, key: string)
    requires RunInv(limit, window, calls, key)
    requires calls != [] ==> calls[|calls| - 1].now <= next.now
    ensures Agree(Run(limit, window, calls), key, Accepted(limit, window, calls, key), next.now - window)
    ensures forall t | t in Accepted(limit, window, calls, key) :: t <= next.now
  {
    assert calls == [] ==> WindowOf(Run(limit, window, calls), key) == Accepted(limit, window, calls, key) == [];
  }

  lemma AscendingSnoc(times: seq<real>, now: real)
    requires Ascending(times) && forall t | t in times :: t <= now
    ensures Ascending(times + [now])
  {
    assert forall i | 0 <= i < |times| :: (times + [now])[i] in times;
  }

  /** Every call of every run is answered exactly as the reference answers it. */
  lemma AnswersAsReference(limit: int, window: real, calls: seq<Call>, next: Call)
    requires Monotone(calls + [next])
    ensures Answer(limit, window, Run(limit, window, calls), next.key, next.now)
         == RefAnswer(limit, window, Accepted(limit, window, calls, next.key), next.now)
  {
    if limit > 0 {
      assert forall i | 0 <= i < |calls| :: (calls + [next])[i] == calls[i];
      assert (calls + [next])[|calls|] == next;
      RunAgrees(limit, window, calls, next.key);
      NextAgrees(limit, window, calls, next, next.key);
    }
  }

  lemma {:induction false} CountMonotone(times: seq<real>, from: real, a: real, to: real)
    requires from <= a
    ensures CountWithin(times, a, to) <= CountFrom(times, from)
  {
    if times != [] {
      CountMonotone(times[..|times| - 1], from, a, to);
    }
  }

  /** The calls on a key that the limiter itself let through, at their times. */
  function Granted(limit: int, window: real, calls: seq<Call>, key: string): seq<real>
  {
    if calls == [] then []
    else
      var before, last := calls[..|calls| - 1], calls[|calls| - 1];
      Granted(limit, window, before, key)
        + if last.key == key && Answer(limit, window, Run(limit, window, before), key, last.now) then [last.now] else []
  }

  lemma {:induction false} GrantedIsAccepted(limit: int, window: real, calls: seq<Call>, key: string)
    requires Monotone(calls)
    ensures Granted(limit, window, calls, key) == Accepted(limit, window, calls, key)
  {
    if calls != [] {
      var before, last := calls[..|calls| - 1], calls[|calls| - 1];
      GrantedIsAccepted(limit, window, before, key);
      if last.key == key {
        assert before + [last] == calls;
        AnswersAsReference(limit, window, before, last);
      }
    }
  }

  /** No closed window of the configured length ever holds more than `limit` calls on a key that the
      limiter let through. */
  lemma WindowNeverExceedsLimit(limit: int, window: real, calls: seq<Call>, key: string, a: real)
    requires limit > 0 && Monotone(calls)
    ensures CountWithin(Granted(limit, window, calls, key), a, a + window) <= limit
  {
    GrantedIsAccepted(limit, window, calls, key);
    ReferenceBounded(limit, window, calls, key, a);
  }

  lemma {:induction false} ReferenceBounded(limit: int, window: real, calls: seq<Call>, key: string, a: real)
    requires limit > 0
    ensures CountWithin(Accepted(limit, window, calls, key), a, a + window) <= limit
  {
    if calls != [] {
      var front, last := calls[..|calls| - 1], calls[|calls| - 1];
      ReferenceBounded(limit, window, front, key, a);
      var before := Accepted(limit, window, front, key);
      if Accepted(limit, window, calls, key) != before {
        assert (before + [last.now])[..|before|] == before;
        if a <= last.now <= a + window {
          CountMonotone(before, last.now - window, a, a + window);
        }
      }
    }
  }

  lemma {:induction false} DequeBounded(limit: int, window: real, calls: seq<Call>, key: string)
    requires limit > 0
    ensures |WindowOf(Run(limit, window, calls), key)| <= limit
  {
    if calls != [] {
      var front := calls[..|calls| - 1];
      DequeBounded(limit, window, front, key);
      PruneShorter(WindowOf(Run(limit, window, front), key), calls[|calls| - 1].now - window);
    }
  }

  lemma {:induction false} PruneShorter(w: seq<real>, cutoff: real)
    ensures |Prune(w, cutoff)| <= |w| && (w != [] && w[0] < cutoff ==> |Prune(w, cutoff)| < |w|)
  {
    if w != [] && w[0] < cutoff {
      PruneShorter(w[1..], cutoff);
    }
  }

  /** After a refusal, a client that waits exactly the advertised number of seconds is let through if
      and only if the time its oldest hit still had to run was under a second or was not within the
      millisecond above a whole number of seconds. */
  lemma RetryAfterSufficesIff(limit: int, window: real, calls: seq<Call>, key: string, now: real)
    requires limit > 0 && window >= 0.0
    requires Monotone(calls + [Call(key, now)])
    requires !Answer(limit, window, Run(limit, window, calls), key, now)
    ensures var hits := Hit(limit, window, Run(limit, window, calls), key, now);
      var wait := RetryAfter(limit, window, hits, key, now);
      && WindowOf(hits, key) != []
      && var remaining := window - (now - WindowOf(hits, key)[0]);
         Answer(limit, window, hits, key, now + wait as real) <==>
           (remaining < 1.0 || remaining - remaining.Floor as real >= 0.001)
  {
    var before := WindowOf(Run(limit, window, calls), key);
    var w := Prune(before, now - window);
    PruneInside(before, now - window);
    DequeBounded(limit, window, calls, key);
    PruneShorter(before, now - window);
    var remaining := window - (now - w[0]);
    assert remaining >= 0.0;
    var wait := RetryAfter(limit, window, Hit(limit, window, Run(limit, window, calls), key, now), key, now);
    FloorShift(remaining);
    PruneShorter(w, now + wait as real - window);
  }

  /** With one hit allowed a minute and made at time 0, a client refused at second 58 is told to wait two
      seconds, and is refused again after them. */
  lemma RetryAfterCanFail(key: string)
    ensures var calls := [Call(key, 0.0)];
      && !Answer(1, 60.0, Run(1, 60.0, calls), key, 58.0)
      && var hits := Hit(1, 60.0, Run(1, 60.0, calls), key, 58.0);
         RetryAfter(1, 60.0, hits, key, 58.0) == 2 && !Answer(1, 60.0, hits, key, 60.0)
  {
    var calls := [Call(key, 0.0)];
    assert calls[..|calls| - 1] == [];
    assert WindowOf(Run(1, 60.0, calls), key) == [0.0];
    var remaining: real := 2.0;
    assert (remaining + 0.999).Floor == 2;
  }

  /** Rounding up by 0.999 passes `x` unless `x` is within a millisecond above a whole number. */
  lemma FloorShift(x: real)
    requires x >= 0.0
    ensures (x + 0.999).Floor == x.Floor + if x - x.Floor as real >= 0.001 then 1 else 0
  {
  }
}

/** The node's per-engine token bucket. */
module TokenBucket {

  datatype Bucket = Bucket(tokens: real, lastRefill: real)

  datatype Config = Config(rate: real, burst: int) {
    predicate Valid() { rate >= 0.0 && burst >= 0 }
  }

  /** What the rate adds between two instants. */
  function Gain(c: Config, from: real, to: real): real
  {
    (to - from) * c.rate
  }

  lemma GainNonNegative(c: Config, from: real, to: real)
    requires c.Valid() && from <= to
    ensures Gain(c, from, to) >= 0.0
  {
  }

  lemma GainAdds(c: Config, t0: real, t1: real, t2: real)
    ensures Gain(c, t0, t1) + Gain(c, t1, t2) == Gain(c, t0, t2)
  {
    assert (t1 - t0) + (t2 - t1) == t2 - t0;
  }

  function Refilled(c: Config, b: Bucket, now: real): real
  {
    var raised := b.tokens + Gain(c, b.lastRefill, now);
    if raised < c.burst as real then raised else c.burst as real
  }

  predicate Grants(c: Config, b: Bucket, now: real)
  {
    Refilled(c, b, now) >= 1.0
  }

  function Consumed(c: Config, b: Bucket, now: real): Bucket
  {
    Bucket(Refilled(c, b, now) - (if Grants(c, b, now) then 1.0 else 0.0), now)
  }

  class Limiter {
    const config: Config
    var tokens: real
    var lastRefill: real

    constructor (config: Config, now: real)
      ensures this.config == config && tokens == config.burst as real && lastRefill == now
    {
      this.config := config;
      tokens := config.burst as real;
      lastRefill := now;
    }

    method Consume(now: real) returns (ok: bool)
      modifies this
      ensures ok == Grants(config, old(Bucket(tokens, lastRefill)), now)
      ensures Bucket(tokens, lastRefill) == Consumed(config, old(Bucket(tokens, lastRefill)), now)
    {
      var elapsed := now - lastRefill;
      lastRefill := now;
      assert elapsed * config.rate == Gain(config, old(lastRefill), now);
      tokens := tokens + elapsed * config.rate;
      if tokens > config.burst as real {
        tokens := config.burst as real;
      }
      if tokens >= 1.0 {
        tokens := tokens - 1.0;
        return true;
      }
      ok := false;
    }
  }

  // Runs

  predicate Ascending(times: seq<real>)
  {
    forall i, j | 0 <= i < j < |times| :: times[i] <= times[j]
  }

  function Run(c: Config, b: Bucket, times: seq<real>): Bucket
    decreases |times|
  {
    if times == [] then b else Run(c, Consumed(c, b, times[0]), times[1..])
  }

  function GrantCount(c: Config, b: Bucket, times: seq<real>): nat
    decreases |times|
  {
    if times == [] then 0
    else (if Grants(c, b, times[0]) then 1 else 0) + GrantCount(c, Consumed(c, b, times[0]), times[1..])
  }

  /** A refill never empties the bucket. */
  lemma RefillBounded(c: Config, b: Bucket, now: real)
    requires c.Valid() && 0.0 <= b.tokens && b.lastRefill <= now
    ensures 0.0 <= Refilled(c, b, now) <= c.burst as real
  {
    GainNonNegative(c, b.lastRefill, now);
    assert c.burst as real >= 0.0;
  }

  /** The level stays between empty and full. */
  lemma {:induction false} LevelBounded(c: Config, b: Bucket, times: seq<real>)
    requires c.Valid() && Ascending([b.lastRefill] + times)
    requires 0.0 <= b.tokens <= c.burst as real
    ensures 0.0 <= Run(c, b, times).tokens <= c.burst as real
    ensures times != [] ==> Run(c, b, times).lastRefill == times[|times| - 1]
    decreases |times|
  {
    if times != [] {
      assert ([b.lastRefill] + times)[0] == b.lastRefill && ([b.lastRefill] + times)[1] == times[0];
      RefillBounded(c, b, times[0]);
      assert [times[0]] + times[1..] == ([b.lastRefill] + times)[1..];
      LevelBounded(c, Consumed(c, b, times[0]), times[1..]);
    }
  }

  /** Over a span, grants are covered by the refilled level at its start and what the rate adds. */
  lemma {:induction false} GrantsCovered(c: Config, b: Bucket, times: seq<real>)
    requires c.Valid() && times != [] && Ascending(times) && Refilled(c, b, times[0]) >= 0.0
    ensures GrantCount(c, b, times) as real <=
            Refilled(c, b, times[0]) + Gain(c, times[0], times[|times| - 1])
    decreases |times|
  {
    var b' := Consumed(c, b, times[0]);
    var t0, tn, rest := times[0], times[|times| - 1], times[1..];
    if rest == [] {
      assert GrantCount(c, b', rest) == 0;
      GainNonNegative(c, t0, tn);
    } else {
      var t1 := rest[0];
      assert times[1] == t1 && rest[|rest| - 1] == tn;
      RefillBounded(c, b', t1);
      GrantsCovered(c, b', rest);
      assert Refilled(c, b', t1) <= b'.tokens + Gain(c, t0, t1);
      GainAdds(c, t0, t1, tn);
    }
  }

  /** In any run, the calls of any span of T seconds are granted at most burst + rate * T times. */
  lemma GrantsBounded(c: Config, start: real, before: seq<real>, span: seq<real>)
    requires c.Valid() && span != [] && Ascending([start] + before) && Ascending(span)
    requires forall t | t in [start] + before :: t <= span[0]
    ensures var b := Run(c, Bucket(c.burst as real, start), before);
      GrantCount(c, b, span) as real <= c.burst as real + Gain(c, span[0], span[|span| - 1])
  {
    var b := Run(c, Bucket(c.burst as real, start), before);
    LevelBounded(c, Bucket(c.burst as real, start), before);
    var past := [start] + before;
    assert b.lastRefill == past[|before|] && past[|before|] in past;
    RefillBounded(c, b, span[0]);
    GrantsCovered(c, b, span);
  }

  /** A sender that keeps to the rate is never refused. */
  lemma {:induction false} PacedNeverRefused(c: Config, b: Bucket, times: seq<real>)
    requires c.Valid() && c.burst >= 1
    requires times != [] ==> Grants(c, b, times[0])
    requires forall i, j | 0 <= i < j < |times| :: Gain(c, times[i], times[j]) >= 1.0
    ensures GrantCount(c, b, times) == |times|
    decreases |times|
  {
    if times != [] {
      var b', rest := Consumed(c, b, times[0]), times[1..];
      if rest != [] {
        assert Gain(c, times[0], times[1]) >= 1.0;
        assert c.burst as real >= 1.0;
      }
      PacedNeverRefused(c, b', rest);
    }
  }

  // When a call is refused

  /** The instant of call number `i`, or the present after the last one. */
  function InstantOf(times: seq<real>, i: nat, now: real): real
  {
    if i < |times| then times[i] else now
  }

  /** The grants from call `i` on have used up a full bucket and what the rate has added since. */
  predicate Spent(c: Config, b: Bucket, times: seq<real>, i: nat, now: real)
  {
    && i <= |times|
    && GrantCount(c, Run(c, b, times[..i]), times[i..]) as real + 1.0
       > c.burst as real + Gain(c, InstantOf(times, i, now), now)
  }

  lemma {:induction false} RunFrom(c: Config, b: Bucket, times: seq<real>, i: nat)
    requires 0 < i <= |times|
    ensures Run(c, b, times[..i]) == Run(c, Consumed(c, b, times[0]), times[1..][..i - 1])
  {
    assert times[..i][1..] == times[1..][..i - 1];
  }

  /** The level is at most what was there, or a full bucket at any call, with what came and went since. */
  lemma {:induction false} LevelAtMost(c: Config, b: Bucket, times: seq<real>, now: real)
    ensures Refilled(c, Run(c, b, times), now) <=
            b.tokens + Gain(c, b.lastRefill, now) - GrantCount(c, b, times) as real
    ensures Refilled(c, Run(c, b, times), now) <=
            c.burst as real + Gain(c, InstantOf(times, 0, now), now) - GrantCount(c, b, times) as real
    decreases |times|
  {
    if times != [] {
      LevelAtMost(c, Consumed(c, b, times[0]), times[1..], now);
      GainAdds(c, b.lastRefill, times[0], now);
    }
  }

  lemma {:induction false} LevelAtMostFrom(c: Config, b: Bucket, times: seq<real>, i: nat, now: real)
    requires i <= |times|
    ensures Refilled(c, Run(c, b, times), now) <=
            c.burst as real + Gain(c, InstantOf(times, i, now), now)
              - GrantCount(c, Run(c, b, times[..i]), times[i..]) as real
    decreases |times|
  {
    if i == 0 {
      assert times[..0] == [] && times[0..] == times;
      LevelAtMost(c, b, times, now);
    } else {
      RunFrom(c, b, times, i);
      assert times[1..][i - 1..] == times[i..];
      LevelAtMostFrom(c, Consumed(c, b, times[0]), times[1..], i - 1, now);
    }
  }

  /** And it is no less than the least of these. */
  lemma {:induction false} LevelReached(c: Config, b: Bucket, times: seq<real>, now: real) returns (i: nat)
    ensures i <= |times| + 1
    ensures i == |times| + 1 ==>
      Refilled(c, Run(c, b, times), now) == b.tokens + Gain(c, b.lastRefill, now) - GrantCount(c, b, times) as real
    ensures i <= |times| ==>
      Refilled(c, Run(c, b, times), now) == c.burst as real + Gain(c, InstantOf(times, i, now), now)
        - GrantCount(c, Run(c, b, times[..i]), times[i..]) as real
    decreases |times|
  {
    if times == [] {
      i := if Refilled(c, b, now) == c.burst as real then 0 else 1;
      assert times[..0] == [] && times[0..] == [];
    } else {
      var b', rest := Consumed(c, b, times[0]), times[1..];
      var j := LevelReached(c, b', rest, now);
      GainAdds(c, b.lastRefill, times[0], now);
      if j <= |rest| {
        i := j + 1;
        RunFrom(c, b, times, i);
        assert rest[j..] == times[i..];
      } else if Refilled(c, b, times[0]) == c.burst as real {
        i := 0;
        assert times[..0] == [] && times[0..] == times;
      } else {
        i := |times| + 1;
      }
    }
  }

  /** In any run that starts with a full bucket, a call is refused if and only if the grants since some
      earlier call, or none at all, have used up a full bucket and everything that the rate has added since. */
  lemma RefusedIffSpent(c: Config, start: real, times: seq<real>, now: real)
    requires c.Valid() && start <= InstantOf(times, 0, now)
    ensures var b := Bucket(c.burst as real, start);
      !Grants(c, Run(c, b, times), now) <==> exists i :: Spent(c, b, times, i, now)
  {
    var b := Bucket(c.burst as real, start);
    forall i: nat | i <= |times|
      ensures Spent(c, b, times, i, now) ==> !Grants(c, Run(c, b, times), now)
    {
      LevelAtMostFrom(c, b, times, i, now);
    }
    if !Grants(c, Run(c, b, times), now) {
      var i := LevelReached(c, b, times, now);
      if i <= |times| {
        assert Spent(c, b, times, i, now);
      } else {
        GainAdds(c, start, InstantOf(times, 0, now), now);
        GainNonNegative(c, start, InstantOf(times, 0, now));
        assert times[..0] == [] && times[0..] == times;
        assert Spent(c, b, times, 0, now);
      }
    }
  }
}
