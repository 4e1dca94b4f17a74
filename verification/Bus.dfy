/** The node's outbound queue: senders append, one write loop takes the head, and a message whose
    write fails goes back to the front of a bounded deque. */
module Bus {
  import opened Common

  /** `deque(maxlen).appendleft`: on a full deque the tail falls off. */
  function AppendLeft<T>(queue: seq<T>, x: T, max: nat): (q: seq<T>)
    ensures |queue| <= max ==> |q| <= max
  {
    if |queue| < max then [x] + queue
    else if max == 0 then []
    else [x] + queue[..max - 1]
  }

  // Senders interleaved with the write loop

  datatype State<T> = State(
    queue: seq<T>,
    inFlight: Option<T>,
    written: seq<T>,     // handed to the connection, in order
    accepted: seq<T>,    // sends that returned true, in order
    dropped: nat)        // messages that fell off a full queue

  datatype Action<T> = Send(message: T) | Take | WriteOk | WriteFailed

  function Next<T>(max: nat, s: State<T>, a: Action<T>): State<T>
  {
    match a
    case Send(m) =>
      if |s.queue| >= max then s else s.(queue := s.queue + [m], accepted := s.accepted + [m])
    case Take =>
      if s.inFlight.Some? || s.queue == [] then s
      else s.(inFlight := Some(s.queue[0]), queue := s.queue[1..])
    case WriteOk =>
      if s.inFlight.None? then s else s.(inFlight := None, written := s.written + [s.inFlight.value])
    case WriteFailed =>
      if s.inFlight.None? then s
      else s.(inFlight := None, queue := AppendLeft(s.queue, s.inFlight.value, max),
              dropped := s.dropped + if |s.queue| < max then 0 else 1)
  }

  /** The client, with a record of what it has accepted, written and lost. */
  class BusClient<T> {
    const max: nat
    var outbound: seq<T>
    ghost var inFlight: Option<T>
    ghost var written: seq<T>
    ghost var accepted: seq<T>
    ghost var dropped: nat

    ghost function Snapshot(): State<T>
      reads this
    {
      State(outbound, inFlight, written, accepted, dropped)
    }

    constructor (max: nat)
      ensures this.max == max && Snapshot() == State([], None, [], [], 0)
    {
      this.max := max;
      outbound, inFlight, written, accepted, dropped := [], None, [], [], 0;
    }

    method Send(message: T) returns (ok: bool)
      modifies this
      ensures Snapshot() == Next(max, old(Snapshot()), Action.Send(message))
      ensures ok == (|old(outbound)| < max)
      ensures outbound == if ok then old(outbound) + [message] else old(outbound)
    {
      if |outbound| >= max {
        return false;
      }
      outbound := outbound + [message];
      accepted := accepted + [message];
      ok := true;
    }

    method TakeHead() returns (message: T)
      requires outbound != [] && inFlight == None
      modifies this
      ensures Snapshot() == Next(max, old(Snapshot()), Take)
      ensures [message] + outbound == old(outbound) && inFlight == Some(message)
    {
      message := outbound[0];
      outbound := outbound[1..];
      inFlight := Some(message);
    }

    /** The message has been written. */
    method Confirm(message: T)
      requires inFlight == Some(message)
      modifies this
      ensures Snapshot() == Next(max, old(Snapshot()), WriteOk)
      ensures outbound == old(outbound) && written == old(written) + [message] && inFlight == None
    {
      written := written + [message];
      inFlight := None;
    }

    /** The message could not be written: it goes to the front, at the cost of the last one if there is no
        room. */
    method PutBack(message: T)
      requires |outbound| <= max && inFlight == Some(message)
      modifies this
      ensures Snapshot() == Next(max, old(Snapshot()), WriteFailed)
      ensures inFlight == None && |outbound| == (if |old(outbound)| < max then |old(outbound)| + 1 else max)
      ensures outbound <= [message] + old(outbound)
    {
      inFlight := None;
      dropped := dropped + if |outbound| < max then 0 else 1;
      if |outbound| < max {
        outbound := [message] + outbound;
      } else if max > 0 {
        outbound := [message] + outbound[..max - 1];
      }
    }
  }

  // Whole runs

  function Run<T>(max: nat, actions: seq<Action<T>>): State<T>
  {
    if actions == [] then State([], None, [], [], 0)
    else Next(max, Run(max, actions[..|actions| - 1]), actions[|actions| - 1])
  }

  function Flight<T>(s: State<T>): seq<T>
  {
    if s.inFlight.Some? then [s.inFlight.value] else []
  }

  /** Everything not lost: written, then in flight, then queued. */
  function Held<T>(s: State<T>): seq<T>
  {
    s.written + Flight(s) + s.queue
  }

  /** `xs` is obtained from `ys` by leaving elements out. */
  predicate Subsequence<T(==)>(xs: seq<T>, ys: seq<T>)
  {
    xs == [] ||
    (ys != [] &&
      ((xs[|xs| - 1] == ys[|ys| - 1] && Subsequence(xs[..|xs| - 1], ys[..|ys| - 1])) ||
       Subsequence(xs, ys[..|ys| - 1])))
  }

  lemma {:induction false} SubsequenceRefl<T>(xs: seq<T>)
    ensures Subsequence(xs, xs)
  {
    if xs != [] {
      SubsequenceRefl(xs[..|xs| - 1]);
    }
  }

  lemma SubsequenceSnoc<T>(xs: seq<T>, ys: seq<T>, x: T)
    requires Subsequence(xs, ys)
    ensures Subsequence(xs + [x], ys + [x])
  {
    assert (xs + [x])[..|xs|] == xs && (ys + [x])[..|ys|] == ys;
  }

  lemma {:induction false} SubsequenceFront<T>(xs: seq<T>, ys: seq<T>)
    requires xs != [] && Subsequence(xs, ys)
    ensures Subsequence(xs[..|xs| - 1], ys)
  {
    var front := ys[..|ys| - 1];
    if Subsequence(xs, front) {
      SubsequenceFront(xs, front);
    }
  }

  ghost predicate Inv<T>(max: nat, s: State<T>)
  {
    && |s.queue| <= max
    && Subsequence(Held(s), s.accepted)
    && |Held(s)| + s.dropped == |s.accepted|
    && (s.dropped == 0 ==> Held(s) == s.accepted)
  }

  lemma SendKeeps<T>(max: nat, s: State<T>, m: T)
    requires Inv(max, s)
    ensures Inv(max, Next(max, s, Send(m)))
  {
    if |s.queue| < max {
      assert Held(Next(max, s, Send(m))) == Held(s) + [m];
      SubsequenceSnoc(Held(s), s.accepted, m);
    }
  }

  lemma FailureKeeps<T>(max: nat, s: State<T>)
    requires Inv(max, s) && s.inFlight.Some?
    ensures Inv(max, Next(max, s, WriteFailed))
  {
    var s' := Next(max, s, WriteFailed);
    if |s.queue| < max {
      assert Held(s') == Held(s);
    } else {
      assert Held(s') == Held(s)[..|Held(s)| - 1];
      SubsequenceFront(Held(s), s.accepted);
    }
  }

  lemma NextKeeps<T>(max: nat, s: State<T>, a: Action<T>)
    requires Inv(max, s)
    ensures Inv(max, Next(max, s, a))
  {
    match a
    case Send(m) => SendKeeps(max, s, m);
    case Take => assert Held(Next(max, s, a)) == Held(s);
    case WriteOk => assert Held(Next(max, s, a)) == Held(s);
    case WriteFailed =>
      if s.inFlight.Some? {
        FailureKeeps(max, s);
      }
  }

  lemma {:induction false} RunKeeps<T>(max: nat, actions: seq<Action<T>>)
    ensures Inv(max, Run(max, actions))
  {
    if actions == [] {
      SubsequenceRefl(Held(Run(max, actions)));
    } else {
      RunKeeps(max, actions[..|actions| - 1]);
      NextKeeps(max, Run(max, actions[..|actions| - 1]), actions[|actions| - 1]);
    }
  }

  /** Whenever a failed message is put back, the queue has room for it. */
  ghost predicate AlwaysRoom<T>(max: nat, actions: seq<Action<T>>)
  {
    forall i | 0 <= i < |actions| :: RoomAt(max, actions, i)
  }

  ghost predicate RoomAt<T>(max: nat, actions: seq<Action<T>>, i: nat)
    requires i < |actions|
  {
    var s := Run(max, actions[..i]);
    actions[i].WriteFailed? && s.inFlight.Some? ==> |s.queue| < max
  }

  lemma {:induction false} DroppedIff<T>(max: nat, actions: seq<Action<T>>)
    ensures Run(max, actions).dropped == 0 <==> AlwaysRoom(max, actions)
  {
    if actions != [] {
      var before := actions[..|actions| - 1];
      DroppedIff(max, before);
      assert forall i | 0 <= i < |before| :: before[..i] == actions[..i];
      assert forall i | 0 <= i < |before| :: RoomAt(max, before, i) == RoomAt(max, actions, i);
      assert RoomAt(max, actions, |before|) <==>
             Run(max, actions).dropped == Run(max, before).dropped;
    }
  }

  /** In every interleaving the messages written, in flight and queued are an in-order selection of
      those accepted.  They are all of them if and only if the queue has room whenever a failed message
      is put back; otherwise each such event loses one message. */
  lemma OrderKept<T>(max: nat, actions: seq<Action<T>>)
    ensures var s := Run(max, actions);
      && Subsequence(Held(s), s.accepted)
      && |s.accepted| == |Held(s)| + s.dropped
      && (Held(s) == s.accepted <==> AlwaysRoom(max, actions))
  {
    RunKeeps(max, actions);
    DroppedIff(max, actions);
  }

  /** What a failed write does to the state: it loses a message exactly when the queue is full, and
      then it is the newest one, while everything else keeps its place. */
  lemma PutBackLosesNewest<T>(max: nat, actions: seq<Action<T>>)
    requires Run(max, actions).inFlight.Some?
    ensures var s, s' := Run(max, actions), Run(max, actions + [WriteFailed]);
      Held(s') == if |s.queue| < max then Held(s) else Held(s)[..|Held(s)| - 1]
  {
    RunKeeps(max, actions);
    RunSnoc(max, actions, WriteFailed);
    PutBackHeld(max, Run(max, actions));
  }

  lemma PutBackHeld<T>(max: nat, s: State<T>)
    requires s.inFlight.Some? && |s.queue| <= max
    ensures Held(Next(max, s, WriteFailed)) == if |s.queue| < max then Held(s) else Held(s)[..|Held(s)| - 1]
  {
    var s' := Next(max, s, WriteFailed);
    if |s.queue| < max {
      assert s'.queue == Flight(s) + s.queue;
    } else if max > 0 {
      assert s'.queue == (Flight(s) + s.queue)[..max];
    }
  }

  lemma RunSnoc<T>(max: nat, actions: seq<Action<T>>, a: Action<T>)
    ensures Run(max, actions + [a]) == Next(max, Run(max, actions), a)
  {
    assert (actions + [a])[..|actions|] == actions;
  }

  /** With room for one message: the second of two accepted messages is lost when the first fails. */
  lemma PutBackCanLose<T>(first: T, second: T)
    ensures var s := Run(1, [Send(first)] + [Take] + [Send(second)] + [WriteFailed]);
      s.accepted == [first, second] && Held(s) == [first]
  {
    var sent: seq<Action<T>> := [Send(first)];
    RunSnoc(1, [], Send(first));
    assert [] + sent == sent;
    assert Run(1, sent) == State([first], None, [], [first], 0);
    RunSnoc(1, sent, Take);
    assert Run(1, sent + [Take]) == State([], Some(first), [], [first], 0);
    RunSnoc(1, sent + [Take], Send(second));
    assert Run(1, sent + [Take] + [Send(second)]) == State([second], Some(first), [], [first, second], 0);
    RunSnoc(1, sent + [Take] + [Send(second)], WriteFailed);
  }

  lemma DrainOne<T>(max: nat, actions: seq<Action<T>>)
    requires Run(max, actions).inFlight == None && Run(max, actions).queue != []
    ensures var s := Run(max, actions);
      Run(max, actions + [Take] + [WriteOk]) == s.(queue := s.queue[1..], written := s.written + [s.queue[0]])
  {
    RunSnoc(max, actions, Take);
    RunSnoc(max, actions + [Take], WriteOk);
  }

  /** The state after the write loop has taken and written `n` messages. */
  function Drain<T>(s: State<T>, n: nat): State<T>
    requires n <= |s.queue|
  {
    s.(queue := s.queue[n..], written := s.written + s.queue[..n])
  }

  lemma DrainNext<T>(s: State<T>, n: nat)
    requires n < |s.queue|
    ensures var d := Drain(s, n); d.(queue := d.queue[1..], written := d.written + [d.queue[0]]) == Drain(s, n + 1)
  {
    assert s.queue[..n + 1] == s.queue[..n] + [s.queue[n]];
  }

  lemma {:induction false} DrainFrom<T>(max: nat, actions: seq<Action<T>>, n: nat) returns (longer: seq<Action<T>>)
    requires Run(max, actions).inFlight == None && n <= |Run(max, actions).queue|
    ensures actions <= longer && Run(max, longer) == Drain(Run(max, actions), n)
    ensures forall i | |actions| <= i < |longer| :: longer[i].Take? || longer[i].WriteOk?
  {
    var s := Run(max, actions);
    if n == 0 {
      longer := actions;
      assert s.written + [] == s.written;
    } else {
      var shorter := DrainFrom(max, actions, n - 1);
      DrainOne(max, shorter);
      DrainNext(s, n - 1);
      longer := shorter + [Take] + [WriteOk];
    }
  }

  /** As soon as writes work again, the write loop alone brings everything still held to the connection, in
      the order in which it was accepted. */
  lemma Drained<T>(max: nat, actions: seq<Action<T>>) returns (longer: seq<Action<T>>)
    requires Run(max, actions).inFlight == None
    ensures actions <= longer && forall i | |actions| <= i < |longer| :: longer[i].Take? || longer[i].WriteOk?
    ensures var s, s' := Run(max, actions), Run(max, longer);
      s'.queue == [] && s'.inFlight == None && s'.written == Held(s) && Subsequence(s'.written, s'.accepted)
  {
    var s := Run(max, actions);
    longer := DrainFrom(max, actions, |s.queue|);
    RunKeeps(max, actions);
    assert s.written + [] == s.written;
  }
}
