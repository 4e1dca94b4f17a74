/** Machines that keep a log: which step wrote an entry. */
module Journal {

  ghost function Run<S, A>(next: (S, A) -> S, start: S, actions: seq<A>): S
  {
    if actions == [] then start
    else next(Run(next, start, actions[..|actions| - 1]), actions[|actions| - 1])
  }

  lemma RunSnoc<S, A>(next: (S, A) -> S, start: S, actions: seq<A>)
    requires actions != []
    ensures Run(next, start, actions) == next(Run(next, start, actions[..|actions| - 1]), actions[|actions| - 1])
  {
  }

  /** How a machine logs: each step appends its events. */
  datatype Recorder<!S, !A, E> = Recorder(next: (S, A) -> S, log: S -> seq<E>, events: (S, A) -> seq<E>)

  ghost predicate Records<S(!new), A(!new), E>(m: Recorder<S, A, E>)
  {
    forall s, a :: m.log(m.next(s, a)) == m.log(s) + m.events(s, a)
  }

  /** Action `i` wrote entry `k`. */
  ghost predicate Wrote<S, A, E>(m: Recorder<S, A, E>, start: S, actions: seq<A>, i: nat, k: nat)
  {
    && i < |actions|
    && var s := Run(m.next, start, actions[..i]);
       |m.log(s)| <= k < |m.log(s)| + |m.events(s, actions[i])|
  }

  /** The entry that action `i` wrote at place `k`. */
  ghost function Entry<S, A, E>(m: Recorder<S, A, E>, start: S, actions: seq<A>, i: nat, k: nat): E
    requires Wrote(m, start, actions, i, k)
  {
    var s := Run(m.next, start, actions[..i]);
    m.events(s, actions[i])[k - |m.log(s)|]
  }

  lemma {:induction false} LogPrefix<S(!new), A(!new), E>(m: Recorder<S, A, E>, start: S, actions: seq<A>, i: nat)
    requires Records(m) && i <= |actions|
    ensures m.log(Run(m.next, start, actions[..i])) <= m.log(Run(m.next, start, actions))
  {
    if i == |actions| {
      assert actions[..i] == actions;
    } else {
      var before := actions[..|actions| - 1];
      assert before[..i] == actions[..i];
      LogPrefix(m, start, before, i);
    }
  }

  /** Every entry was written by some action. */
  lemma {:induction false} WriterOf<S(!new), A(!new), E>(m: Recorder<S, A, E>, start: S, actions: seq<A>, k: nat)
    returns (i: nat)
    requires Records(m) && m.log(start) == [] && k < |m.log(Run(m.next, start, actions))|
    ensures Wrote(m, start, actions, i, k)
    ensures Entry(m, start, actions, i, k) == m.log(Run(m.next, start, actions))[k]
  {
    var before := actions[..|actions| - 1];
    if k < |m.log(Run(m.next, start, before))| {
      i := WriterOf(m, start, before, k);
      assert before[..i] == actions[..i];
    } else {
      i := |before|;
      assert actions[..i] == before;
    }
  }

  /** What an action writes stays in the log. */
  lemma WrittenStays<S(!new), A(!new), E>(m: Recorder<S, A, E>, start: S, actions: seq<A>, i: nat, k: nat)
    requires Records(m) && Wrote(m, start, actions, i, k)
    ensures k < |m.log(Run(m.next, start, actions))|
    ensures m.log(Run(m.next, start, actions))[k] == Entry(m, start, actions, i, k)
  {
    assert actions[..i + 1][..i] == actions[..i];
    LogPrefix(m, start, actions, i + 1);
  }
}
