/** Semantic search: the k nearest entries of the whole embedding table are found first and filtered
    afterwards.  The laws compare it with searching the qualifying entries only. */
module MemorySearch {
  import opened Common
  import opened MemoryStore

  type Distance = string -> int

  function ByDistance(dist: Distance): Entry -> int
  {
    (e: Entry) => dist(e.text)
  }

  /** The join with the record table: the entry's record is live and belongs to the namespace. */
  function Qualifies(s: Store, agent: string, namespace: string, now: int): Entry -> bool
  {
    (e: Entry) => exists r | r in s.records :: r.id == e.id && Matching(agent, namespace, None, now)(r)
  }

  function Candidates(limit: nat): nat
  {
    if 10 * limit < 100 then 10 * limit else 100
  }

  function Nearest(s: Store, dist: Distance, k: nat): seq<Entry>
  {
    Take(k, SortBy(ByDistance(dist), s.entries))
  }

  function Semantic(s: Store, dist: Distance, agent: string, namespace: string, now: int, limit: nat): seq<Entry>
  {
    var hits := Filter(Qualifies(s, agent, namespace, now), Nearest(s, dist, Candidates(limit)));
    Take(limit, SortBy(ByDistance(dist), hits))
  }

  /** The reference: the nearest of all qualifying entries. */
  function BruteForce(s: Store, dist: Distance, agent: string, namespace: string, now: int, limit: nat): seq<Entry>
  {
    Take(limit, SortBy(ByDistance(dist), Filter(Qualifies(s, agent, namespace, now), s.entries)))
  }

  /** The qualifying entries among the k nearest, and among all, both nearest first. */
  function Near(s: Store, dist: Distance, agent: string, namespace: string, now: int, k: nat): seq<Entry>
  {
    Filter(Qualifies(s, agent, namespace, now), Nearest(s, dist, k))
  }

  function All(s: Store, dist: Distance, agent: string, namespace: string, now: int): seq<Entry>
  {
    Filter(Qualifies(s, agent, namespace, now), SortBy(ByDistance(dist), s.entries))
  }

  lemma SearchShapes(s: Store, dist: Distance, agent: string, namespace: string, now: int, limit: nat)
    ensures var near := Near(s, dist, agent, namespace, now, Candidates(limit));
      var all := All(s, dist, agent, namespace, now);
      && near <= all
      && SortedBy(ByDistance(dist), near)
      && Semantic(s, dist, agent, namespace, now, limit) == Take(limit, near)
      && BruteForce(s, dist, agent, namespace, now, limit) == Take(limit, all)
  {
    var p, key, k := Qualifies(s, agent, namespace, now), ByDistance(dist), Candidates(limit);
    var sorted := SortBy(key, s.entries);
    SortBySorted(key, s.entries);
    if k <= |sorted| {
      FilterPrefix(p, sorted, k);
    }
    assert SortedBy(key, Nearest(s, dist, k));
    FilterSorted(p, key, Nearest(s, dist, k));
    SortedStays(key, Near(s, dist, agent, namespace, now, k));
    FilterSortBy(p, key, s.entries);
  }

  /** A semantic query returns at most `limit` entries, each of a live record of the agent and the
      namespace, nearest first and no record twice. */
  lemma SemanticSound(s: Store, dist: Distance, agent: string, namespace: string, now: int, limit: nat)
    requires Consistent(s)
    ensures var found := Semantic(s, dist, agent, namespace, now, limit);
      && |found| <= limit
      && SortedBy(ByDistance(dist), found) && UniqueBy(EntryId(), found)
      && forall e | e in found :: OfLiveRecord(s, agent, namespace, now, e)
  {
    SearchShapes(s, dist, agent, namespace, now, limit);
    var p, key := Qualifies(s, agent, namespace, now), ByDistance(dist);
    var all, found := All(s, dist, agent, namespace, now), Semantic(s, dist, agent, namespace, now, limit);
    FilterMembers(p, SortBy(key, s.entries));
    SortByMembers(key, s.entries);
    SortUniqueBy(key, EntryId(), s.entries);
    FilterUniqueBy(p, EntryId(), SortBy(key, s.entries));
    assert found <= all;
    forall e | e in found
      ensures OfLiveRecord(s, agent, namespace, now, e)
    {
      assert e in all && p(e);
      QualifiedIsLive(s, agent, namespace, now, e);
    }
  }

  /** The entry has the text of a live record of the agent and the namespace. */
  ghost predicate OfLiveRecord(s: Store, agent: string, namespace: string, now: int, e: Entry)
  {
    exists r :: r in s.records && Asked(agent, namespace, None, now, r) && r.id == e.id && r.content == e.text
  }

  lemma QualifiedIsLive(s: Store, agent: string, namespace: string, now: int, e: Entry)
    requires Consistent(s) && e in s.entries
    ensures Qualifies(s, agent, namespace, now)(e) <==> OfLiveRecord(s, agent, namespace, now, e)
  {
    assert HasRecord(s, e);
    var t :| t in s.records && Indexes(e, t);
    forall r | r in s.records && r.id == e.id
      ensures r == t
    {
      UniqueByEqual(RecordId(), s.records, r, t);
    }
  }

  /** The exact answer: at most `limit` entries of live records of the agent and the namespace, nearest first
      and none twice, and no other such entry is nearer. */
  lemma ExactMeans(s: Store, dist: Distance, agent: string, namespace: string, now: int, limit: nat)
    requires Consistent(s)
    ensures var found := BruteForce(s, dist, agent, namespace, now, limit);
      && |found| <= limit
      && (forall i, j | 0 <= i < j < |found| ::
            dist(found[i].text) <= dist(found[j].text) && found[i].id != found[j].id)
      && (forall e | e in found :: e in s.entries && OfLiveRecord(s, agent, namespace, now, e))
      && (forall e | e in s.entries && OfLiveRecord(s, agent, namespace, now, e) && e !in found ::
            |found| == limit && forall d | d in found :: dist(d.text) <= dist(e.text))
  {
    var p := Qualifies(s, agent, namespace, now);
    FirstOfSorted(p, ByDistance(dist), EntryId(), s.entries, limit);
    forall e | e in s.entries
      ensures p(e) <==> OfLiveRecord(s, agent, namespace, now, e)
    {
      QualifiedIsLive(s, agent, namespace, now, e);
    }
    assert forall e: Entry :: ByDistance(dist)(e) == dist(e.text) && EntryId()(e) == e.id;
  }

  /** How far down a list one must look to see the first `n` elements that satisfy `p`. */
  function Depth<T>(p: T -> bool, xs: seq<T>, n: nat): (d: nat)
    requires n <= |Filter(p, xs)|
    decreases |xs|
  {
    if n == 0 then 0 else 1 + Depth(p, xs[1..], if p(xs[0]) then n - 1 else n)
  }

  /** The depth is the place of the `n`-th such element; all others down to it, `Depth - n` in number, do
      not satisfy `p`. */
  lemma {:induction false} DepthIsPlace<T>(p: T -> bool, xs: seq<T>, n: nat)
    requires 0 < n <= |Filter(p, xs)|
    ensures var d := Depth(p, xs, n);
      n <= d <= |xs| && xs[d - 1] == Filter(p, xs)[n - 1] && |Filter(p, xs[..d])| == n
    decreases |xs|
  {
    var d, m := Depth(p, xs, n), if p(xs[0]) then n - 1 else n;
    if m == 0 {
      assert xs[..d] == [xs[0]];
    } else {
      DepthIsPlace(p, xs[1..], m);
      assert xs[..d][1..] == xs[1..][..d - 1];
    }
  }

  lemma {:induction false} DepthIff<T>(p: T -> bool, xs: seq<T>, n: nat, k: nat)
    requires n <= |Filter(p, xs)|
    ensures Depth(p, xs, n) <= k <==> n <= |Filter(p, Take(k, xs))|
    decreases |xs|
  {
    if n > 0 && k > 0 {
      DepthIff(p, xs[1..], if p(xs[0]) then n - 1 else n, k - 1);
      assert Take(k, xs)[1..] == Take(k - 1, xs[1..]);
    }
  }

  /** How many of the nearest entries one has to look at to see the first `n` that qualify. */
  function Reach(s: Store, dist: Distance, agent: string, namespace: string, now: int, n: nat): nat
    requires n <= |All(s, dist, agent, namespace, now)|
  {
    Depth(Qualifies(s, agent, namespace, now), SortBy(ByDistance(dist), s.entries), n)
  }

  /** Filtering after the search is exact if and only if the last entry of the exact answer stands among
      the k nearest of the whole table, that is, if not too many others are nearer. */
  lemma SemanticExactIff(s: Store, dist: Distance, agent: string, namespace: string, now: int, limit: nat)
    ensures var all := All(s, dist, agent, namespace, now);
      var n := if limit <= |all| then limit else |all|;
      Semantic(s, dist, agent, namespace, now, limit) == BruteForce(s, dist, agent, namespace, now, limit)
      <==> Reach(s, dist, agent, namespace, now, n) <= if limit <= 10 then 10 * limit else 100
  {
    SearchShapes(s, dist, agent, namespace, now, limit);
    var near, all := Near(s, dist, agent, namespace, now, Candidates(limit)), All(s, dist, agent, namespace, now);
    var n := if limit <= |all| then limit else |all|;
    DepthIff(Qualifies(s, agent, namespace, now), SortBy(ByDistance(dist), s.entries), n, Candidates(limit));
    if |near| >= n {
      assert Take(limit, near) == Take(limit, all);
    } else {
      assert |Take(limit, all)| == n;
    }
  }

  /** In particular it is exact while the table holds no more than k entries. */
  lemma SemanticExactWhenSmall(s: Store, dist: Distance, agent: string, namespace: string, now: int, limit: nat)
    requires |s.entries| <= Candidates(limit)
    ensures Semantic(s, dist, agent, namespace, now, limit) == BruteForce(s, dist, agent, namespace, now, limit)
  {
    SortByMultiset(ByDistance(dist), s.entries);
    assert Nearest(s, dist, Candidates(limit)) == SortBy(ByDistance(dist), s.entries);
    SearchShapes(s, dist, agent, namespace, now, limit);
  }

  /** A sweep can change a semantic answer, but only by appending to it: the entries it removes make
      room among the k nearest. */
  lemma SweepExtendsSemantic(s: Store, swept: int, retention: int, dist: Distance,
                             agent: string, namespace: string, now: int, limit: nat)
    requires Consistent(s) && swept <= now
    ensures Semantic(s, dist, agent, namespace, now, limit)
         <= Semantic(Swept(s, swept, retention), dist, agent, namespace, now, limit)
  {
    var s' := Swept(s, swept, retention);
    NearGrows(s, swept, retention, dist, agent, namespace, now, Candidates(limit));
    SearchShapes(s, dist, agent, namespace, now, limit);
    SearchShapes(s', dist, agent, namespace, now, limit);
  }

  /** The k nearest of the entries that a sweep spares. */
  function NearestSpared(s: Store, swept: int, retention: int, dist: Distance, k: nat): seq<Entry>
  {
    Take(k, Filter(SparedEntry(s, swept, retention), SortBy(ByDistance(dist), s.entries)))
  }

  lemma NearGrows(s: Store, swept: int, retention: int, dist: Distance,
                  agent: string, namespace: string, now: int, k: nat)
    requires Consistent(s) && swept <= now
    ensures Near(s, dist, agent, namespace, now, k)
         <= Near(Swept(s, swept, retention), dist, agent, namespace, now, k)
    ensures Near(Swept(s, swept, retention), dist, agent, namespace, now, k)
         == Filter(Qualifies(s, agent, namespace, now), NearestSpared(s, swept, retention, dist, k))
  {
    var s', key := Swept(s, swept, retention), ByDistance(dist);
    var q := SparedEntry(s, swept, retention);
    var p, p' := Qualifies(s, agent, namespace, now), Qualifies(s', agent, namespace, now);
    var sorted := SortBy(key, s.entries);
    forall e
      ensures p(e) ==> q(e)
      ensures p(e) == p'(e)
    {
      QualifiesAfterSweep(s, swept, retention, agent, namespace, now, e);
    }
    FilterSortBy(q, key, s.entries);
    PostFilterGrows(p, q, sorted, k);
    FilterSame(p, p', Take(k, Filter(q, sorted)));
  }

  /** The answer fills the limit already. */
  predicate Full(s: Store, dist: Distance, agent: string, namespace: string, now: int, limit: nat)
  {
    limit <= |All(s, dist, agent, namespace, now)|
    && Reach(s, dist, agent, namespace, now, limit) <= Candidates(limit)
  }

  /** A sweep leaves a semantic answer alone if and only if the answer is full, or no qualifying entry
      moves up into the k nearest when the swept entries go. */
  lemma SweepKeepsSemanticIff(s: Store, swept: int, retention: int, dist: Distance,
                              agent: string, namespace: string, now: int, limit: nat)
    requires Consistent(s) && swept <= now
    ensures Semantic(Swept(s, swept, retention), dist, agent, namespace, now, limit)
         == Semantic(s, dist, agent, namespace, now, limit)
       <==> (Full(s, dist, agent, namespace, now, limit)
             || forall e | e in NearestSpared(s, swept, retention, dist, Candidates(limit))
                           && Qualifies(s, agent, namespace, now)(e) :: e in Nearest(s, dist, Candidates(limit)))
  {
    var s', k, p := Swept(s, swept, retention), Candidates(limit), Qualifies(s, agent, namespace, now);
    var near, near' := Near(s, dist, agent, namespace, now, k), Near(s', dist, agent, namespace, now, k);
    NearGrows(s, swept, retention, dist, agent, namespace, now, k);
    SearchShapes(s, dist, agent, namespace, now, limit);
    SearchShapes(s', dist, agent, namespace, now, limit);
    FullIff(s, dist, agent, namespace, now, limit);
    SparedUnique(s, swept, retention, dist, k, p);
    NothingMovesUp(p, EntryId(), Nearest(s, dist, k), NearestSpared(s, swept, retention, dist, k));
    if |near| < limit {
      assert Take(limit, near) == near && |Take(limit, near')| == if limit <= |near'| then limit else |near'|;
    }
  }

  lemma FullIff(s: Store, dist: Distance, agent: string, namespace: string, now: int, limit: nat)
    ensures Full(s, dist, agent, namespace, now, limit)
       <==> |Near(s, dist, agent, namespace, now, Candidates(limit))| >= limit
  {
    SearchShapes(s, dist, agent, namespace, now, limit);
    if limit <= |All(s, dist, agent, namespace, now)| {
      DepthIff(Qualifies(s, agent, namespace, now), SortBy(ByDistance(dist), s.entries), limit, Candidates(limit));
    }
  }

  lemma SparedUnique(s: Store, swept: int, retention: int, dist: Distance, k: nat, p: Entry -> bool)
    requires Consistent(s)
    ensures UniqueBy(EntryId(), Filter(p, NearestSpared(s, swept, retention, dist, k)))
  {
    var sorted := SortBy(ByDistance(dist), s.entries);
    SortUniqueBy(ByDistance(dist), EntryId(), s.entries);
    FilterUniqueBy(SparedEntry(s, swept, retention), EntryId(), sorted);
    FilterUniqueBy(p, EntryId(), NearestSpared(s, swept, retention, dist, k));
  }

  /** One filtered list extends another properly exactly when it has a new element. */
  lemma NothingMovesUp<T>(p: T -> bool, id: T -> nat, xs: seq<T>, ys: seq<T>)
    requires Filter(p, xs) <= Filter(p, ys) && UniqueBy(id, Filter(p, ys))
    ensures |Filter(p, xs)| == |Filter(p, ys)| <==> forall y | y in ys && p(y) :: y in xs
  {
    var kept, kept' := Filter(p, xs), Filter(p, ys);
    FilterMembers(p, xs);
    FilterMembers(p, ys);
    if |kept| == |kept'| {
      assert kept == kept';
      assert forall y | y in ys && p(y) :: y in kept;
    } else {
      var y := kept'[|kept|];
      assert y in kept';
      assert forall i | 0 <= i < |kept| :: kept[i] == kept'[i] && id(kept'[i]) != id(y);
    }
  }

  /** Leaving out elements that the later filter rejects anyway lets no fewer through the first k. */
  lemma PostFilterGrows<T>(p: T -> bool, q: T -> bool, xs: seq<T>, k: nat)
    requires forall x | x in xs && p(x) :: q(x)
    ensures Filter(p, Take(k, xs)) <= Filter(p, Take(k, Filter(q, xs)))
  {
    var first, rest := Take(k, xs), Take(k, Filter(q, xs));
    FilterFilter(p, q, first);
    PrefixOfTake(q, xs, k);
    assert rest[..|Filter(q, first)|] == Filter(q, first);
    FilterPrefix(p, rest, |Filter(q, first)|);
  }

  lemma PrefixOfTake<T>(q: T -> bool, xs: seq<T>, k: nat)
    ensures Filter(q, Take(k, xs)) <= Take(k, Filter(q, xs))
  {
    FilterMembers(q, Take(k, xs));
    if k <= |xs| {
      FilterPrefix(q, xs, k);
    } else {
      FilterMembers(q, xs);
    }
  }

  lemma QualifiesAfterSweep(s: Store, swept: int, retention: int, agent: string, namespace: string, now: int, e: Entry)
    requires Consistent(s) && swept <= now
    ensures Qualifies(s, agent, namespace, now)(e) ==> SparedEntry(s, swept, retention)(e)
    ensures Qualifies(s, agent, namespace, now)(e) == Qualifies(Swept(s, swept, retention), agent, namespace, now)(e)
  {
    FilterMembers(Spared(swept, retention), s.records);
    if Qualifies(s, agent, namespace, now)(e) {
      var r :| r in s.records && r.id == e.id && Matching(agent, namespace, None, now)(r);
      NotCondemned(s, r, swept, retention);
      assert r in Swept(s, swept, retention).records;
    }
  }

  // A search that misses

  datatype Crowd = Crowd(agent: string, other: string, namespace: string, near: string, far: string, now: int)

  function CrowdedRecord(c: Crowd, i: nat): Record
  {
    if i < 10 then Record(i, c.other, c.namespace, None, c.near, Some(c.now), None, 1, 0, 0)
    else Record(i, c.agent, c.namespace, None, c.far, None, None, 1, 0, 0)
  }

  function CrowdedEntry(c: Crowd, i: nat): Entry
  {
    Entry(i, if i < 10 then c.near else c.far)
  }

  function CrowdedStore(c: Crowd, n: nat): Store
  {
    Store(seq(n, i requires 0 <= i < n => CrowdedRecord(c, i)), seq(n, i requires 0 <= i < n => CrowdedEntry(c, i)), n)
  }

  /** Ten expired records of another agent, all nearer to the query than the agent's only record. */
  function Crowded(c: Crowd): Store
  {
    CrowdedStore(c, 11)
  }

  /** The crowd is built by writing its records one after the other. */
  function CrowdOperation(c: Crowd, i: nat): Operation
  {
    if i < 10 then Create(c.other, c.namespace, None, c.near, Some(c.now), 0)
    else Create(c.agent, c.namespace, None, c.far, None, 0)
  }

  function CrowdOperations(c: Crowd, n: nat): seq<Operation>
  {
    seq(n, i requires 0 <= i < n => CrowdOperation(c, i))
  }

  lemma {:induction false} CrowdIsReachable(c: Crowd, n: nat)
    ensures Run(CrowdOperations(c, n)) == CrowdedStore(c, n)
  {
    if n == 0 {
      assert CrowdOperations(c, n) == [];
    } else {
      var ops, s := CrowdOperations(c, n), CrowdedStore(c, n - 1);
      assert ops[..|ops| - 1] == CrowdOperations(c, n - 1);
      CrowdIsReachable(c, n - 1);
      assert Run(ops) == Apply(s, CrowdOperation(c, n - 1));
      assert CrowdedStore(c, n).records == s.records + [CrowdedRecord(c, n - 1)];
      assert CrowdedStore(c, n).entries == s.entries + [CrowdedEntry(c, n - 1)];
    }
  }

  function NearOrFar(near: string): Distance
  {
    text => if text == near then 0 else 1
  }

  lemma CrowdedConsistent(c: Crowd)
    ensures Consistent(Crowded(c))
  {
    CrowdIsReachable(c, 11);
    IndexAgrees(CrowdOperations(c, 11));
  }

  lemma OthersDoNotQualify(c: Crowd, i: nat)
    requires c.agent != c.other && i < 10
    ensures !Qualifies(Crowded(c), c.agent, c.namespace, c.now)(Crowded(c).entries[i])
  {
    var s := Crowded(c);
    forall r | r in s.records && r.id == i
      ensures r.agent == c.other
    {
      var j :| 0 <= j < 11 && s.records[j] == r;
      assert s.records[j] == CrowdedRecord(c, j);
    }
    assert s.entries[i] == CrowdedEntry(c, i);
    if r :| r in s.records && r.id == s.entries[i].id && Matching(c.agent, c.namespace, None, c.now)(r) {
      assert r.agent == c.agent;
    }
  }

  lemma LastQualifies(c: Crowd)
    ensures Qualifies(Crowded(c), c.agent, c.namespace, c.now)(Crowded(c).entries[10])
  {
    var r := Crowded(c).records[10];
    assert r in Crowded(c).records && Matching(c.agent, c.namespace, None, c.now)(r);
  }

  lemma SomeFound(s: Store, dist: Distance, agent: string, namespace: string, now: int, limit: nat, e: Entry)
    requires e in s.entries && Qualifies(s, agent, namespace, now)(e) && limit > 0
    ensures BruteForce(s, dist, agent, namespace, now, limit) != []
  {
    FilterMembers(Qualifies(s, agent, namespace, now), s.entries);
    SortByMultiset(ByDistance(dist), Filter(Qualifies(s, agent, namespace, now), s.entries));
    SortByMembers(ByDistance(dist), Filter(Qualifies(s, agent, namespace, now), s.entries));
  }

  /** In a run of eleven writes: filtering after the search can miss a live record that a search of the
      agent's own entries finds. */
  lemma SemanticCanMiss(c: Crowd)
    requires c.agent != c.other && c.near != c.far
    ensures var s, dist := Run(CrowdOperations(c, 11)), NearOrFar(c.near);
      && Semantic(s, dist, c.agent, c.namespace, c.now, 1) == []
      && BruteForce(s, dist, c.agent, c.namespace, c.now, 1) != []
  {
    CrowdIsReachable(c, 11);
    var s, dist := Crowded(c), NearOrFar(c.near);
    SortedStays(ByDistance(dist), s.entries);
    forall e | e in Nearest(s, dist, 10)
      ensures !Qualifies(s, c.agent, c.namespace, c.now)(e)
    {
      var i :| 0 <= i < 10 && s.entries[i] == e;
      OthersDoNotQualify(c, i);
    }
    FilterNone(Qualifies(s, c.agent, c.namespace, c.now), Nearest(s, dist, 10));
    LastQualifies(c);
    SomeFound(s, dist, c.agent, c.namespace, c.now, 1, s.entries[10]);
  }

  /** The same record is found once a sweep has removed the crowd. */
  lemma SweepCanChangeSemantic(c: Crowd, retention: int)
    requires c.agent != c.other && c.near != c.far
    ensures var s, dist := Run(CrowdOperations(c, 11)), NearOrFar(c.near);
      Semantic(Swept(s, c.now, retention), dist, c.agent, c.namespace, c.now, 1)
      != Semantic(s, dist, c.agent, c.namespace, c.now, 1)
  {
    CrowdIsReachable(c, 11);
    var s, dist := Crowded(c), NearOrFar(c.near);
    var s', e := Swept(s, c.now, retention), s.entries[10];
    CrowdSwept(c, retention);
    SomeFound(s', dist, c.agent, c.namespace, c.now, 1, e);
    SemanticExactWhenSmall(s', dist, c.agent, c.namespace, c.now, 1);
    SemanticCanMiss(c);
  }

  lemma CrowdSwept(c: Crowd, retention: int)
    requires c.agent != c.other
    ensures var s := Crowded(c); var s' := Swept(s, c.now, retention);
      s'.entries == [s.entries[10]] && Qualifies(s', c.agent, c.namespace, c.now)(s.entries[10])
  {
    var s := Crowded(c);
    var q, e := SparedEntry(s, c.now, retention), s.entries[10];
    CrowdedConsistent(c);
    LastQualifies(c);
    QualifiesAfterSweep(s, c.now, retention, c.agent, c.namespace, c.now, e);
    forall d | d in s.entries[..10]
      ensures !q(d)
    {
      var i :| 0 <= i < 10 && s.entries[i] == d;
      assert s.records[i] in s.records && Doomed(s.records[i], c.now, retention);
    }
    FilterNone(q, s.entries[..10]);
    assert s.entries == s.entries[..10] + [e];
    FilterConcat(q, s.entries[..10], [e]);
  }
}
