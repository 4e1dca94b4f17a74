/** Memory records with their embedding index, the retention sweeper, and the three kinds of query.
    Tables are sequences in insertion order; the distance of a text from a query is an ordered value. */
module MemoryStore {
  import opened Common

  type Id = nat

  datatype Record = Record(
    id: Id,
    agent: string,
    namespace: string,
    key: Option<string>,
    content: string,
    expiresAt: Option<int>,
    deletedAt: Option<int>,
    version: nat,
    createdAt: int,
    updatedAt: int)

  /** A row of the embedding table. */
  datatype Entry = Entry(id: Id, text: string)

  /** Both tables; identifiers below `next` have been drawn. */
  datatype Store = Store(records: seq<Record>, entries: seq<Entry>, next: Id)

  const EMPTY := Store([], [], 0)

  predicate Live(r: Record, now: int)
  {
    r.deletedAt.None? && (r.expiresAt.None? || r.expiresAt.value > now)
  }

  /** The `WHERE` clause shared by the queries; without a key every key will do. */
  function Matching(agent: string, namespace: string, key: Option<string>, now: int): Record -> bool
  {
    (r: Record) =>
      r.agent == agent && r.namespace == namespace && (key.None? || r.key == key) && Live(r, now)
  }

  function Select(s: Store, agent: string, namespace: string, key: Option<string>, now: int): seq<Record>
  {
    Filter(Matching(agent, namespace, key, now), s.records)
  }

  function NewestFirst(): Record -> int
  {
    (r: Record) => -r.updatedAt
  }

  /** Key and list queries. */
  function Query(s: Store, agent: string, namespace: string, key: Option<string>, now: int, limit: nat): seq<Record>
  {
    Take(limit, SortBy(NewestFirst(), Select(s, agent, namespace, key, now)))
  }

  function ActiveCount(s: Store, agent: string, namespace: string, now: int): nat
  {
    |Select(s, agent, namespace, None, now)|
  }

  function Created(
    s: Store, agent: string, namespace: string, key: Option<string>, content: string, expiresAt: Option<int>, now: int)
    : Store
  {
    Store(s.records + [Record(s.next, agent, namespace, key, content, expiresAt, None, 1, now, now)],
          s.entries + [Entry(s.next, content)],
          s.next + 1)
  }

  predicate Deletable(r: Record, id: Id, agent: string, namespace: string)
  {
    r.id == id && r.agent == agent && r.namespace == namespace && r.deletedAt.None?
  }

  predicate CanDelete(s: Store, id: Id, agent: string, namespace: string)
  {
    exists r | r in s.records :: Deletable(r, id, agent, namespace)
  }

  function MarkDeleted(rs: seq<Record>, id: Id, agent: string, namespace: string, now: int): (r: seq<Record>)
    ensures |r| == |rs|
    ensures forall i | 0 <= i < |rs| :: r[i] ==
              if Deletable(rs[i], id, agent, namespace)
              then rs[i].(deletedAt := Some(now), updatedAt := now, version := rs[i].version + 1)
              else rs[i]
  {
    seq(|rs|, i requires 0 <= i < |rs| =>
      if Deletable(rs[i], id, agent, namespace)
      then rs[i].(deletedAt := Some(now), updatedAt := now, version := rs[i].version + 1)
      else rs[i])
  }

  function OtherEntries(id: Id): Entry -> bool
  {
    (e: Entry) => e.id != id
  }

  function SoftDeleted(s: Store, id: Id, agent: string, namespace: string, now: int): Store
  {
    if CanDelete(s, id, agent, namespace)
    then s.(records := MarkDeleted(s.records, id, agent, namespace, now),
            entries := Filter(OtherEntries(id), s.entries))
    else s
  }

  /** The sweeper removes records past their expiry, and soft-deleted ones past the retention. */
  predicate Doomed(r: Record, now: int, retention: int)
  {
    if r.deletedAt.None? then r.expiresAt.Some? && r.expiresAt.value <= now
    else r.deletedAt.value <= now - retention
  }

  function Spared(now: int, retention: int): Record -> bool
  {
    (r: Record) => !Doomed(r, now, retention)
  }

  predicate Condemned(s: Store, id: Id, now: int, retention: int)
  {
    exists r | r in s.records :: r.id == id && Doomed(r, now, retention)
  }

  function SparedEntry(s: Store, now: int, retention: int): Entry -> bool
  {
    (e: Entry) => !Condemned(s, e.id, now, retention)
  }

  function Swept(s: Store, now: int, retention: int): Store
  {
    s.(records := Filter(Spared(now, retention), s.records),
       entries := Filter(SparedEntry(s, now, retention), s.entries))
  }

  function RecordId(): Record -> nat
  {
    (r: Record) => r.id
  }

  function EntryId(): Entry -> nat
  {
    (e: Entry) => e.id
  }

  predicate Indexes(e: Entry, r: Record)
  {
    r.id == e.id && r.deletedAt.None? && r.content == e.text
  }

  ghost predicate HasRecord(s: Store, e: Entry)
  {
    exists r :: r in s.records && Indexes(e, r)
  }

  ghost predicate HasEntry(s: Store, r: Record)
  {
    exists e :: e in s.entries && Indexes(e, r)
  }

  /** Ids are unique, and the embedding table has one entry, with the record's own text, for exactly
      the records that are not soft-deleted. */
  ghost predicate Consistent(s: Store)
  {
    && UniqueBy(RecordId(), s.records) && UniqueBy(EntryId(), s.entries)
    && (forall r | r in s.records :: r.id < s.next)
    && (forall e | e in s.entries :: HasRecord(s, e))
    && (forall r | r in s.records && r.deletedAt.None? :: HasEntry(s, r))
  }

  /** The record belongs to the agent and namespace, has the key if one is given, and is live. */
  predicate Asked(agent: string, namespace: string, key: Option<string>, now: int, r: Record)
  {
    && r.agent == agent && r.namespace == namespace && (key.None? || r.key == key)
    && r.deletedAt.None? && (r.expiresAt.None? || now < r.expiresAt.value)
  }

  datatype Operation =
    | Create(agent: string, namespace: string, key: Option<string>, content: string, expiresAt: Option<int>, now: int)
    | SoftDelete(id: Id, agent: string, namespace: string, now: int)
    | Sweep(now: int, retention: int)

  function Apply(s: Store, op: Operation): Store
  {
    match op
    case Create(agent, namespace, key, content, expiresAt, now) =>
      Created(s, agent, namespace, key, content, expiresAt, now)
    case SoftDelete(id, agent, namespace, now) => SoftDeleted(s, id, agent, namespace, now)
    case Sweep(now, retention) => Swept(s, now, retention)
  }

  function Run(ops: seq<Operation>): Store
  {
    if ops == [] then EMPTY else Apply(Run(ops[..|ops| - 1]), ops[|ops| - 1])
  }

  // The index agrees with the records

  lemma CreateConsistent(s: Store, op: Operation)
    requires Consistent(s) && op.Create?
    ensures Consistent(Apply(s, op))
  {
    var s' := Apply(s, op);
    var r, e := s'.records[|s.records|], s'.entries[|s.entries|];
    assert Indexes(e, r) && r in s'.records && e in s'.entries;
    forall d | d in s.entries
      ensures d.id < s.next && HasRecord(s', d)
    {
      assert HasRecord(s, d);
      var t :| t in s.records && Indexes(d, t);
      assert t in s'.records;
    }
    forall t | t in s.records && t.deletedAt.None?
      ensures HasEntry(s', t)
    {
      assert HasEntry(s, t);
      var d :| d in s.entries && Indexes(d, t);
      assert d in s'.entries;
    }
    UniqueByAppend(RecordId(), s.records, r);
    UniqueByAppend(EntryId(), s.entries, e);
  }

  lemma SoftDeleteConsistent(s: Store, op: Operation)
    requires Consistent(s) && op.SoftDelete? && CanDelete(s, op.id, op.agent, op.namespace)
    ensures Consistent(Apply(s, op))
  {
    var s' := Apply(s, op);
    FilterUniqueBy(OtherEntries(op.id), EntryId(), s.entries);
    forall e | e in s'.entries
      ensures HasRecord(s', e)
    {
      KeptEntryHasRecord(s, op, e);
    }
    forall i | 0 <= i < |s'.records|
      ensures s'.records[i].id < s.next
      ensures s'.records[i].deletedAt.None? ==> HasEntry(s', s'.records[i])
    {
      assert s.records[i] in s.records;
      if s'.records[i].deletedAt.None? {
        SurvivorHasEntry(s, op, i);
      }
    }
  }

  lemma KeptEntryHasRecord(s: Store, op: Operation, e: Entry)
    requires Consistent(s) && op.SoftDelete? && CanDelete(s, op.id, op.agent, op.namespace)
    requires e in Apply(s, op).entries
    ensures HasRecord(Apply(s, op), e)
  {
    FilterMembers(OtherEntries(op.id), s.entries);
    assert HasRecord(s, e);
    var r :| r in s.records && Indexes(e, r);
    var i :| 0 <= i < |s.records| && s.records[i] == r;
    assert Apply(s, op).records[i] == r;
  }

  lemma SurvivorHasEntry(s: Store, op: Operation, i: nat)
    requires Consistent(s) && op.SoftDelete? && CanDelete(s, op.id, op.agent, op.namespace)
    requires i < |s.records| && Apply(s, op).records[i].deletedAt.None?
    ensures HasEntry(Apply(s, op), Apply(s, op).records[i])
  {
    var r := s.records[i];
    var gone :| gone in s.records && Deletable(gone, op.id, op.agent, op.namespace);
    assert r in s.records && Apply(s, op).records[i] == r && HasEntry(s, r);
    SurvivorHasOtherId(s, gone, r, op);
    var e :| e in s.entries && Indexes(e, r);
    FilterMembers(OtherEntries(op.id), s.entries);
    assert e in Apply(s, op).entries;
  }

  lemma SurvivorHasOtherId(s: Store, gone: Record, r: Record, op: Operation)
    requires Consistent(s) && op.SoftDelete? && gone in s.records && r in s.records
    requires Deletable(gone, op.id, op.agent, op.namespace) && !Deletable(r, op.id, op.agent, op.namespace)
    ensures r.id != op.id
  {
    if r.id == op.id {
      UniqueByEqual(RecordId(), s.records, r, gone);
    }
  }

  lemma SweepConsistent(s: Store, now: int, retention: int)
    requires Consistent(s)
    ensures Consistent(Swept(s, now, retention))
  {
    var s' := Swept(s, now, retention);
    FilterMembers(Spared(now, retention), s.records);
    FilterMembers(SparedEntry(s, now, retention), s.entries);
    FilterUniqueBy(Spared(now, retention), RecordId(), s.records);
    FilterUniqueBy(SparedEntry(s, now, retention), EntryId(), s.entries);
    forall e | e in s'.entries
      ensures HasRecord(s', e)
    {
      assert HasRecord(s, e);
      var r :| r in s.records && Indexes(e, r);
      assert r in s'.records;
    }
    forall r | r in s'.records && r.deletedAt.None?
      ensures HasEntry(s', r)
    {
      assert HasEntry(s, r);
      var e :| e in s.entries && Indexes(e, r);
      NotCondemned(s, r, now, retention);
      assert e in s'.entries;
    }
  }

  lemma NotCondemned(s: Store, r: Record, now: int, retention: int)
    requires Consistent(s) && r in s.records && !Doomed(r, now, retention)
    ensures !Condemned(s, r.id, now, retention)
  {
    if t :| t in s.records && t.id == r.id && Doomed(t, now, retention) {
      UniqueByEqual(RecordId(), s.records, r, t);
    }
  }

  /** In every run, the embedding table holds exactly the records that are not soft-deleted. */
  lemma {:induction false} IndexAgrees(ops: seq<Operation>)
    ensures Consistent(Run(ops))
  {
    if ops != [] {
      var s, op := Run(ops[..|ops| - 1]), ops[|ops| - 1];
      IndexAgrees(ops[..|ops| - 1]);
      match op
      case Create(_, _, _, _, _, _) => CreateConsistent(s, op);
      case SoftDelete(id, agent, namespace, _) =>
        if CanDelete(s, id, agent, namespace) {
          SoftDeleteConsistent(s, op);
        }
      case Sweep(now, retention) => SweepConsistent(s, now, retention);
    }
  }

  // What a query answers

  /** Key and list queries answer with at most `limit` records, newest first and none twice; all are asked
      for, and one that is asked for is left out only for as many that are no older. */
  lemma QueryMeans(s: Store, agent: string, namespace: string, key: Option<string>, now: int, limit: nat)
    requires Consistent(s)
    ensures var found := Query(s, agent, namespace, key, now, limit);
      && |found| <= limit
      && (forall i, j | 0 <= i < j < |found| :: found[i].updatedAt >= found[j].updatedAt && found[i].id != found[j].id)
      && (forall r | r in found :: r in s.records && Asked(agent, namespace, key, now, r))
      && (forall r | r in s.records && Asked(agent, namespace, key, now, r) && r !in found ::
            |found| == limit && forall q | q in found :: q.updatedAt >= r.updatedAt)
  {
    var p, found := Matching(agent, namespace, key, now), Query(s, agent, namespace, key, now, limit);
    FirstOfSorted(p, NewestFirst(), RecordId(), s.records, limit);
    assert forall r :: p(r) <==> Asked(agent, namespace, key, now, r);
    assert forall r: Record :: NewestFirst()(r) == -r.updatedAt && RecordId()(r) == r.id;
  }

  // Sweeping cannot be seen

  /** Key queries, list queries and the active count answer alike before and after a sweep, at the
      time of the sweep and at any time after it. */
  lemma SweepInvisible(s: Store, swept: int, retention: int, agent: string, namespace: string,
                       key: Option<string>, now: int, limit: nat)
    requires swept <= now
    ensures Query(Swept(s, swept, retention), agent, namespace, key, now, limit)
         == Query(s, agent, namespace, key, now, limit)
    ensures ActiveCount(Swept(s, swept, retention), agent, namespace, now)
         == ActiveCount(s, agent, namespace, now)
  {
    FilterFilter(Matching(agent, namespace, key, now), Spared(swept, retention), s.records);
    FilterFilter(Matching(agent, namespace, None, now), Spared(swept, retention), s.records);
  }

  /** The run without its sweeps. */
  function WithoutSweeps(ops: seq<Operation>): seq<Operation>
  {
    if ops == [] then []
    else WithoutSweeps(ops[..|ops| - 1]) + if ops[|ops| - 1].Sweep? then [] else [ops[|ops| - 1]]
  }

  function LiveAt(now: int): Record -> bool
  {
    (r: Record) => Live(r, now)
  }

  function NotDeletable(id: Id, agent: string, namespace: string): Record -> bool
  {
    (r: Record) => !Deletable(r, id, agent, namespace)
  }

  /** What is live after a deletion is what was live and is not deleted by it. */
  lemma {:induction false} LiveAfterDelete(rs: seq<Record>, id: Id, agent: string, namespace: string, at: int, now: int)
    ensures Filter(LiveAt(now), MarkDeleted(rs, id, agent, namespace, at))
         == Filter(NotDeletable(id, agent, namespace), Filter(LiveAt(now), rs))
  {
    if rs != [] {
      var marked := MarkDeleted(rs, id, agent, namespace, at);
      assert marked[1..] == MarkDeleted(rs[1..], id, agent, namespace, at);
      LiveAfterDelete(rs[1..], id, agent, namespace, at, now);
      FilterConcat(NotDeletable(id, agent, namespace), if Live(rs[0], now) then [rs[0]] else [],
                   Filter(LiveAt(now), rs[1..]));
    }
  }

  /** A deletion that finds nothing marks nothing. */
  lemma DeletedRecords(s: Store, id: Id, agent: string, namespace: string, at: int)
    ensures SoftDeleted(s, id, agent, namespace, at).records == MarkDeleted(s.records, id, agent, namespace, at)
  {
    if !CanDelete(s, id, agent, namespace) {
      assert forall i | 0 <= i < |s.records| :: s.records[i] in s.records;
    }
  }

  /** A step other than a sweep treats alike two stores with the same live records. */
  lemma StepKeepsLive(s: Store, t: Store, op: Operation, now: int)
    requires !op.Sweep? && s.next == t.next && Filter(LiveAt(now), s.records) == Filter(LiveAt(now), t.records)
    ensures Apply(s, op).next == Apply(t, op).next
    ensures Filter(LiveAt(now), Apply(s, op).records) == Filter(LiveAt(now), Apply(t, op).records)
  {
    if op.Create? {
      var r := Apply(s, op).records[|s.records|];
      FilterConcat(LiveAt(now), s.records, [r]);
      FilterConcat(LiveAt(now), t.records, [r]);
    } else {
      DeletedRecords(s, op.id, op.agent, op.namespace, op.now);
      DeletedRecords(t, op.id, op.agent, op.namespace, op.now);
      LiveAfterDelete(s.records, op.id, op.agent, op.namespace, op.now, now);
      LiveAfterDelete(t.records, op.id, op.agent, op.namespace, op.now, now);
    }
  }

  lemma {:induction false} SweepsKeepLive(ops: seq<Operation>, now: int)
    requires forall op | op in ops && op.Sweep? :: op.now <= now
    ensures Run(ops).next == Run(WithoutSweeps(ops)).next
    ensures Filter(LiveAt(now), Run(ops).records) == Filter(LiveAt(now), Run(WithoutSweeps(ops)).records)
  {
    if ops != [] {
      var before, op := ops[..|ops| - 1], ops[|ops| - 1];
      assert op in ops;
      SweepsKeepLive(before, now);
      if op.Sweep? {
        assert WithoutSweeps(before) + [] == WithoutSweeps(before);
        FilterFilter(LiveAt(now), Spared(op.now, op.retention), Run(before).records);
      } else {
        assert WithoutSweeps(ops)[..|WithoutSweeps(before)|] == WithoutSweeps(before);
        StepKeepsLive(Run(before), Run(WithoutSweeps(before)), op, now);
      }
    }
  }

  /** Over every run, whatever is written and deleted in between, leaving out the sweeps changes no answer
      to a key or list query and no active count at any time from the last of them on. */
  lemma SweepsInvisible(ops: seq<Operation>, agent: string, namespace: string, key: Option<string>,
                        now: int, limit: nat)
    requires forall op | op in ops && op.Sweep? :: op.now <= now
    ensures Query(Run(ops), agent, namespace, key, now, limit)
         == Query(Run(WithoutSweeps(ops)), agent, namespace, key, now, limit)
    ensures ActiveCount(Run(ops), agent, namespace, now) == ActiveCount(Run(WithoutSweeps(ops)), agent, namespace, now)
  {
    SweepsKeepLive(ops, now);
    var s, t := Run(ops), Run(WithoutSweeps(ops));
    FilterFilter(Matching(agent, namespace, key, now), LiveAt(now), s.records);
    FilterFilter(Matching(agent, namespace, key, now), LiveAt(now), t.records);
    FilterFilter(Matching(agent, namespace, None, now), LiveAt(now), s.records);
    FilterFilter(Matching(agent, namespace, None, now), LiveAt(now), t.records);
  }

  /** An expired record can still be deleted by id before a sweep, and is not found afterwards. */
  lemma SweepCanChangeDelete(agent: string, namespace: string, content: string, now: int, retention: int)
    ensures var s := Run([Create(agent, namespace, None, content, Some(now), now - 1)]);
      && CanDelete(s, 0, agent, namespace)
      && !CanDelete(Swept(s, now, retention), 0, agent, namespace)
  {
    var ops := [Create(agent, namespace, None, content, Some(now), now - 1)];
    assert ops[..|ops| - 1] == [];
    assert Run([]) == EMPTY;
    var s := Run(ops);
    assert s == Apply(Run(ops[..|ops| - 1]), ops[|ops| - 1]) == Apply(EMPTY, ops[0]);
    var r := Record(0, agent, namespace, None, content, Some(now), None, 1, now - 1, now - 1);
    assert s.records == [r];
    assert r in s.records && Deletable(r, 0, agent, namespace);
    FilterMembers(Spared(now, retention), s.records);
  }

  /** Deleting by id answers differently after a sweep exactly when the record has expired by then. */
  lemma SweepChangesDeleteIff(s: Store, now: int, retention: int, id: Id, agent: string, namespace: string)
    requires Consistent(s)
    ensures CanDelete(Swept(s, now, retention), id, agent, namespace) != CanDelete(s, id, agent, namespace)
       <==> exists r :: r in s.records && Deletable(r, id, agent, namespace) && !Live(r, now)
  {
    FilterMembers(Spared(now, retention), s.records);
    if r :| r in s.records && Deletable(r, id, agent, namespace) {
      forall t | t in s.records && Deletable(t, id, agent, namespace)
        ensures t == r
      {
        UniqueByEqual(RecordId(), s.records, r, t);
      }
    }
  }
}
