/** The memory service: who may write where, namespace quotas, and the database operations with the
    retention sweeper. */
module MemoryService {
  import opened Common
  import opened MemoryStore

  // The tables and the sweeper

  /** The record and embedding tables, updated in place. */
  class Database {
    var records: seq<Record>
    var entries: seq<Entry>
    var next: Id

    ghost function State(): Store
      reads this
    {
      Store(records, entries, next)
    }

    constructor ()
      ensures State() == EMPTY
    {
      records, entries, next := [], [], 0;
    }

    method Create(agent: string, namespace: string, key: Option<string>, content: string,
                  expiresAt: Option<int>, now: int) returns (id: Id)
      modifies this
      ensures State() == Created(old(State()), agent, namespace, key, content, expiresAt, now)
      ensures id == old(next)
    {
      id := next;
      next := next + 1;
      records := records + [Record(id, agent, namespace, key, content, expiresAt, None, 1, now, now)];
      entries := entries + [Entry(id, content)];
    }

    method SoftDelete(id: Id, agent: string, namespace: string, now: int) returns (found: bool)
      modifies this
      ensures State() == SoftDeleted(old(State()), id, agent, namespace, now)
      ensures found == CanDelete(old(State()), id, agent, namespace)
    {
      found := exists r | r in records :: Deletable(r, id, agent, namespace);
      if found {
        records := MarkDeleted(records, id, agent, namespace, now);
        entries := Filter(OtherEntries(id), entries);
      }
    }

    method HardDelete(id: Id)
      modifies this
      ensures records == Filter(OtherRecords(id), old(records))
      ensures entries == Filter(OtherEntries(id), old(entries)) && next == old(next)
    {
      entries := Filter(OtherEntries(id), entries);
      records := Filter(OtherRecords(id), records);
    }

    /** Hard-deletes the listed ids, one after the other. */
    method HardDeleteAll(ids: seq<Id>)
      modifies this
      ensures records == Filter(NotListed(ids), old(records))
      ensures entries == Filter(EntryNotListed(ids), old(entries)) && next == old(next)
    {
      FilterAll(NotListed([]), records);
      FilterAll(EntryNotListed([]), entries);
      for i := 0 to |ids|
        invariant records == Filter(NotListed(ids[..i]), old(records))
        invariant entries == Filter(EntryNotListed(ids[..i]), old(entries)) && next == old(next)
      {
        assert ids[..i + 1] == ids[..i] + [ids[i]];
        FilterBoth(OtherRecords(ids[i]), NotListed(ids[..i]), NotListed(ids[..i + 1]), old(records));
        FilterBoth(OtherEntries(ids[i]), EntryNotListed(ids[..i]), EntryNotListed(ids[..i + 1]), old(entries));
        HardDelete(ids[i]);
      }
      assert ids[..|ids|] == ids;
    }

    /** One sweep: expired records first, then old tombstones. */
    method SweepOnce(now: int, retention: int) returns (expired: nat, tombstones: nat)
      requires Consistent(State())
      modifies this
      ensures State() == Swept(old(State()), now, retention)
      ensures forall r :: r in records <==>
                && r in old(records)
                && if r.deletedAt.Some? then r.deletedAt.value > now - retention
                   else r.expiresAt.None? || r.expiresAt.value > now
      ensures expired ==
              |set r | r in old(records) && r.deletedAt.None? && r.expiresAt.Some? && r.expiresAt.value <= now|
      ensures tombstones ==
              |set r | r in old(records) && r.deletedAt.Some? && r.deletedAt.value <= now - retention|
    {
      var first := IdsWhere(records, ExpiredRow(now));
      HardDeleteAll(first);
      var second := IdsWhere(records, Tombstone(now, retention));
      HardDeleteAll(second);
      expired, tombstones := |first|, |second|;
      SweepMeets(old(State()), now, retention, first, second);
      SweepCounts(old(State()), now, retention, first);
      CountRows(old(State()), now, retention);
      FilterMembers(Spared(now, retention), old(records));
    }
  }

  function OtherRecords(id: Id): Record -> bool
  {
    (r: Record) => r.id != id
  }

  function NotListed(ids: seq<Id>): Record -> bool
  {
    (r: Record) => r.id !in ids
  }

  function EntryNotListed(ids: seq<Id>): Entry -> bool
  {
    (e: Entry) => e.id !in ids
  }

  function ExpiredRow(now: int): Record -> bool
  {
    (r: Record) => r.deletedAt.None? && r.expiresAt.Some? && r.expiresAt.value <= now
  }

  function Tombstone(now: int, retention: int): Record -> bool
  {
    (r: Record) => r.deletedAt.Some? && r.deletedAt.value <= now - retention
  }

  /** The ids of the rows that satisfy a condition. */
  function IdsWhere(rs: seq<Record>, p: Record -> bool): (ids: seq<Id>)
  {
    if rs == [] then [] else (if p(rs[0]) then [rs[0].id] else []) + IdsWhere(rs[1..], p)
  }

  lemma {:induction false} IdsWhereMembers(rs: seq<Record>, p: Record -> bool)
    ensures forall id | id in IdsWhere(rs, p) :: exists r :: r in rs && r.id == id && p(r)
    ensures forall r | r in rs && p(r) :: r.id in IdsWhere(rs, p)
  {
    if rs != [] {
      IdsWhereMembers(rs[1..], p);
    }
  }

  lemma {:induction false} IdsWhereCount(rs: seq<Record>, p: Record -> bool)
    ensures |IdsWhere(rs, p)| == |Filter(p, rs)|
  {
    if rs != [] {
      IdsWhereCount(rs[1..], p);
    }
  }

  /** Deleting the expired records first takes no tombstone away. */
  lemma SweepCounts(s: Store, now: int, retention: int, first: seq<Id>)
    requires Consistent(s) && first == IdsWhere(s.records, ExpiredRow(now))
    ensures |first| == |Filter(ExpiredRow(now), s.records)|
    ensures |IdsWhere(Filter(NotListed(first), s.records), Tombstone(now, retention))|
         == |Filter(Tombstone(now, retention), s.records)|
  {
    IdsWhereCount(s.records, ExpiredRow(now));
    IdsWhereCount(Filter(NotListed(first), s.records), Tombstone(now, retention));
    IdsWhereMembers(s.records, ExpiredRow(now));
    forall r | r in s.records && Tombstone(now, retention)(r)
      ensures NotListed(first)(r)
    {
      if r.id in first {
        var t :| t in s.records && t.id == r.id && ExpiredRow(now)(t);
        UniqueByEqual(RecordId(), s.records, r, t);
      }
    }
    FilterFilter(Tombstone(now, retention), NotListed(first), s.records);
  }

  lemma CountRows(s: Store, now: int, retention: int)
    requires Consistent(s)
    ensures |Filter(ExpiredRow(now), s.records)| ==
            |set r | r in s.records && r.deletedAt.None? && r.expiresAt.Some? && r.expiresAt.value <= now|
    ensures |Filter(Tombstone(now, retention), s.records)| ==
            |set r | r in s.records && r.deletedAt.Some? && r.deletedAt.value <= now - retention|
  {
    UniqueCount(ExpiredRow(now), RecordId(), s.records);
    UniqueCount(Tombstone(now, retention), RecordId(), s.records);
    assert Chosen(ExpiredRow(now), s.records) ==
           set r | r in s.records && r.deletedAt.None? && r.expiresAt.Some? && r.expiresAt.value <= now;
    assert Chosen(Tombstone(now, retention), s.records) ==
           set r | r in s.records && r.deletedAt.Some? && r.deletedAt.value <= now - retention;
  }

  /** Deleting the two lists of ids one after the other is the sweep. */
  lemma SweepMeets(s: Store, now: int, retention: int, first: seq<Id>, second: seq<Id>)
    requires Consistent(s) && first == IdsWhere(s.records, ExpiredRow(now))
    requires second == IdsWhere(Filter(NotListed(first), s.records), Tombstone(now, retention))
    ensures Filter(NotListed(second), Filter(NotListed(first), s.records)) == Swept(s, now, retention).records
    ensures Filter(EntryNotListed(second), Filter(EntryNotListed(first), s.entries)) == Swept(s, now, retention).entries
  {
    var left := Filter(NotListed(first), s.records);
    IdsWhereMembers(s.records, ExpiredRow(now));
    IdsWhereMembers(left, Tombstone(now, retention));
    FilterMembers(NotListed(first), s.records);
    forall r | r in s.records
      ensures Spared(now, retention)(r) == (r.id !in second && r.id !in first)
    {
      ListedIffDoomed(s, now, retention, first, second, r.id);
      if Doomed(r, now, retention) {
        assert Condemned(s, r.id, now, retention);
      } else {
        NotCondemned(s, r, now, retention);
      }
    }
    FilterBoth(NotListed(second), NotListed(first), Spared(now, retention), s.records);
    forall e | e in s.entries
      ensures SparedEntry(s, now, retention)(e) == (e.id !in second && e.id !in first)
    {
      ListedIffDoomed(s, now, retention, first, second, e.id);
    }
    FilterBoth(EntryNotListed(second), EntryNotListed(first), SparedEntry(s, now, retention), s.entries);
  }

  lemma ListedIffDoomed(s: Store, now: int, retention: int, first: seq<Id>, second: seq<Id>, id: Id)
    requires Consistent(s) && first == IdsWhere(s.records, ExpiredRow(now))
    requires second == IdsWhere(Filter(NotListed(first), s.records), Tombstone(now, retention))
    ensures Condemned(s, id, now, retention) <==> id in first || id in second
  {
    var left := Filter(NotListed(first), s.records);
    IdsWhereMembers(s.records, ExpiredRow(now));
    IdsWhereMembers(left, Tombstone(now, retention));
    FilterMembers(NotListed(first), s.records);
    if id in first {
      var r :| r in s.records && r.id == id && ExpiredRow(now)(r);
      assert Doomed(r, now, retention);
    } else if id in second {
      var r :| r in left && r.id == id && Tombstone(now, retention)(r);
      assert Doomed(r, now, retention);
    }
  }

  // Writing and deleting through the service

  datatype Quota = Quota(maxRecords: int, maxRecordBytes: int, defaultTtl: nat)

  /** What the service consults: the namespaces of every agent's manifest, the catalog with its
      quotas, the per-agent overrides, and whether contents can be encrypted. */
  datatype Directory = Directory(
    agents: map<string, set<string>>,
    catalog: map<string, Quota>,
    overrides: map<(string, string), Quota>,
    encrypting: bool,
    masterKey: bool)

  /** A request of `source` on the memory of `target`.  A write reads the clock to count the active
      records, to set the expiry and to stamp the record; a time to live of zero means none. */
  datatype Request =
    | Write(source: string, target: string, namespace: string, grant: string,
            key: Option<string>, content: string, bytes: nat, ttl: nat, counted: int, stamped: int, now: int)
    | Delete(source: string, target: string, namespace: string, grant: string, id: Id, now: int)

  datatype Code =
    | TargetAgentNotFound | NamespaceInvalid | NamespaceNotAssigned | GrantDenied
    | QuotaExceeded | EncryptionUnavailable | RecordNotFound

  /** The order in which the faults are looked for. */
  function Rank(code: Code): nat
  {
    match code
    case TargetAgentNotFound => 0
    case NamespaceInvalid => 1
    case NamespaceNotAssigned => 2
    case GrantDenied => 3
    case QuotaExceeded => 4
    case EncryptionUnavailable => 5
    case RecordNotFound => 6
  }

  function QuotaOf(d: Directory, target: string, namespace: string): Quota
    requires namespace in d.catalog
  {
    if (target, namespace) in d.overrides then d.overrides[(target, namespace)] else d.catalog[namespace]
  }

  predicate OverQuota(d: Directory, s: Store, req: Request)
    requires req.Write? && req.namespace in d.catalog
  {
    var quota := QuotaOf(d, req.target, req.namespace);
    req.bytes > quota.maxRecordBytes
    || ActiveCount(s, req.target, req.namespace, req.counted) >= quota.maxRecords
  }

  /** The request has this fault, whatever other faults it has. */
  predicate Faulty(d: Directory, s: Store, req: Request, code: Code)
  {
    match code
    case TargetAgentNotFound => req.target !in d.agents
    case NamespaceInvalid => req.namespace !in d.catalog
    case NamespaceNotAssigned => req.target in d.agents && req.namespace !in d.agents[req.target]
    case GrantDenied => req.target != req.source && req.grant == ""
    case QuotaExceeded => req.Write? && req.namespace in d.catalog && OverQuota(d, s, req)
    case EncryptionUnavailable => req.Write? && d.encrypting && !d.masterKey
    case RecordNotFound => req.Delete? && !CanDelete(s, req.id, req.target, req.namespace)
  }

  ghost predicate Faultless(d: Directory, s: Store, req: Request)
  {
    forall code :: !Faulty(d, s, req, code)
  }

  function Expiry(d: Directory, req: Request): Option<int>
    requires req.Write? && req.namespace in d.catalog
  {
    var ttl := if req.ttl != 0 then req.ttl else QuotaOf(d, req.target, req.namespace).defaultTtl;
    if ttl == 0 then None else Some(req.stamped + ttl)
  }

  type Cipher = (string, string) -> string

  /** What a faultless request does to the tables. */
  function Performed(d: Directory, s: Store, seal: Cipher, req: Request): Store
    requires req.namespace in d.catalog
  {
    match req
    case Write(_, target, namespace, _, key, content, _, _, _, _, now) =>
      Created(s, target, namespace, key, if d.encrypting then seal(target, content) else content, Expiry(d, req), now)
    case Delete(_, target, namespace, _, id, now) => SoftDeleted(s, id, target, namespace, now)
  }

  datatype Outcome = Done(id: Id) | Failed(code: Code)

  /** Failing changes nothing and names the first fault there is; succeeding means that there is none. */
  ghost predicate Answers(d: Directory, s: Store, s': Store, seal: Cipher, req: Request, result: Outcome)
  {
    match result
    case Failed(code) =>
      s' == s && Faulty(d, s, req, code) && forall c | Rank(c) < Rank(code) :: !Faulty(d, s, req, c)
    case Done(id) =>
      && Faultless(d, s, req) && !Faulty(d, s, req, NamespaceInvalid)
      && s' == Performed(d, s, seal, req)
      && id == if req.Write? then s.next else req.id
  }

  // What the service promises

  /** The live records of an agent in a namespace. */
  ghost function Active(s: Store, agent: string, namespace: string, now: int): set<Record>
  {
    set r | r in s.records && r.agent == agent && r.namespace == namespace && r.deletedAt.None?
            && (r.expiresAt.None? || now < r.expiresAt.value)
  }

  /** The quota counts the live records of that agent and namespace. */
  lemma CountsActive(s: Store, agent: string, namespace: string, now: int)
    requires Consistent(s)
    ensures ActiveCount(s, agent, namespace, now) == |Active(s, agent, namespace, now)|
  {
    var p := Matching(agent, namespace, None, now);
    UniqueCount(p, RecordId(), s.records);
    assert Active(s, agent, namespace, now) == Chosen(p, s.records);
  }

  /** The agent exists and has the namespace, and the source is that agent or holds a grant. */
  predicate MayUse(d: Directory, req: Request)
  {
    && req.target in d.agents && req.namespace in d.catalog && req.namespace in d.agents[req.target]
    && (req.source == req.target || req.grant != "")
  }

  ghost predicate WriteAccepted(d: Directory, s: Store, req: Request)
  {
    && req.Write? && MayUse(d, req) && (d.encrypting ==> d.masterKey)
    && var quota := if (req.target, req.namespace) in d.overrides then d.overrides[(req.target, req.namespace)]
                    else d.catalog[req.namespace];
       && req.bytes <= quota.maxRecordBytes
       && |Active(s, req.target, req.namespace, req.counted)| < quota.maxRecords
  }

  /** The record that an accepted write leaves. */
  predicate RecordOf(d: Directory, id: Id, seal: Cipher, req: Request, r: Record)
    requires req.Write? && req.namespace in d.catalog
  {
    && r.id == id && r.agent == req.target && r.namespace == req.namespace && r.key == req.key
    && r.content == (if d.encrypting then seal(req.target, req.content) else req.content)
    && r.deletedAt == None && r.version == 1 && r.createdAt == r.updatedAt == req.now
    && var quota := if (req.target, req.namespace) in d.overrides then d.overrides[(req.target, req.namespace)]
                    else d.catalog[req.namespace];
       r.expiresAt == if req.ttl > 0 then Some(req.stamped + req.ttl)
                      else if quota.defaultTtl > 0 then Some(req.stamped + quota.defaultTtl) else None
  }

  lemma AcceptedIff(d: Directory, s: Store, req: Request)
    requires Consistent(s) && req.Write?
    ensures Faultless(d, s, req) <==> WriteAccepted(d, s, req)
  {
    CountsActive(s, req.target, req.namespace, req.counted);
    assert Faultless(d, s, req) ==>
        && !Faulty(d, s, req, TargetAgentNotFound) && !Faulty(d, s, req, NamespaceInvalid)
        && !Faulty(d, s, req, NamespaceNotAssigned) && !Faulty(d, s, req, GrantDenied)
        && !Faulty(d, s, req, QuotaExceeded) && !Faulty(d, s, req, EncryptionUnavailable);
  }

  lemma DeleteAcceptedIff(d: Directory, s: Store, req: Request)
    requires req.Delete?
    ensures Faultless(d, s, req) <==> MayUse(d, req) && CanDelete(s, req.id, req.target, req.namespace)
  {
    assert Faultless(d, s, req) ==>
        && !Faulty(d, s, req, TargetAgentNotFound) && !Faulty(d, s, req, NamespaceInvalid)
        && !Faulty(d, s, req, NamespaceNotAssigned) && !Faulty(d, s, req, GrantDenied)
        && !Faulty(d, s, req, RecordNotFound);
  }

  class Service {
    const db: Database
    const seal: Cipher
    var directory: Directory

    constructor (db: Database, seal: Cipher, directory: Directory)
      ensures this.db == db && this.seal == seal && this.directory == directory
    {
      this.db, this.seal, this.directory := db, seal, directory;
    }

    method SetQuota(target: string, namespace: string, quota: Quota)
      modifies this
      ensures directory == old(directory).(overrides := old(directory).overrides[(target, namespace) := quota])
      ensures forall agent, space | space in directory.catalog ::
                QuotaOf(directory, agent, space) ==
                if (agent, space) == (target, namespace) then quota else QuotaOf(old(directory), agent, space)
    {
      directory := directory.(overrides := directory.overrides[(target, namespace) := quota]);
    }

    /** The checks that writing, querying and deleting share. */
    method ValidateTarget(req: Request) returns (fault: Option<Code>)
      ensures match fault
              case None => forall c | Rank(c) <= Rank(GrantDenied) :: !Faulty(directory, db.State(), req, c)
              case Some(code) => Answers(directory, db.State(), db.State(), seal, req, Failed(code))
    {
      if req.target !in directory.agents {
        return Some(TargetAgentNotFound);
      }
      if req.namespace !in directory.catalog {
        return Some(NamespaceInvalid);
      }
      if req.namespace !in directory.agents[req.target] {
        return Some(NamespaceNotAssigned);
      }
      if req.target != req.source && req.grant == "" {
        return Some(GrantDenied);
      }
      return None;
    }

    method Write(req: Request) returns (result: Outcome)
      requires req.Write?
      modifies db
      ensures Answers(directory, old(db.State()), db.State(), seal, req, result)
      ensures Consistent(old(db.State())) ==> (result.Done? <==> WriteAccepted(directory, old(db.State()), req))
      ensures result.Done? ==>
                && result.id == old(db.next) && req.namespace in directory.catalog
                && |db.records| == |old(db.records)| + 1 && old(db.records) <= db.records
                && RecordOf(directory, result.id, seal, req, db.records[|db.records| - 1])
                && db.entries == old(db.entries) + [Entry(result.id, db.records[|db.records| - 1].content)]
    {
      if Consistent(db.State()) {
        AcceptedIff(directory, db.State(), req);
      }
      var fault := ValidateTarget(req);
      if fault.Some? {
        return Failed(fault.value);
      }
      assert !Faulty(directory, db.State(), req, NamespaceInvalid);
      var quota := QuotaOf(directory, req.target, req.namespace);
      if req.bytes > quota.maxRecordBytes {
        return Failed(QuotaExceeded);
      }
      var active := |Filter(Matching(req.target, req.namespace, None, req.counted), db.records)|;
      if active >= quota.maxRecords {
        return Failed(QuotaExceeded);
      }
      var expiresAt := Expiry(directory, req);
      var content := req.content;
      if directory.encrypting {
        if !directory.masterKey {
          return Failed(EncryptionUnavailable);
        }
        content := seal(req.target, req.content);
      }
      var id := db.Create(req.target, req.namespace, req.key, content, expiresAt, req.now);
      return Done(id);
    }

    method Delete(req: Request) returns (result: Outcome)
      requires req.Delete?
      modifies db
      ensures Answers(directory, old(db.State()), db.State(), seal, req, result)
      ensures result.Done? <==> MayUse(directory, req) && CanDelete(old(db.State()), req.id, req.target, req.namespace)
    {
      DeleteAcceptedIff(directory, db.State(), req);
      var fault := ValidateTarget(req);
      if fault.Some? {
        return Failed(fault.value);
      }
      assert !Faulty(directory, db.State(), req, NamespaceInvalid);
      var found := db.SoftDelete(req.id, req.target, req.namespace, req.now);
      if !found {
        return Failed(RecordNotFound);
      }
      return Done(req.id);
    }
  }
}
