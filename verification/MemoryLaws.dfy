/** Laws of the memory service over whole runs: the record quota, and isolation between agents. */
module MemoryLaws {
  import opened Common
  import opened MemoryStore
  import opened MemorySearch
  import opened MemoryService

  datatype Step =
    | Handle(req: Request)
    | Purge(now: int, retention: int)
    | ChangeQuota(target: string, namespace: string, quota: Quota)

  datatype State = State(directory: Directory, store: Store)

  ghost function Next(st: State, seal: Cipher, step: Step): State
  {
    match step
    case Handle(req) =>
      if Faultless(st.directory, st.store, req) && !Faulty(st.directory, st.store, req, NamespaceInvalid)
      then st.(store := Performed(st.directory, st.store, seal, req)) else st
    case Purge(now, retention) => st.(store := Swept(st.store, now, retention))
    case ChangeQuota(target, namespace, quota) =>
      st.(directory := st.directory.(overrides := st.directory.overrides[(target, namespace) := quota]))
  }

  ghost function Run(st: State, seal: Cipher, steps: seq<Step>): State
  {
    if steps == [] then st else Next(Run(st, seal, steps[..|steps| - 1]), seal, steps[|steps| - 1])
  }

  /** No clock reading of the step is later than `now`. */
  predicate Past(step: Step, now: int)
  {
    match step
    case Handle(Write(_, _, _, _, _, _, _, _, counted, _, _)) => counted <= now
    case Handle(Delete(_, _, _, _, _, _)) => true
    case Purge(swept, _) => swept <= now
    case ChangeQuota(_, _, _) => true
  }

  /** The quota in force allows at most `bound` records, or the namespace does not exist. */
  predicate Allows(d: Directory, target: string, namespace: string, bound: int)
  {
    namespace in d.catalog ==> QuotaOf(d, target, namespace).maxRecords <= bound
  }

  lemma CountFallsWithTime(s: Store, agent: string, namespace: string, early: int, late: int)
    requires early <= late
    ensures ActiveCount(s, agent, namespace, late) <= ActiveCount(s, agent, namespace, early)
  {
    FilterMonotone(Matching(agent, namespace, None, late), Matching(agent, namespace, None, early), s.records);
  }

  lemma {:induction false} MarkingCountsLess(rs: seq<Record>, id: Id, agent: string, namespace: string, now: int,
                                             p: Record -> bool)
    requires forall r: Record | p(r) :: r.deletedAt.None?
    ensures |Filter(p, MarkDeleted(rs, id, agent, namespace, now))| <= |Filter(p, rs)|
  {
    if rs != [] {
      var marked := MarkDeleted(rs, id, agent, namespace, now);
      assert marked[1..] == MarkDeleted(rs[1..], id, agent, namespace, now);
      MarkingCountsLess(rs[1..], id, agent, namespace, now, p);
    }
  }

  /** A write is accepted only below the quota it reads, and adds one record. */
  lemma WriteKeepsQuota(d: Directory, s: Store, seal: Cipher, req: Request,
                        target: string, namespace: string, bound: int, now: int)
    requires req.Write? && req.counted <= now && !Faulty(d, s, req, NamespaceInvalid) && Faultless(d, s, req)
    requires Allows(d, target, namespace, bound) && ActiveCount(s, target, namespace, now) <= bound
    ensures ActiveCount(Performed(d, s, seal, req), target, namespace, now) <= bound
  {
    var p := Matching(target, namespace, None, now);
    var created := Performed(d, s, seal, req).records[|s.records|];
    FilterConcat(p, s.records, [created]);
    if req.target == target && req.namespace == namespace {
      assert !Faulty(d, s, req, QuotaExceeded);
      CountFallsWithTime(s, target, namespace, req.counted, now);
    }
  }

  /** The record quota holds in every run that starts within it: however writes, deletions, sweeps
      and quota changes interleave, an agent's active records in a namespace never outnumber the
      largest quota that was in force. */
  lemma {:induction false} QuotaHolds(st: State, seal: Cipher, steps: seq<Step>,
                                      target: string, namespace: string, bound: int, now: int)
    requires forall step | step in steps :: Past(step, now)
    requires forall i | 0 <= i <= |steps| :: Allows(Run(st, seal, steps[..i]).directory, target, namespace, bound)
    requires ActiveCount(st.store, target, namespace, now) <= bound
    ensures ActiveCount(Run(st, seal, steps).store, target, namespace, now) <= bound
  {
    if steps != [] {
      var before, step := steps[..|steps| - 1], steps[|steps| - 1];
      forall i | 0 <= i <= |before|
        ensures Allows(Run(st, seal, before[..i]).directory, target, namespace, bound)
      {
        assert before[..i] == steps[..i];
      }
      QuotaHolds(st, seal, before, target, namespace, bound, now);
      var was := Run(st, seal, before);
      assert step in steps && Past(step, now);
      assert before[..|before|] == before;
      if step.Purge? {
        SweepInvisible(was.store, step.now, step.retention, target, namespace, None, now, 0);
      } else if step.Handle? && step.req.Delete? {
        MarkingCountsLess(was.store.records, step.req.id, step.req.target, step.req.namespace, step.req.now,
                          Matching(target, namespace, None, now));
      } else if step.Handle? && Next(was, seal, step) != was {
        WriteKeepsQuota(was.directory, was.store, seal, step.req, target, namespace, bound, now);
      }
    }
  }

  lemma {:induction false} CatalogKept(st: State, seal: Cipher, steps: seq<Step>)
    ensures Run(st, seal, steps).directory.catalog == st.directory.catalog
  {
    if steps != [] {
      CatalogKept(st, seal, steps[..|steps| - 1]);
    }
  }

  /** While quotas are never lowered, the current one holds. */
  lemma CurrentQuotaHolds(st: State, seal: Cipher, steps: seq<Step>, target: string, namespace: string, now: int)
    requires namespace in st.directory.catalog
    requires forall step | step in steps :: Past(step, now)
    requires NeverLowered(st, seal, steps, target, namespace)
    requires ActiveCount(st.store, target, namespace, now) <= QuotaOf(st.directory, target, namespace).maxRecords
    ensures namespace in Run(st, seal, steps).directory.catalog
    ensures ActiveCount(Run(st, seal, steps).store, target, namespace, now)
         <= QuotaOf(Run(st, seal, steps).directory, target, namespace).maxRecords
  {
    CatalogKept(st, seal, steps);
    assert steps[..|steps|] == steps && steps[..0] == [];
    var bound := QuotaOf(Run(st, seal, steps).directory, target, namespace).maxRecords;
    forall i | 0 <= i <= |steps|
      ensures Allows(Run(st, seal, steps[..i]).directory, target, namespace, bound)
    {
      CatalogKept(st, seal, steps[..i]);
      assert QuotaRises(st, seal, steps, target, namespace, i, |steps|);
    }
    QuotaHolds(st, seal, steps, target, namespace, bound, now);
  }

  ghost predicate QuotaRises(st: State, seal: Cipher, steps: seq<Step>, target: string, namespace: string,
                             i: nat, j: nat)
    requires i <= |steps| && j <= |steps|
  {
    var early, late := Run(st, seal, steps[..i]).directory, Run(st, seal, steps[..j]).directory;
    namespace in early.catalog && namespace in late.catalog ==>
      QuotaOf(early, target, namespace).maxRecords <= QuotaOf(late, target, namespace).maxRecords
  }

  ghost predicate NeverLowered(st: State, seal: Cipher, steps: seq<Step>, target: string, namespace: string)
  {
    forall i, j | 0 <= i <= j <= |steps| :: QuotaRises(st, seal, steps, target, namespace, i, j)
  }

  /** A step of somebody else, without a grant. */
  predicate Foreign(step: Step, agent: string)
  {
    step.Handle? ==> step.req.source != agent && step.req.grant == ""
  }

  lemma {:induction false} MarkingOthers(rs: seq<Record>, id: Id, agent: string, namespace: string, now: int,
                                         p: Record -> bool)
    requires forall r: Record | p(r) :: r.agent != agent
    ensures Filter(p, MarkDeleted(rs, id, agent, namespace, now)) == Filter(p, rs)
  {
    if rs != [] {
      var marked := MarkDeleted(rs, id, agent, namespace, now);
      assert marked[1..] == MarkDeleted(rs[1..], id, agent, namespace, now);
      assert Deletable(rs[0], id, agent, namespace) ==> marked[0].agent == agent;
      MarkingOthers(rs[1..], id, agent, namespace, now, p);
    }
  }

  lemma ForeignRequest(st: State, seal: Cipher, req: Request, agent: string, p: Record -> bool)
    requires req.source != agent && req.grant == ""
    requires forall r: Record | p(r) :: r.agent == agent
    ensures Filter(p, Next(st, seal, Handle(req)).store.records) == Filter(p, st.store.records)
  {
    var s := st.store;
    if Next(st, seal, Handle(req)) != st {
      assert !Faulty(st.directory, s, req, GrantDenied);
      if req.Delete? {
        MarkingOthers(s.records, req.id, req.target, req.namespace, req.now, p);
      } else {
        var created := Performed(st.directory, s, seal, req).records[|s.records|];
        assert created.agent == req.target;
        FilterConcat(p, s.records, [created]);
      }
    }
  }

  /** Isolation: as long as nobody else holds a grant, whatever they send, and however the sweeper
      runs, every key and list query of an agent's own memory keeps its answer. */
  lemma {:induction false} OthersCannotTouch(st: State, seal: Cipher, steps: seq<Step>, agent: string,
                                             namespace: string, key: Option<string>, now: int, limit: nat)
    requires forall step | step in steps :: Past(step, now) && Foreign(step, agent)
    ensures Query(Run(st, seal, steps).store, agent, namespace, key, now, limit)
         == Query(st.store, agent, namespace, key, now, limit)
  {
    if steps != [] {
      var before, step := steps[..|steps| - 1], steps[|steps| - 1];
      OthersCannotTouch(st, seal, before, agent, namespace, key, now, limit);
      var was := Run(st, seal, before);
      assert step in steps && Past(step, now) && Foreign(step, agent);
      if step.Purge? {
        SweepInvisible(was.store, step.now, step.retention, agent, namespace, key, now, limit);
      } else if step.Handle? {
        ForeignRequest(was, seal, step.req, agent, Matching(agent, namespace, key, now));
      }
    }
  }

  // Isolation of semantic queries

  lemma RequestConsistent(st: State, seal: Cipher, req: Request)
    requires Consistent(st.store)
    ensures Consistent(Next(st, seal, Handle(req)).store)
  {
    if Next(st, seal, Handle(req)) != st {
      match req
      case Write(_, target, namespace, _, key, content, _, _, _, _, now) =>
        var stored := if st.directory.encrypting then seal(target, content) else content;
        CreateConsistent(st.store, Create(target, namespace, key, stored, Expiry(st.directory, req), now));
      case Delete(_, target, namespace, _, id, now) =>
        assert !Faulty(st.directory, st.store, req, RecordNotFound);
        SoftDeleteConsistent(st.store, SoftDelete(id, target, namespace, now));
    }
  }

  lemma {:induction false} RunConsistent(st: State, seal: Cipher, steps: seq<Step>)
    requires Consistent(st.store)
    ensures Consistent(Run(st, seal, steps).store)
  {
    if steps != [] {
      var was, step := Run(st, seal, steps[..|steps| - 1]), steps[|steps| - 1];
      RunConsistent(st, seal, steps[..|steps| - 1]);
      match step
      case Handle(req) => RequestConsistent(was, seal, req);
      case Purge(now, retention) => SweepConsistent(was.store, now, retention);
      case ChangeQuota(_, _, _) =>
    }
  }

  /** The entries of the agent's own live records. */
  function Own(s: Store, agent: string, namespace: string, now: int): seq<Entry>
  {
    Filter(Qualifies(s, agent, namespace, now), s.entries)
  }

  lemma ForeignWriteKeepsOwn(s: Store, target: string, space: string, key: Option<string>, content: string,
                             expiresAt: Option<int>, created: int, agent: string, namespace: string, now: int)
    requires Consistent(s) && target != agent
    ensures Own(Created(s, target, space, key, content, expiresAt, created), agent, namespace, now)
         == Own(s, agent, namespace, now)
  {
    var s' := Created(s, target, space, key, content, expiresAt, created);
    var p, p', e := Qualifies(s, agent, namespace, now), Qualifies(s', agent, namespace, now), s'.entries[|s.entries|];
    FilterConcat(p', s.entries, [e]);
    forall d | d in s.entries
      ensures p'(d) == p(d)
    {
      assert HasRecord(s, d);
      assert forall r | r in s.records :: r in s'.records;
    }
    FilterSame(p', p, s.entries);
    forall r | r in s'.records && r.id == e.id
      ensures r.agent == target
    {
    }
    NotTheAgent(s', e, target, agent, namespace, now);
  }

  lemma NotTheAgent(s: Store, e: Entry, owner: string, agent: string, namespace: string, now: int)
    requires owner != agent && forall r | r in s.records && r.id == e.id :: r.agent == owner
    ensures !Qualifies(s, agent, namespace, now)(e)
  {
    forall r | r in s.records && r.id == e.id
      ensures !Matching(agent, namespace, None, now)(r)
    {
    }
  }

  lemma ForeignDeleteKeepsOwn(s: Store, id: Id, target: string, space: string, deleted: int,
                              agent: string, namespace: string, now: int)
    requires Consistent(s) && target != agent && CanDelete(s, id, target, space)
    ensures Own(SoftDeleted(s, id, target, space, deleted), agent, namespace, now) == Own(s, agent, namespace, now)
  {
    var s', other := SoftDeleted(s, id, target, space, deleted), OtherEntries(id);
    var p, p' := Qualifies(s, agent, namespace, now), Qualifies(s', agent, namespace, now);
    FilterMembers(other, s.entries);
    forall e | e in s.entries
      ensures e.id != id ==> p'(e) == p(e)
      ensures e.id == id ==> !p(e)
    {
      if e.id == id {
        DeletedIsForeign(s, id, target, space);
        NotTheAgent(s, e, target, agent, namespace, now);
      } else {
        SameOwner(s, id, target, space, deleted, e, agent, namespace, now);
      }
    }
    FilterSame(p', p, Filter(other, s.entries));
    FilterFilter(p, other, s.entries);
  }

  lemma DeletedIsForeign(s: Store, id: Id, target: string, space: string)
    requires Consistent(s) && CanDelete(s, id, target, space)
    ensures forall r | r in s.records && r.id == id :: r.agent == target
  {
    var gone :| gone in s.records && Deletable(gone, id, target, space);
    forall r | r in s.records && r.id == id
      ensures r.agent == target
    {
      UniqueByEqual(RecordId(), s.records, r, gone);
    }
  }

  lemma SameOwner(s: Store, id: Id, target: string, space: string, deleted: int, e: Entry,
                  agent: string, namespace: string, now: int)
    requires CanDelete(s, id, target, space) && e.id != id
    ensures Qualifies(SoftDeleted(s, id, target, space, deleted), agent, namespace, now)(e)
         == Qualifies(s, agent, namespace, now)(e)
  {
    var s' := SoftDeleted(s, id, target, space, deleted);
    assert forall i | 0 <= i < |s.records| && s.records[i].id != id :: s'.records[i] == s.records[i];
    forall r: Record | r.id == e.id
      ensures r in s.records <==> r in s'.records
    {
      if r in s.records {
        var i :| 0 <= i < |s.records| && s.records[i] == r;
        assert s'.records[i] == r;
      }
      if r in s'.records {
        var i :| 0 <= i < |s'.records| && s'.records[i] == r;
        assert s.records[i] == r;
      }
    }
  }

  lemma SweepKeepsOwn(s: Store, swept: int, retention: int, agent: string, namespace: string, now: int)
    requires Consistent(s) && swept <= now
    ensures Own(Swept(s, swept, retention), agent, namespace, now) == Own(s, agent, namespace, now)
  {
    var q, p := SparedEntry(s, swept, retention), Qualifies(s, agent, namespace, now);
    forall e
      ensures p(e) ==> q(e)
      ensures p(e) == Qualifies(Swept(s, swept, retention), agent, namespace, now)(e)
    {
      QualifiesAfterSweep(s, swept, retention, agent, namespace, now, e);
    }
    FilterSame(Qualifies(Swept(s, swept, retention), agent, namespace, now), p, Filter(q, s.entries));
    FilterFilter(p, q, s.entries);
  }

  lemma ForeignStepKeepsOwn(st: State, seal: Cipher, step: Step, agent: string, namespace: string, now: int)
    requires Consistent(st.store) && Past(step, now) && Foreign(step, agent)
    ensures Own(Next(st, seal, step).store, agent, namespace, now) == Own(st.store, agent, namespace, now)
  {
    if step.Purge? {
      SweepKeepsOwn(st.store, step.now, step.retention, agent, namespace, now);
    } else if step.Handle? && Next(st, seal, step) != st {
      var req := step.req;
      assert !Faulty(st.directory, st.store, req, GrantDenied);
      match req
      case Write(_, target, space, _, key, content, _, _, _, _, created) =>
        var stored := if st.directory.encrypting then seal(target, content) else content;
        ForeignWriteKeepsOwn(st.store, target, space, key, stored, Expiry(st.directory, req), created,
                             agent, namespace, now);
      case Delete(_, target, space, _, id, deleted) =>
        assert !Faulty(st.directory, st.store, req, RecordNotFound);
        ForeignDeleteKeepsOwn(st.store, id, target, space, deleted, agent, namespace, now);
    }
  }

  lemma {:induction false} ForeignRunKeepsOwn(st: State, seal: Cipher, steps: seq<Step>, agent: string,
                                              namespace: string, now: int)
    requires Consistent(st.store)
    requires forall step | step in steps :: Past(step, now) && Foreign(step, agent)
    ensures Own(Run(st, seal, steps).store, agent, namespace, now) == Own(st.store, agent, namespace, now)
  {
    if steps != [] {
      var before, step := steps[..|steps| - 1], steps[|steps| - 1];
      ForeignRunKeepsOwn(st, seal, before, agent, namespace, now);
      RunConsistent(st, seal, before);
      assert step in steps;
      ForeignStepKeepsOwn(Run(st, seal, before), seal, step, agent, namespace, now);
    }
  }

  /** What isolation means for semantic queries: steps of others leave the exact answer alone, and the
      answers given before and after them are both initial parts of it.  So they may only differ in
      where they stop. */
  lemma OthersOnlyCutSemantic(st: State, seal: Cipher, steps: seq<Step>, dist: Distance, agent: string,
                              namespace: string, now: int, limit: nat)
    requires Consistent(st.store)
    requires forall step | step in steps :: Past(step, now) && Foreign(step, agent)
    ensures var s, s' := st.store, Run(st, seal, steps).store;
      var exact := BruteForce(s, dist, agent, namespace, now, limit);
      && BruteForce(s', dist, agent, namespace, now, limit) == exact
      && Semantic(s, dist, agent, namespace, now, limit) <= exact
      && Semantic(s', dist, agent, namespace, now, limit) <= exact
  {
    ForeignRunKeepsOwn(st, seal, steps, agent, namespace, now);
    SearchShapes(st.store, dist, agent, namespace, now, limit);
    SearchShapes(Run(st, seal, steps).store, dist, agent, namespace, now, limit);
  }
}
