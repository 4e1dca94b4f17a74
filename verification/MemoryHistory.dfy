/** What a memory query answers, told from the requests that the service has handled. */
module MemoryHistory {
  import opened Common
  import opened MemoryStore
  import opened MemoryService
  import opened MemoryLaws

  /** Step `i` was an accepted write of the record. */
  ghost predicate WrittenBy(st: State, seal: Cipher, steps: seq<Step>, i: nat, r: Record)
  {
    && i < |steps| && steps[i].Handle?
    && var was := MemoryLaws.Run(st, seal, steps[..i]);
       WriteAccepted(was.directory, was.store, steps[i].req)
       && RecordOf(was.directory, was.store.next, seal, steps[i].req, r)
  }

  /** Step `j` was a deletion of the record that its own agent, or a holder of a grant, could make. */
  ghost predicate DeletedBy(st: State, seal: Cipher, steps: seq<Step>, j: nat, r: Record)
  {
    && j < |steps| && steps[j].Handle? && steps[j].req.Delete?
    && var req := steps[j].req;
       && req.id == r.id && req.target == r.agent && req.namespace == r.namespace
       && MayUse(MemoryLaws.Run(st, seal, steps[..j]).directory, req)
  }

  /** The record was written, has not expired, and has not been deleted since. */
  ghost predicate Stands(st: State, seal: Cipher, steps: seq<Step>, now: int, r: Record)
  {
    && (r.expiresAt.None? || now < r.expiresAt.value)
    && exists i :: WrittenBy(st, seal, steps, i, r) && !DeletedAfter(st, seal, steps, i, r)
  }

  ghost predicate DeletedAfter(st: State, seal: Cipher, steps: seq<Step>, i: nat, r: Record)
  {
    exists j :: i < j && DeletedBy(st, seal, steps, j, r)
  }

  // One step

  /** What a step does to the live records. */
  ghost predicate LiveAfter(st: State, seal: Cipher, step: Step, now: int, r: Record)
  {
    || (r in st.store.records && Live(r, now)
        && !(step.Handle? && step.req.Delete? && step.req.id == r.id && step.req.target == r.agent
             && step.req.namespace == r.namespace && MayUse(st.directory, step.req)))
    || (step.Handle? && WriteAccepted(st.directory, st.store, step.req) && Live(r, now)
        && RecordOf(st.directory, st.store.next, seal, step.req, r))
  }

  lemma WriteStep(st: State, seal: Cipher, step: Step, now: int, r: Record)
    requires Consistent(st.store) && step.Handle? && step.req.Write?
    ensures r in Next(st, seal, step).store.records && Live(r, now) <==> LiveAfter(st, seal, step, now, r)
  {
    AcceptedIff(st.directory, st.store, step.req);
  }

  lemma DeleteStep(st: State, seal: Cipher, step: Step, now: int, r: Record)
    requires Consistent(st.store) && step.Handle? && step.req.Delete?
    ensures r in Next(st, seal, step).store.records && Live(r, now) <==> LiveAfter(st, seal, step, now, r)
  {
    var req, s := step.req, st.store;
    DeleteAcceptedIff(st.directory, s, req);
    if MayUse(st.directory, req) {
      DeletedRecords(s, req.id, req.target, req.namespace, req.now);
      LiveAfterDelete(s.records, req.id, req.target, req.namespace, req.now, now);
      var marked := MarkDeleted(s.records, req.id, req.target, req.namespace, req.now);
      FilterMembers(LiveAt(now), marked);
      FilterMembers(LiveAt(now), s.records);
      FilterMembers(NotDeletable(req.id, req.target, req.namespace), Filter(LiveAt(now), s.records));
      assert r in marked && Live(r, now) <==> r in Filter(LiveAt(now), marked);
    }
  }

  lemma PurgeStep(st: State, seal: Cipher, step: Step, now: int, r: Record)
    requires step.Purge? && step.now <= now
    ensures r in Next(st, seal, step).store.records && Live(r, now) <==> LiveAfter(st, seal, step, now, r)
  {
    FilterMembers(Spared(step.now, step.retention), st.store.records);
  }

  lemma OneStep(st: State, seal: Cipher, step: Step, now: int, r: Record)
    requires Consistent(st.store) && (step.Purge? ==> step.now <= now)
    ensures r in Next(st, seal, step).store.records && Live(r, now) <==> LiveAfter(st, seal, step, now, r)
  {
    match step
    case Handle(Write(_, _, _, _, _, _, _, _, _, _, _)) => WriteStep(st, seal, step, now, r);
    case Handle(Delete(_, _, _, _, _, _)) => DeleteStep(st, seal, step, now, r);
    case Purge(_, _) => PurgeStep(st, seal, step, now, r);
    case ChangeQuota(_, _, _) =>
  }

  // Whole runs

  lemma EarlierSame(st: State, seal: Cipher, steps: seq<Step>, i: nat, r: Record)
    requires steps != [] && i < |steps| - 1
    ensures var before := steps[..|steps| - 1];
      && (WrittenBy(st, seal, before, i, r) <==> WrittenBy(st, seal, steps, i, r))
      && (DeletedBy(st, seal, before, i, r) <==> DeletedBy(st, seal, steps, i, r))
  {
    assert steps[..|steps| - 1][..i] == steps[..i];
  }

  /** How the last step changes what stands. */
  lemma StandsStep(st: State, seal: Cipher, steps: seq<Step>, now: int, r: Record)
    requires steps != []
    ensures var before, last := steps[..|steps| - 1], |steps| - 1;
      Stands(st, seal, steps, now, r) <==>
        || (Stands(st, seal, before, now, r) && !DeletedBy(st, seal, steps, last, r))
        || ((r.expiresAt.None? || now < r.expiresAt.value) && WrittenBy(st, seal, steps, last, r))
  {
    var before, last := steps[..|steps| - 1], |steps| - 1;
    forall i: nat | i < last
      ensures WrittenBy(st, seal, before, i, r) <==> WrittenBy(st, seal, steps, i, r)
      ensures DeletedBy(st, seal, before, i, r) <==> DeletedBy(st, seal, steps, i, r)
    {
      EarlierSame(st, seal, steps, i, r);
    }
    forall i: nat | i < last
      ensures DeletedAfter(st, seal, steps, i, r) <==>
              DeletedAfter(st, seal, before, i, r) || DeletedBy(st, seal, steps, last, r)
    {
    }
    assert !DeletedAfter(st, seal, steps, last, r);
  }

  /** The live records of any run are exactly the ones that an accepted write left, that have not expired,
      and that no permitted request has deleted since. */
  lemma {:induction false} LiveIffStands(st: State, seal: Cipher, steps: seq<Step>, now: int, r: Record)
    requires st.store == EMPTY && forall step | step in steps && step.Purge? :: step.now <= now
    ensures r in MemoryLaws.Run(st, seal, steps).store.records && Live(r, now) <==> Stands(st, seal, steps, now, r)
  {
    if steps != [] {
      var before, step := steps[..|steps| - 1], steps[|steps| - 1];
      assert step in steps;
      LiveIffStands(st, seal, before, now, r);
      RunConsistent(st, seal, before);
      OneStep(MemoryLaws.Run(st, seal, before), seal, step, now, r);
      StandsStep(st, seal, steps, now, r);
    }
  }

  // Queries

  /** The record stands, and is what the query asks for. */
  ghost predicate Wanted(st: State, seal: Cipher, steps: seq<Step>, agent: string, namespace: string,
                         key: Option<string>, now: int, r: Record)
  {
    && Stands(st, seal, steps, now, r)
    && r.agent == agent && r.namespace == namespace && (key.None? || r.key == key)
  }

  /** Key and list queries answer with at most `limit` records, newest first and none twice; all are wanted,
      and a wanted one is left out only for as many that are no older. */
  lemma QueryAnswers(st: State, seal: Cipher, steps: seq<Step>, agent: string, namespace: string,
                     key: Option<string>, now: int, limit: nat)
    requires st.store == EMPTY && forall step | step in steps && step.Purge? :: step.now <= now
    ensures var found := Query(MemoryLaws.Run(st, seal, steps).store, agent, namespace, key, now, limit);
      && |found| <= limit
      && (forall i, j | 0 <= i < j < |found| :: found[i].updatedAt >= found[j].updatedAt && found[i].id != found[j].id)
      && (forall r | r in found :: Wanted(st, seal, steps, agent, namespace, key, now, r))
      && (forall r | Wanted(st, seal, steps, agent, namespace, key, now, r) && r !in found ::
            |found| == limit && forall q | q in found :: q.updatedAt >= r.updatedAt)
  {
    var s := MemoryLaws.Run(st, seal, steps).store;
    RunConsistent(st, seal, steps);
    QueryMeans(s, agent, namespace, key, now, limit);
    forall r
      ensures r in s.records && Asked(agent, namespace, key, now, r) <==>
              Wanted(st, seal, steps, agent, namespace, key, now, r)
    {
      LiveIffStands(st, seal, steps, now, r);
    }
  }
}
