/** The decision combiner and the policy engine.  The specification of a decision speaks of the
    matches as a set: which of them passes, at which priority, and what stands at or above it. */
module PolicyDecision {
  import opened Common
  import opened PolicyRules

  datatype Code = RbacDenied | ElevationRequired | QuotaExceeded

  datatype TraceStep =
    | AllowedAgentsPrecheck(agentId: string)
    | DefaultDeny(detail: string)
    | EvaluatePriority(priority: int)
    | DenyWins(ruleId: string)
    | RuleConflict(priority: int)
    | AllowBy(ruleId: string)
    | ElevateBy(ruleId: string)

  datatype Decision = Decision(
    decision: Effect,
    matchedRules: seq<RuleMatch>,
    trace: seq<TraceStep>,
    code: Option<Code>,
    metadata: map<string, string>,
    quotaFailed: bool)

  predicate Denies(m: RuleMatch) { m.effect == Deny && m.passed }
  predicate Allows(m: RuleMatch) { m.effect == Allow && m.passed }
  predicate SoftElevates(m: RuleMatch) { m.elseElevate && !m.passed }
  predicate HardElevates(m: RuleMatch) { m.effect == Elevate && m.passed }
  predicate Elevates(m: RuleMatch) { SoftElevates(m) || HardElevates(m) }
  predicate Decisive(m: RuleMatch) { Denies(m) || Allows(m) || Elevates(m) }

  /** Some passing allow has no passing deny at its priority or above and nothing elevating above it. */
  ghost predicate AllowPrevails(ms: seq<RuleMatch>)
  {
    exists m :: m in ms && Allows(m) &&
      forall n | n in ms ::
        (Denies(n) ==> n.priority < m.priority) && (Elevates(n) ==> n.priority <= m.priority)
  }

  /** Some elevating match has no passing deny or allow at its priority or above. */
  ghost predicate ElevationPrevails(ms: seq<RuleMatch>)
  {
    exists m :: m in ms && Elevates(m) &&
      forall n | n in ms :: Denies(n) || Allows(n) ==> n.priority < m.priority
  }

  ghost function Outcome(ms: seq<RuleMatch>): Effect
  {
    if AllowPrevails(ms) then Allow else if ElevationPrevails(ms) then Elevate else Deny
  }

  /** `p` is the highest priority at which some match is decisive. */
  ghost predicate DecidesAt(ms: seq<RuleMatch>, p: int)
  {
    && (exists m :: m in ms && Decisive(m) && m.priority == p)
    && (forall m | m in ms && Decisive(m) :: m.priority <= p)
  }

  /** The matches that a decision reports: those at the deciding priority, or all when none decides. */
  ghost predicate Reported(ms: seq<RuleMatch>, m: RuleMatch)
  {
    m in ms && forall p :: DecidesAt(ms, p) ==> m.priority == p
  }

  ghost predicate QuotaBlamed(ms: seq<RuleMatch>)
  {
    exists m :: Reported(ms, m) && m.reason == Failed(QuotaLimit)
  }

  ghost function OutcomeCode(ms: seq<RuleMatch>): Option<Code>
  {
    if QuotaBlamed(ms) then Some(QuotaExceeded) else
    match Outcome(ms)
    case Allow => None
    case Deny => Some(RbacDenied)
    case Elevate => Some(ElevationRequired)
  }

  function HasPriority(p: int): RuleMatch -> bool
  {
    (m: RuleMatch) => m.priority == p
  }

  function AtPriority(ms: seq<RuleMatch>, p: int): (group: seq<RuleMatch>)
  {
    Filter(HasPriority(p), ms)
  }

  lemma AtPriorityMembers(ms: seq<RuleMatch>, p: int)
    ensures forall m :: m in AtPriority(ms, p) <==> m in ms && m.priority == p
  {
    FilterMembers(HasPriority(p), ms);
  }

  lemma AtPrioritySnoc(ms: seq<RuleMatch>, m: RuleMatch, p: int)
    ensures AtPriority(ms + [m], p) == AtPriority(ms, p) + (if m.priority == p then [m] else [])
  {
    FilterConcat(HasPriority(p), ms, [m]);
  }

  function GroupAt(byPriority: map<int, seq<RuleMatch>>, p: int): seq<RuleMatch>
  {
    if p in byPriority then byPriority[p] else []
  }

  /** The dictionary holds the groups of `ms`, and `keys` its keys, each once. */
  ghost predicate Groups(byPriority: map<int, seq<RuleMatch>>, keys: seq<int>, ms: seq<RuleMatch>)
  {
    && (forall p :: GroupAt(byPriority, p) == AtPriority(ms, p))
    && (forall p | p in byPriority :: byPriority[p] != [])
    && (forall p :: p in keys <==> p in byPriority)
    && Unique(keys)
  }

  lemma GroupGrows(byPriority: map<int, seq<RuleMatch>>, ms: seq<RuleMatch>, m: RuleMatch, p: int)
    requires GroupAt(byPriority, p) == AtPriority(ms, p)
    ensures GroupAt(byPriority[m.priority := GroupAt(byPriority, m.priority) + [m]], p) == AtPriority(ms + [m], p)
  {
    AtPrioritySnoc(ms, m, p);
  }

  lemma GroupsGrow(byPriority: map<int, seq<RuleMatch>>, keys: seq<int>, ms: seq<RuleMatch>, m: RuleMatch)
    requires Groups(byPriority, keys, ms)
    ensures Groups(byPriority[m.priority := GroupAt(byPriority, m.priority) + [m]],
                   if m.priority in byPriority then keys else keys + [m.priority], ms + [m])
  {
    var grown := byPriority[m.priority := GroupAt(byPriority, m.priority) + [m]];
    forall p
      ensures GroupAt(grown, p) == AtPriority(ms + [m], p)
    {
      GroupGrows(byPriority, ms, m, p);
    }
  }

  lemma GroupsGrowAt(byPriority: map<int, seq<RuleMatch>>, keys: seq<int>, ms: seq<RuleMatch>, i: nat)
    requires i < |ms| && Groups(byPriority, keys, ms[..i])
    ensures Groups(byPriority[ms[i].priority := GroupAt(byPriority, ms[i].priority) + [ms[i]]],
                   if ms[i].priority in byPriority then keys else keys + [ms[i].priority], ms[..i + 1])
  {
    assert ms[..i + 1] == ms[..i] + [ms[i]];
    GroupsGrow(byPriority, keys, ms[..i], ms[i]);
  }

  lemma GroupsExact(byPriority: map<int, seq<RuleMatch>>, keys: seq<int>, ms: seq<RuleMatch>)
    requires Groups(byPriority, keys, ms)
    ensures forall p :: p in byPriority <==> AtPriority(ms, p) != []
    ensures forall p | p in byPriority :: byPriority[p] == AtPriority(ms, p)
  {
    forall p
      ensures p in byPriority <==> AtPriority(ms, p) != []
      ensures p in byPriority ==> byPriority[p] == AtPriority(ms, p)
    {
      assert GroupAt(byPriority, p) == AtPriority(ms, p);
    }
  }

  /** The dictionary of groups, and its keys in the order of insertion. */
  method GroupByPriority(ms: seq<RuleMatch>) returns (byPriority: map<int, seq<RuleMatch>>, keys: seq<int>)
    ensures Groups(byPriority, keys, ms)
  {
    byPriority, keys := map[], [];
    NoGroups();
    assert ms[..0] == [];
    for i := 0 to |ms|
      invariant Groups(byPriority, keys, ms[..i])
    {
      var m := ms[i];
      GroupsGrowAt(byPriority, keys, ms, i);
      keys := if m.priority in byPriority then keys else keys + [m.priority];
      byPriority := byPriority[m.priority := GroupAt(byPriority, m.priority) + [m]];
    }
    assert ms[..|ms|] == ms;
  }

  lemma NoGroups()
    ensures Groups(map[], [], [])
  {
  }

  predicate StrictlyDescending(xs: seq<int>)
  {
    forall i, j | 0 <= i < j < |xs| :: xs[i] > xs[j]
  }

  method SortedDescending(keys: seq<int>) returns (sorted: seq<int>)
    requires Unique(keys)
    ensures StrictlyDescending(sorted) && forall k :: k in sorted <==> k in keys
  {
    var up := SortedKeys(keys);
    var n := |up|;
    sorted := seq(n, i requires 0 <= i < n => up[n - 1 - i]);
    forall k | k in keys
      ensures k in sorted
    {
      var i :| 0 <= i < n && up[i] == k;
      assert sorted[n - 1 - i] == k;
    }
    assert forall i | 0 <= i < n :: sorted[i] in up;
  }

  function NonNull(m: map<string, Option<string>>): map<string, string>
  {
    map k | k in m && m[k].Some? :: m[k].value
  }

  /** Every key takes its value from the first match that has one. */
  function MergedMetadata(ms: seq<RuleMatch>): map<string, string>
  {
    if ms == [] then map[] else NonNull(ms[|ms| - 1].metadata) + MergedMetadata(ms[..|ms| - 1])
  }

  predicate Gives(ms: seq<RuleMatch>, i: nat, key: string)
  {
    i < |ms| && key in ms[i].metadata && ms[i].metadata[key].Some?
  }

  /** Match `i` is the first to give the key a value, and it is this one. */
  ghost predicate GivesFirst(ms: seq<RuleMatch>, i: nat, key: string, value: string)
  {
    Gives(ms, i, key) && ms[i].metadata[key] == Some(value) && forall j: nat | j < i :: !Gives(ms, j, key)
  }

  lemma {:induction false} MergedMeans(ms: seq<RuleMatch>, key: string)
    ensures if key in MergedMetadata(ms) then exists i :: GivesFirst(ms, i, key, MergedMetadata(ms)[key])
            else forall i: nat :: !Gives(ms, i, key)
  {
    if ms != [] {
      var front, last := ms[..|ms| - 1], |ms| - 1;
      MergedMeans(front, key);
      assert forall i: nat | i < last :: Gives(front, i, key) == Gives(ms, i, key);
      if key in MergedMetadata(front) {
        var i: nat :| GivesFirst(front, i, key, MergedMetadata(front)[key]);
        assert GivesFirst(ms, i, key, MergedMetadata(ms)[key]);
      } else if Gives(ms, last, key) {
        assert GivesFirst(ms, last, key, MergedMetadata(ms)[key]);
      }
    }
  }

  method Metadata(ms: seq<RuleMatch>) returns (metadata: map<string, string>, quotaFailed: bool)
    ensures metadata == MergedMetadata(ms)
    ensures forall key :: if key in metadata then exists i :: GivesFirst(ms, i, key, metadata[key])
                          else forall i: nat :: !Gives(ms, i, key)
    ensures quotaFailed <==> exists m :: m in ms && m.reason == Failed(QuotaLimit)
  {
    metadata := map[];
    quotaFailed := false;
    for i := 0 to |ms|
      invariant metadata == MergedMetadata(ms[..i])
      invariant quotaFailed <==> exists k | 0 <= k < i :: ms[k].reason == Failed(QuotaLimit)
    {
      assert ms[..i + 1][..i] == ms[..i];
      metadata := NonNull(ms[i].metadata) + metadata;
      quotaFailed := quotaFailed || ms[i].reason == Failed(QuotaLimit);
    }
    assert ms[..|ms|] == ms;
    forall key
      ensures if key in metadata then exists i :: GivesFirst(ms, i, key, metadata[key])
              else forall i: nat :: !Gives(ms, i, key)
    {
      MergedMeans(ms, key);
    }
  }

  /** `m` is the first match of its kind. */
  ghost predicate IsFirst(ms: seq<RuleMatch>, p: RuleMatch -> bool, m: RuleMatch)
  {
    m in ms && p(m) && exists k :: 0 <= k < |ms| && ms[k] == m && forall j | 0 <= j < k :: !p(ms[j])
  }

  /** The rule named for an elevation: the first that elevates for failing, or else for passing. */
  ghost predicate NamedForElevation(ms: seq<RuleMatch>, m: RuleMatch)
  {
    if exists n :: n in ms && SoftElevates(n) then IsFirst(ms, SoftElevates, m) else IsFirst(ms, HardElevates, m)
  }

  /** The first match of a kind, as a list comprehension followed by `[0]` finds it. */
  method FirstWhere(ms: seq<RuleMatch>, p: RuleMatch -> bool) returns (found: Option<RuleMatch>)
    ensures found.None? <==> forall m | m in ms :: !p(m)
    ensures found.Some? ==> IsFirst(ms, p, found.value)
  {
    for i := 0 to |ms|
      invariant forall k | 0 <= k < i :: !p(ms[k])
    {
      if p(ms[i]) {
        return Some(ms[i]);
      }
    }
    found := None;
  }

  function DefaultCode(decision: Effect): Option<Code>
  {
    match decision
    case Allow => None
    case Deny => Some(RbacDenied)
    case Elevate => Some(ElevationRequired)
  }

  /** What a group decides on its own, deny over allow over elevate, and how the trace says so. */
  ghost predicate GroupVerdict(group: seq<RuleMatch>, p: int, decision: Option<Effect>, steps: seq<TraceStep>)
  {
    match decision
    case None => (forall m | m in group :: !Decisive(m)) && steps == []
    case Some(Deny) =>
      exists m :: IsFirst(group, Denies, m) && steps == [DenyWins(m.ruleId)] +
        if exists n :: n in group && Allows(n) then [RuleConflict(p)] else []
    case Some(Allow) =>
      && (forall m | m in group :: !Denies(m))
      && exists m :: IsFirst(group, Allows, m) && steps == [AllowBy(m.ruleId)]
    case Some(Elevate) =>
      && (forall m | m in group :: !Denies(m) && !Allows(m))
      && exists m :: NamedForElevation(group, m) && steps == [ElevateBy(m.ruleId)]
  }

  method DecideGroup(group: seq<RuleMatch>, p: int) returns (decision: Option<Effect>, steps: seq<TraceStep>)
    ensures GroupVerdict(group, p, decision, steps)
    ensures forall q :: EvaluatePriority(q) !in steps
  {
    var deny := FirstWhere(group, Denies);
    var allow := FirstWhere(group, Allows);
    if deny.Some? {
      steps := [DenyWins(deny.value.ruleId)] + if allow.Some? then [RuleConflict(p)] else [];
      return Some(Deny), steps;
    }
    if allow.Some? {
      return Some(Allow), [AllowBy(allow.value.ruleId)];
    }
    var soft := FirstWhere(group, SoftElevates);
    if soft.Some? {
      return Some(Elevate), [ElevateBy(soft.value.ruleId)];
    }
    var hard := FirstWhere(group, HardElevates);
    if hard.Some? {
      return Some(Elevate), [ElevateBy(hard.value.ruleId)];
    }
    decision, steps := None, [];
  }

  lemma GroupSettles(ms: seq<RuleMatch>, p: int, decision: Effect, steps: seq<TraceStep>)
    requires DecidesAt(ms, p) && GroupVerdict(AtPriority(ms, p), p, Some(decision), steps)
    ensures decision == Outcome(ms)
  {
    var group := AtPriority(ms, p);
    AtPriorityMembers(ms, p);
    if decision == Allow {
      var m :| IsFirst(group, Allows, m);
      assert m in ms && Allows(m);
    } else if decision == Elevate {
      var m :| NamedForElevation(group, m);
      forall n | n in ms && (Allows(n) || Denies(n))
        ensures n.priority < m.priority
      {
        assert n.priority == p ==> n in group;
      }
    } else {
      var m :| IsFirst(group, Denies, m);
    }
  }

  lemma NothingDecides(ms: seq<RuleMatch>)
    requires forall m | m in ms :: !Decisive(m)
    ensures Outcome(ms) == Deny && forall m | m in ms :: Reported(ms, m)
  {
  }

  lemma PrefixIsAbove(levels: seq<int>, i: nat, q: int)
    requires StrictlyDescending(levels) && i < |levels|
    ensures q in levels[..i + 1] <==> q in levels && q >= levels[i]
  {
    if q in levels && q >= levels[i] {
      var k :| 0 <= k < |levels| && levels[k] == q;
      assert levels[..i + 1][k] == q;
    }
  }

  ghost predicate Undecided(ms: seq<RuleMatch>, p: int)
  {
    forall m | m in ms && m.priority == p :: !Decisive(m)
  }

  /** A group without a verdict leaves its priority undecided. */
  lemma NoVerdict(ms: seq<RuleMatch>, p: int, steps: seq<TraceStep>)
    requires GroupVerdict(AtPriority(ms, p), p, None, steps)
    ensures Undecided(ms, p)
  {
    AtPriorityMembers(ms, p);
  }

  lemma MembersAreGrouped(ms: seq<RuleMatch>, m: RuleMatch)
    requires m in ms
    ensures AtPriority(ms, m.priority) != []
  {
    AtPriorityMembers(ms, m.priority);
  }

  lemma AllUndecided(ms: seq<RuleMatch>, levels: seq<int>)
    requires forall q :: q in levels <==> AtPriority(ms, q) != []
    requires forall j | 0 <= j < |levels| :: Undecided(ms, levels[j])
    ensures forall m | m in ms :: !Decisive(m)
  {
    forall m | m in ms
      ensures !Decisive(m)
    {
      MembersAreGrouped(ms, m);
      var k :| 0 <= k < |levels| && levels[k] == m.priority;
      assert Undecided(ms, levels[k]);
    }
  }

  /** Descending through the levels, the first group with a verdict is the deciding one. */
  lemma FirstLevelDecides(ms: seq<RuleMatch>, levels: seq<int>, i: nat, decision: Effect, steps: seq<TraceStep>)
    requires StrictlyDescending(levels) && i < |levels|
    requires forall q :: q in levels <==> AtPriority(ms, q) != []
    requires forall j | 0 <= j < i :: Undecided(ms, levels[j])
    requires GroupVerdict(AtPriority(ms, levels[i]), levels[i], Some(decision), steps)
    ensures DecidesAt(ms, levels[i])
  {
    AtPriorityMembers(ms, levels[i]);
    var top :| top in AtPriority(ms, levels[i]) && Decisive(top);
    forall m | m in ms && Decisive(m)
      ensures m.priority <= levels[i]
    {
      NoneDecidesAbove(ms, levels, i, m);
    }
  }

  lemma NoneDecidesAbove(ms: seq<RuleMatch>, levels: seq<int>, i: nat, m: RuleMatch)
    requires StrictlyDescending(levels) && i < |levels|
    requires forall q :: q in levels <==> AtPriority(ms, q) != []
    requires forall j | 0 <= j < i :: Undecided(ms, levels[j])
    requires m in ms && Decisive(m)
    ensures m.priority <= levels[i]
  {
    MembersAreGrouped(ms, m);
    var k :| 0 <= k < |levels| && levels[k] == m.priority;
  }

  /** The trace holds the step that settled the request, for the first rule reported that did. */
  ghost predicate Justified(d: Decision)
  {
    exists m :: m in d.matchedRules &&
      match d.decision
      case Allow => IsFirst(d.matchedRules, Allows, m) && AllowBy(m.ruleId) in d.trace
      case Elevate => NamedForElevation(d.matchedRules, m) && ElevateBy(m.ruleId) in d.trace
      case Deny => IsFirst(d.matchedRules, Denies, m) && DenyWins(m.ruleId) in d.trace
  }

  /** The trace visits exactly the priorities that occur from the highest down to `p`. */
  ghost predicate Visits(ms: seq<RuleMatch>, trace: seq<TraceStep>, p: int)
  {
    forall q :: EvaluatePriority(q) in trace <==> q >= p && AtPriority(ms, q) != []
  }

  ghost predicate TraceOf(trace: seq<TraceStep>, levels: seq<int>)
  {
    forall q :: EvaluatePriority(q) in trace <==> q in levels
  }

  lemma TraceGrows(trace: seq<TraceStep>, levels: seq<int>, p: int, steps: seq<TraceStep>)
    requires TraceOf(trace, levels) && forall q :: EvaluatePriority(q) !in steps
    ensures TraceOf(trace + [EvaluatePriority(p)] + steps, levels + [p])
  {
  }

  lemma TraceVisits(ms: seq<RuleMatch>, trace: seq<TraceStep>, levels: seq<int>, i: nat)
    requires StrictlyDescending(levels) && i < |levels|
    requires forall q :: q in levels <==> AtPriority(ms, q) != []
    requires TraceOf(trace, levels[..i + 1])
    ensures Visits(ms, trace, levels[i])
  {
    forall q
      ensures q in levels[..i + 1] <==> q >= levels[i] && AtPriority(ms, q) != []
    {
      PrefixIsAbove(levels, i, q);
    }
  }

  lemma OneDecidingPriority(ms: seq<RuleMatch>, p: int)
    requires DecidesAt(ms, p)
    ensures forall q :: DecidesAt(ms, q) ==> q == p
    ensures forall m :: Reported(ms, m) <==> m in AtPriority(ms, p)
  {
    AtPriorityMembers(ms, p);
    var m :| m in ms && Decisive(m) && m.priority == p;
    forall q | DecidesAt(ms, q)
      ensures q == p
    {
      var n :| n in ms && Decisive(n) && n.priority == q;
    }
  }

  /** What a decision on `ms` has to be. */
  ghost predicate Correct(ms: seq<RuleMatch>, d: Decision)
  {
    && d.decision == Outcome(ms)
    && d.code == DefaultCode(d.decision)
    && (forall m :: m in d.matchedRules <==> Reported(ms, m))
    && (d.quotaFailed <==> QuotaBlamed(ms))
    && d.metadata == MergedMetadata(d.matchedRules)
  }

  /** At the deciding priority the decision reports the whole group and the trace explains it. */
  ghost predicate Explained(ms: seq<RuleMatch>, d: Decision)
  {
    forall p :: DecidesAt(ms, p) ==>
      d.matchedRules == AtPriority(ms, p) && Justified(d) && Visits(ms, d.trace, p)
  }

  /** The priorities that occur, highest first. */
  ghost predicate Levels(ms: seq<RuleMatch>, levels: seq<int>)
  {
    StrictlyDescending(levels) && forall q :: q in levels <==> AtPriority(ms, q) != []
  }

  /** The first `i` levels have been visited without a verdict. */
  ghost predicate Searched(ms: seq<RuleMatch>, levels: seq<int>, i: nat, trace: seq<TraceStep>)
  {
    && i <= |levels|
    && (forall j | 0 <= j < i :: Undecided(ms, levels[j]))
    && TraceOf(trace, levels[..i])
  }

  function Visited(trace: seq<TraceStep>, p: int, steps: seq<TraceStep>): seq<TraceStep>
  {
    trace + [EvaluatePriority(p)] + steps
  }

  lemma SearchGoesOn(ms: seq<RuleMatch>, levels: seq<int>, i: nat, trace: seq<TraceStep>)
    requires Searched(ms, levels, i, trace) && i < |levels|
    requires GroupVerdict(AtPriority(ms, levels[i]), levels[i], None, [])
    ensures Searched(ms, levels, i + 1, Visited(trace, levels[i], []))
  {
    assert levels[..i + 1] == levels[..i] + [levels[i]];
    TraceGrows(trace, levels[..i], levels[i], []);
    NoVerdict(ms, levels[i], []);
  }

  lemma SearchEnds(ms: seq<RuleMatch>, levels: seq<int>, i: nat, trace: seq<TraceStep>, decision: Effect,
                   steps: seq<TraceStep>)
    requires Levels(ms, levels) && Searched(ms, levels, i, trace) && i < |levels|
    requires GroupVerdict(AtPriority(ms, levels[i]), levels[i], Some(decision), steps)
    requires forall q :: EvaluatePriority(q) !in steps
    ensures DecidesAt(ms, levels[i]) && Visits(ms, Visited(trace, levels[i], steps), levels[i])
  {
    assert levels[..i + 1] == levels[..i] + [levels[i]];
    TraceGrows(trace, levels[..i], levels[i], steps);
    FirstLevelDecides(ms, levels, i, decision, steps);
    TraceVisits(ms, Visited(trace, levels[i], steps), levels, i);
  }

  /** Groups by priority, highest first; the first group with a decisive match settles the request. */
  method Combine(ms: seq<RuleMatch>) returns (d: Decision)
    ensures Correct(ms, d) && Explained(ms, d)
  {
    if ms == [] {
      d := DefaultDecision(ms, [], "No matching rules");
      return;
    }
    var byPriority, keys := GroupByPriority(ms);
    var levels := SortedDescending(keys);
    LevelsOf(ms, byPriority, keys, levels);
    var trace := [];
    for i := 0 to |levels|
      invariant Searched(ms, levels, i, trace)
    {
      var p := levels[i];
      var decision, steps := DecideGroup(byPriority[p], p);
      if decision.Some? {
        SearchEnds(ms, levels, i, trace, decision.value, steps);
        d := Settle(ms, p, byPriority[p], decision.value, steps, Visited(trace, p, steps));
        return;
      }
      SearchGoesOn(ms, levels, i, trace);
      trace := Visited(trace, p, steps);
    }
    AllUndecided(ms, levels);
    d := DefaultDecision(ms, trace, "No decisive rule");
  }

  lemma LevelsOf(ms: seq<RuleMatch>, byPriority: map<int, seq<RuleMatch>>, keys: seq<int>, levels: seq<int>)
    requires Groups(byPriority, keys, ms) && StrictlyDescending(levels)
    requires forall k :: k in levels <==> k in keys
    ensures Levels(ms, levels)
    ensures forall i | 0 <= i < |levels| ::
              levels[i] in byPriority && byPriority[levels[i]] == AtPriority(ms, levels[i])
  {
    GroupsExact(byPriority, keys, ms);
    assert forall i | 0 <= i < |levels| :: levels[i] in levels;
  }

  method DefaultDecision(ms: seq<RuleMatch>, trace: seq<TraceStep>, detail: string) returns (d: Decision)
    requires forall m | m in ms :: !Decisive(m)
    ensures Correct(ms, d) && Explained(ms, d)
  {
    NothingDecides(ms);
    var metadata, quotaFailed := Metadata(ms);
    d := Decision(Deny, ms, trace + [DefaultDeny(detail)], Some(RbacDenied), metadata, quotaFailed);
  }

  /** The decision that the deciding group stands for. */
  method Settle(ms: seq<RuleMatch>, p: int, group: seq<RuleMatch>, decision: Effect,
                steps: seq<TraceStep>, trace: seq<TraceStep>) returns (d: Decision)
    requires DecidesAt(ms, p) && group == AtPriority(ms, p) && Visits(ms, trace, p)
    requires GroupVerdict(group, p, Some(decision), steps) && forall step | step in steps :: step in trace
    ensures Correct(ms, d) && Explained(ms, d)
  {
    GroupSettles(ms, p, decision, steps);
    var metadata, quotaFailed := Metadata(group);
    d := Decision(decision, group, trace, DefaultCode(decision), metadata, quotaFailed);
    SettledCorrectly(ms, p, d);
    VerdictJustifies(p, steps, d);
    SettledExplained(ms, p, d);
  }

  lemma SettledCorrectly(ms: seq<RuleMatch>, p: int, d: Decision)
    requires DecidesAt(ms, p) && d.matchedRules == AtPriority(ms, p)
    requires d.decision == Outcome(ms) && d.code == DefaultCode(d.decision)
    requires d.metadata == MergedMetadata(d.matchedRules)
    requires d.quotaFailed <==> exists m :: m in d.matchedRules && m.reason == Failed(QuotaLimit)
    ensures Correct(ms, d)
  {
    OneDecidingPriority(ms, p);
    QuotaOfGroup(ms, d.matchedRules);
  }

  lemma QuotaOfGroup(ms: seq<RuleMatch>, group: seq<RuleMatch>)
    requires forall m :: Reported(ms, m) <==> m in group
    ensures QuotaBlamed(ms) <==> exists m :: m in group && m.reason == Failed(QuotaLimit)
  {
    if QuotaBlamed(ms) {
      var m :| Reported(ms, m) && m.reason == Failed(QuotaLimit);
      assert m in group;
    }
    if m :| m in group && m.reason == Failed(QuotaLimit) {
      assert Reported(ms, m);
    }
  }

  lemma SettledExplained(ms: seq<RuleMatch>, p: int, d: Decision)
    requires DecidesAt(ms, p) && d.matchedRules == AtPriority(ms, p) && Justified(d) && Visits(ms, d.trace, p)
    ensures Explained(ms, d)
  {
    OneDecidingPriority(ms, p);
  }

  lemma VerdictJustifies(p: int, steps: seq<TraceStep>, d: Decision)
    requires GroupVerdict(d.matchedRules, p, Some(d.decision), steps)
    requires forall step | step in steps :: step in d.trace
    ensures Justified(d)
  {
    assert steps[0] in steps;
  }
}
