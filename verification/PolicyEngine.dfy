/** The policy engine: a request is decided by the rules in force, which are then read field by field. */
module PolicyEngine {
  import opened Common
  import opened PolicyRules
  import opened PolicyDecision

  // What the rules say about a request

  ghost predicate Grants(glob: Glob, r: Rule, f: Facts)
  {
    r.effect == Allow && Covers(glob, r, f) && Satisfied(glob, r.condition, f)
  }

  ghost predicate Forbids(glob: Glob, r: Rule, f: Facts)
  {
    r.effect == Deny && Covers(glob, r, f) && Satisfied(glob, r.condition, f)
  }

  /** A rule asks for elevation if it says so for a condition that fails, or as its effect. */
  ghost predicate Escalates(glob: Glob, r: Rule, f: Facts)
  {
    && Covers(glob, r, f)
    && if Satisfied(glob, r.condition, f) then r.effect == Elevate else r.elseElevate
  }

  /** What each rule says about a request. */
  datatype Voice = Voice(covers: bool, grants: bool, forbids: bool, escalates: bool, quota: bool) {
    predicate Decides() { grants || forbids || escalates }
  }

  ghost function VoiceOn(glob: Glob, f: Facts): Rule -> Voice
  {
    (r: Rule) => Voice(Covers(glob, r, f), Grants(glob, r, f), Forbids(glob, r, f), Escalates(glob, r, f),
                       Covers(glob, r, f) && FirstUnmet(glob, r.condition, f, QuotaLimit))
  }

  /** Some rule grants the request, none of its priority or above forbids it, and none above it asks for
      elevation. */
  ghost predicate Allowed(rules: seq<Rule>, voice: Rule -> Voice)
  {
    exists r :: r in rules && voice(r).grants && forall q | q in rules ::
      (voice(q).forbids ==> q.priority < r.priority) && (voice(q).escalates ==> q.priority <= r.priority)
  }

  /** Some rule asks for elevation, and none of its priority or above grants or forbids the request. */
  ghost predicate Escalated(rules: seq<Rule>, voice: Rule -> Voice)
  {
    exists r :: r in rules && voice(r).escalates && forall q | q in rules ::
      voice(q).grants || voice(q).forbids ==> q.priority < r.priority
  }

  /** `p` is the highest priority at which a rule decides. */
  ghost predicate Top(rules: seq<Rule>, voice: Rule -> Voice, p: int)
  {
    && (exists r :: r in rules && voice(r).Decides() && r.priority == p)
    && (forall r | r in rules && voice(r).Decides() :: r.priority <= p)
  }

  /** A rule that covers the request fails first of all on its quota, and no rule of another priority
      decides. */
  ghost predicate QuotaBlocks(rules: seq<Rule>, voice: Rule -> Voice)
  {
    exists r :: r in rules && voice(r).quota && forall p :: Top(rules, voice, p) ==> r.priority == p
  }

  /** The user has a list of agents, and it neither has a star nor names this agent. */
  predicate AgentBarred(f: Facts)
  {
    f.allowedAgents != [] && "*" !in f.allowedAgents && f.agentId !in f.allowedAgents
  }

  /** There is no list of agents for the user, or it has the agent or the star on it. */
  predicate MayUseAgent(f: Facts)
  {
    |f.allowedAgents| == 0 || exists a :: a in f.allowedAgents && (a == "*" || a == f.agentId)
  }

  /** What the rules decide. */
  ghost function Ruling(glob: Glob, rules: seq<Rule>, f: Facts): Effect
  {
    if AgentBarred(f) then Deny
    else if Allowed(rules, VoiceOn(glob, f)) then Allow
    else if Escalated(rules, VoiceOn(glob, f)) then Elevate
    else Deny
  }

  ghost function RulingCode(glob: Glob, rules: seq<Rule>, f: Facts): Option<Code>
  {
    if !AgentBarred(f) && QuotaBlocks(rules, VoiceOn(glob, f)) then Some(QuotaExceeded)
    else
      match Ruling(glob, rules, f)
      case Allow => None
      case Elevate => Some(ElevationRequired)
      case Deny => Some(RbacDenied)
  }

  // The matches say what the rules say

  ghost predicate Echoes(m: RuleMatch, r: Rule, v: Voice)
  {
    && m.priority == r.priority
    && (Allows(m) <==> v.grants) && (Denies(m) <==> v.forbids) && (Elevates(m) <==> v.escalates)
    && (m.reason == Failed(QuotaLimit) <==> v.quota)
  }

  ghost predicate EchoesRule(m: RuleMatch, rules: seq<Rule>, voice: Rule -> Voice)
  {
    exists r :: r in rules && Echoes(m, r, voice(r))
  }

  ghost predicate Echoed(r: Rule, ms: seq<RuleMatch>, voice: Rule -> Voice)
  {
    exists m :: m in ms && Echoes(m, r, voice(r))
  }

  /** Every match echoes a rule, and every rule that covers the request is echoed; the others are silent. */
  ghost predicate Echo(ms: seq<RuleMatch>, rules: seq<Rule>, voice: Rule -> Voice)
  {
    && (forall m {:trigger EchoesRule(m, rules, voice)} | m in ms :: EchoesRule(m, rules, voice))
    && (forall r {:trigger Echoed(r, ms, voice)} | r in rules && voice(r).covers :: Echoed(r, ms, voice))
    && (forall r | r in rules && !voice(r).covers :: !voice(r).Decides() && !voice(r).quota)
  }

  lemma OneFirst(glob: Glob, c: Condition, f: Facts, field: Field, other: Field)
    requires FirstUnmet(glob, c, f, field) && FirstUnmet(glob, c, f, other)
    ensures field == other
  {
    assert Rank(field) == Rank(other);
  }

  lemma ReportEchoes(glob: Glob, r: Rule, f: Facts, m: RuleMatch)
    requires Reports(glob, r, f, m)
    ensures Echoes(m, r, VoiceOn(glob, f)(r))
  {
    if FirstUnmet(glob, r.condition, f, QuotaLimit) {
      assert !Meets(glob, r.condition, f, QuotaLimit);
      OneFirst(glob, r.condition, f, QuotaLimit, m.reason.field);
    }
  }

  lemma MatchesEcho(glob: Glob, rules: seq<Rule>, f: Facts)
    ensures Echo(MatchesOf(glob, rules, f), rules, VoiceOn(glob, f))
  {
    var ms, voice := MatchesOf(glob, rules, f), VoiceOn(glob, f);
    EveryMatchReports(glob, rules, rules, f);
    forall m | m in ms
      ensures EchoesRule(m, rules, voice)
    {
      assert FromRule(glob, rules, f, m);
      var r :| r in rules && Reports(glob, r, f, m);
      ReportEchoes(glob, r, f, m);
    }
    forall r | r in rules && voice(r).covers
      ensures Echoed(r, ms, voice)
    {
      assert Noted(glob, r, f, ms);
      var m :| m in ms && Reports(glob, r, f, m);
      ReportEchoes(glob, r, f, m);
    }
  }

  lemma RuleOf(ms: seq<RuleMatch>, rules: seq<Rule>, voice: Rule -> Voice, m: RuleMatch) returns (r: Rule)
    requires Echo(ms, rules, voice) && m in ms
    ensures r in rules && Echoes(m, r, voice(r))
  {
    assert EchoesRule(m, rules, voice);
    r :| r in rules && Echoes(m, r, voice(r));
  }

  lemma MatchOfRule(ms: seq<RuleMatch>, rules: seq<Rule>, voice: Rule -> Voice, r: Rule) returns (m: RuleMatch)
    requires Echo(ms, rules, voice) && r in rules && (voice(r).Decides() || voice(r).quota)
    ensures m in ms && Echoes(m, r, voice(r))
  {
    assert Echoed(r, ms, voice);
    m :| m in ms && Echoes(m, r, voice(r));
  }

  /** The match prevails as an allow exactly when its rule does. */
  lemma AllowedMeans(ms: seq<RuleMatch>, rules: seq<Rule>, voice: Rule -> Voice)
    requires Echo(ms, rules, voice)
    ensures AllowPrevails(ms) <==> Allowed(rules, voice)
  {
    if AllowPrevails(ms) {
      var m :| m in ms && Allows(m) && forall n | n in ms ::
        (Denies(n) ==> n.priority < m.priority) && (Elevates(n) ==> n.priority <= m.priority);
      var r := RuleOf(ms, rules, voice, m);
      forall q | q in rules && voice(q).Decides()
        ensures voice(q).forbids ==> q.priority < r.priority
        ensures voice(q).escalates ==> q.priority <= r.priority
      {
        var n := MatchOfRule(ms, rules, voice, q);
      }
      assert voice(r).grants;
    }
    if Allowed(rules, voice) {
      var r :| r in rules && voice(r).grants && forall q | q in rules ::
        (voice(q).forbids ==> q.priority < r.priority) && (voice(q).escalates ==> q.priority <= r.priority);
      var m := MatchOfRule(ms, rules, voice, r);
      forall n | n in ms
        ensures Denies(n) ==> n.priority < m.priority
        ensures Elevates(n) ==> n.priority <= m.priority
      {
        var q := RuleOf(ms, rules, voice, n);
      }
      assert Allows(m);
    }
  }

  lemma EscalatedMeans(ms: seq<RuleMatch>, rules: seq<Rule>, voice: Rule -> Voice)
    requires Echo(ms, rules, voice)
    ensures ElevationPrevails(ms) <==> Escalated(rules, voice)
  {
    if ElevationPrevails(ms) {
      var m :| m in ms && Elevates(m) && forall n | n in ms :: Denies(n) || Allows(n) ==> n.priority < m.priority;
      var r := RuleOf(ms, rules, voice, m);
      forall q | q in rules && (voice(q).grants || voice(q).forbids)
        ensures q.priority < r.priority
      {
        var n := MatchOfRule(ms, rules, voice, q);
      }
      assert voice(r).escalates;
    }
    if Escalated(rules, voice) {
      var r :| r in rules && voice(r).escalates && forall q | q in rules ::
        voice(q).grants || voice(q).forbids ==> q.priority < r.priority;
      var m := MatchOfRule(ms, rules, voice, r);
      forall n | n in ms && (Denies(n) || Allows(n))
        ensures n.priority < m.priority
      {
        var q := RuleOf(ms, rules, voice, n);
      }
      assert Elevates(m);
    }
  }

  lemma TopMeans(ms: seq<RuleMatch>, rules: seq<Rule>, voice: Rule -> Voice, p: int)
    requires Echo(ms, rules, voice)
    ensures DecidesAt(ms, p) <==> Top(rules, voice, p)
  {
    if DecidesAt(ms, p) {
      var m :| m in ms && Decisive(m) && m.priority == p;
      var r := RuleOf(ms, rules, voice, m);
      assert voice(r).Decides();
      forall q | q in rules && voice(q).Decides()
        ensures q.priority <= p
      {
        var n := MatchOfRule(ms, rules, voice, q);
      }
    }
    if Top(rules, voice, p) {
      var r :| r in rules && voice(r).Decides() && r.priority == p;
      var m := MatchOfRule(ms, rules, voice, r);
      assert Decisive(m);
      forall n | n in ms && Decisive(n)
        ensures n.priority <= p
      {
        var q := RuleOf(ms, rules, voice, n);
      }
    }
  }

  lemma QuotaMeans(ms: seq<RuleMatch>, rules: seq<Rule>, voice: Rule -> Voice)
    requires Echo(ms, rules, voice)
    ensures QuotaBlamed(ms) <==> QuotaBlocks(rules, voice)
  {
    forall p
      ensures DecidesAt(ms, p) <==> Top(rules, voice, p)
    {
      TopMeans(ms, rules, voice, p);
    }
    if QuotaBlamed(ms) {
      var m :| Reported(ms, m) && m.reason == Failed(QuotaLimit);
      var r := RuleOf(ms, rules, voice, m);
      assert voice(r).quota;
    }
    if QuotaBlocks(rules, voice) {
      var r :| r in rules && voice(r).quota && forall p :: Top(rules, voice, p) ==> r.priority == p;
      var m := MatchOfRule(ms, rules, voice, r);
      assert Reported(ms, m);
    }
  }

  /** The outcome for the matches is what the rules decide, with its code. */
  lemma RulingMeans(glob: Glob, rules: seq<Rule>, f: Facts)
    requires !AgentBarred(f)
    ensures Outcome(MatchesOf(glob, rules, f)) == Ruling(glob, rules, f)
    ensures OutcomeCode(MatchesOf(glob, rules, f)) == RulingCode(glob, rules, f)
  {
    var ms, voice := MatchesOf(glob, rules, f), VoiceOn(glob, f);
    MatchesEcho(glob, rules, f);
    AllowedMeans(ms, rules, voice);
    EscalatedMeans(ms, rules, voice);
    QuotaMeans(ms, rules, voice);
  }

  lemma EitherOr(rules: seq<Rule>, voice: Rule -> Voice)
    requires Allowed(rules, voice)
    ensures !Escalated(rules, voice)
  {
    var r :| r in rules && voice(r).grants && forall q | q in rules ::
      (voice(q).forbids ==> q.priority < r.priority) && (voice(q).escalates ==> q.priority <= r.priority);
    forall e | e in rules && voice(e).escalates
      ensures e.priority <= r.priority
    {
    }
  }

  /** The key is there exactly if the fact is, with its value. */
  predicate Carries(metadata: map<string, string>, key: string, fact: Option<string>)
  {
    (key in metadata <==> fact.Some?) && (fact.Some? && key in metadata ==> metadata[key] == fact.value)
  }

  /** The facts about the request that a decision hands on to the services. */
  predicate HandsOn(metadata: map<string, string>, f: Facts)
  {
    && Carries(metadata, "grant_id", f.grantId)
    && Carries(metadata, "target_agent_id", f.targetAgentId)
    && Carries(metadata, "quota_key", f.quotaKey)
    && Carries(metadata, "identity_channel", Some(f.identityChannel))
    && Carries(metadata, "auth_method", Some(f.authMethod))
    && Carries(metadata, "dangerous_action", Some(if f.dangerousAction then "True" else "False"))
    && Carries(metadata, "tool_name", f.toolName)
    && Carries(metadata, "tool_risk_level", Some(f.toolRiskLevel))
  }

  lemma {:induction false} MergedSame(ms: seq<RuleMatch>, facts: map<string, Option<string>>)
    requires ms != [] && forall m | m in ms :: m.metadata == facts
    ensures MergedMetadata(ms) == NonNull(facts)
  {
    var front := ms[..|ms| - 1];
    assert ms[|ms| - 1] in ms && forall m | m in front :: m in ms;
    if front != [] {
      MergedSame(front, facts);
    }
  }

  lemma FactsHanded(f: Facts)
    ensures HandsOn(NonNull(MetadataOf(f)), f)
  {
  }

  lemma ReportedFacts(glob: Glob, rules: seq<Rule>, f: Facts, reported: seq<RuleMatch>)
    requires reported != [] ==> forall m | m in reported :: m in MatchesOf(glob, rules, f)
    ensures reported != [] ==> HandsOn(MergedMetadata(reported), f)
  {
    if reported != [] {
      MergedSame(reported, MetadataOf(f));
      FactsHanded(f);
    }
  }

  const PRECHECK_MATCH := RuleMatch("allowed-agents-precheck", 1000, Deny, false, true, AgentNotAllowed, map[])

  /** The request is allowed if and only if the user may use the agent, some rule of the store grants the
      request in every field of its condition, and no rule of its priority or above stands against it. */
  method Evaluate(glob: Glob, store: RuleStore, f: Facts) returns (d: Decision)
    ensures d.decision == Allow <==> MayUseAgent(f) && Allowed(store.rules, VoiceOn(glob, f))
    ensures d.decision == Elevate <==> MayUseAgent(f) && Escalated(store.rules, VoiceOn(glob, f))
    ensures d.decision == Ruling(glob, store.rules, f) && d.code == RulingCode(glob, store.rules, f)
    ensures AgentBarred(f) ==>
              && d.matchedRules == [PRECHECK_MATCH] && d.metadata == map[]
              && d.trace == [AllowedAgentsPrecheck(f.agentId)]
    ensures !AgentBarred(f) ==>
              var ms := MatchesOf(glob, SortByPriority(store.rules), f);
              Correct(ms, d.(code := DefaultCode(d.decision))) && Explained(ms, d)
    ensures !AgentBarred(f) && d.matchedRules != [] ==> HandsOn(d.metadata, f)
  {
    if AgentBarred(f) {
      return Decision(Deny, [PRECHECK_MATCH], [AllowedAgentsPrecheck(f.agentId)], Some(RbacDenied), map[], false);
    }
    var ms := store.Evaluate(glob, f);
    OrderIrrelevant(glob, store.rules, f);
    RulingMeans(glob, store.rules, f);
    if Allowed(store.rules, VoiceOn(glob, f)) {
      EitherOr(store.rules, VoiceOn(glob, f));
    }
    d := Combine(ms);
    ReportedFacts(glob, SortByPriority(store.rules), f, d.matchedRules);
    if d.quotaFailed {
      d := d.(code := Some(QuotaExceeded));
    }
  }

  /** Sorting the rules changes neither decision nor code. */
  lemma OrderIrrelevant(glob: Glob, rules: seq<Rule>, f: Facts)
    ensures var ms, ns := MatchesOf(glob, SortByPriority(rules), f), MatchesOf(glob, rules, f);
      Outcome(ms) == Outcome(ns) && OutcomeCode(ms) == OutcomeCode(ns)
  {
    SortByMembers(HighestFirst(), rules);
    SameRulesSameMatches(glob, SortByPriority(rules), rules, f);
    SameSetSameOutcome(MatchesOf(glob, SortByPriority(rules), f), MatchesOf(glob, rules, f));
  }

  ghost predicate SameElements<T(!new)>(xs: seq<T>, ys: seq<T>)
  {
    forall x :: x in xs <==> x in ys
  }

  lemma SameRulesSameMatches(glob: Glob, rs: seq<Rule>, ts: seq<Rule>, f: Facts)
    requires SameElements(rs, ts)
    ensures SameElements(MatchesOf(glob, rs, f), MatchesOf(glob, ts, f))
  {
  }

  lemma SameSetSameOutcome(ms: seq<RuleMatch>, ns: seq<RuleMatch>)
    requires SameElements(ms, ns)
    ensures Outcome(ms) == Outcome(ns) && OutcomeCode(ms) == OutcomeCode(ns)
  {
    assert AllowPrevails(ms) <==> AllowPrevails(ns);
    assert ElevationPrevails(ms) <==> ElevationPrevails(ns);
    assert forall p :: DecidesAt(ms, p) <==> DecidesAt(ns, p);
    assert forall m :: Reported(ms, m) <==> Reported(ns, m);
  }
}
