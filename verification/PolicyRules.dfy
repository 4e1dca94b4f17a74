/** Policy rules: when a rule applies to a request, whether its conditions pass, and the rule store.
    Shell-style globbing is a parameter: `glob(value, pattern)`. */
module PolicyRules {
  import opened Common

  type Glob = (string, string) -> bool

  datatype Pattern = One(text: string) | Many(items: seq<string>)

  datatype Subject = Subject(
    role: Option<Pattern>,
    agentId: Option<Pattern>,
    userId: Option<Pattern>,
    groups: Option<Pattern>,
    identityChannel: Option<Pattern>,
    authMethod: Option<Pattern>)

  datatype Target = Target(agentId: Option<Pattern>, engine: Option<Pattern>, targetAgent: Option<Pattern>)

  /** The bound a behavioral signal is compared with: a value, or a set of comparisons. */
  datatype Bound =
    | Exactly(value: real)
    | Compare(eq: Option<real>, gt: Option<real>, gte: Option<real>, lt: Option<real>, lte: Option<real>)

  /** The behavioral signals that a rule can bound. */
  datatype Signal = MessageRateAnomaly | RepeatedGrantDenials | CrossAgentScopeSpike | ToolPatternDeviation

  datatype Condition = Condition(
    correlationChainValid: Option<bool>,
    triggeredBy: Option<string>,
    scope: Option<Pattern>,
    hasValidGrant: Option<bool>,
    identityVerified: Option<bool>,
    dangerousAction: Option<bool>,
    toolName: Option<Pattern>,
    toolRiskLevel: Option<Pattern>,
    dailyTokenLimit: Option<nat>,
    rateLimitRpm: Option<nat>,
    provider: Option<Pattern>,
    model: Option<Pattern>,
    toolExecutionMode: Option<Pattern>,
    providerToolsRequested: Option<bool>,
    signals: map<Signal, Bound>)

  datatype Effect = Allow | Deny | Elevate

  datatype Rule = Rule(
    id: string,
    priority: int,
    subject: Subject,
    target: Target,
    action: Option<Pattern>,
    condition: Condition,
    effect: Effect,
    elseElevate: bool)

  /** The facts about one request.  A boolean signal counts as 1.0 or 0.0. */
  datatype Facts = Facts(
    userId: Option<string>,
    role: string,
    agentId: string,
    engine: string,
    messageType: string,
    correlationChainValid: bool,
    triggeredBy: string,
    scope: string,
    hasValidGrant: bool,
    grantId: Option<string>,
    provider: Option<string>,
    model: Option<string>,
    groups: seq<string>,
    allowedAgents: seq<string>,
    targetAgentId: Option<string>,
    identityChannel: string,
    identityVerified: bool,
    authMethod: string,
    quotaKey: Option<string>,
    quotaWouldExceed: bool,
    toolName: Option<string>,
    toolRiskLevel: string,
    dangerousAction: bool,
    toolExecutionMode: string,
    providerToolsRequested: bool,
    signals: map<Signal, real>)

  /** What a condition can be about. */
  datatype Field =
    | ChainValid
    | TriggeredBy
    | Scope
    | ValidGrant
    | IdentityVerified
    | DangerousAction
    | ToolName
    | ToolRiskLevel
    | QuotaLimit
    | Provider
    | Model
    | ToolExecutionMode
    | ProviderTools
    | SignalBound(signal: Signal)

  datatype Reason = NoConditions | AllPassed | Failed(field: Field) | AgentNotAllowed

  datatype RuleMatch = RuleMatch(
    ruleId: string,
    priority: int,
    effect: Effect,
    elseElevate: bool,
    passed: bool,
    reason: Reason,
    metadata: map<string, Option<string>>)

  const SIGNALS := [MessageRateAnomaly, RepeatedGrantDenials, CrossAgentScopeSpike, ToolPatternDeviation]

  predicate MatchText(glob: Glob, pattern: string, value: string)
  {
    if pattern == "*" then true
    else if '*' in pattern || '?' in pattern then glob(value, pattern)
    else pattern == value
  }

  predicate MatchPattern(glob: Glob, pattern: Pattern, value: string)
  {
    match pattern
    case One(text) => MatchText(glob, text, value)
    case Many(items) => exists i | 0 <= i < |items| :: MatchText(glob, items[i], value)
  }

  /** An absent pattern accepts everything. */
  predicate Accepts(glob: Glob, pattern: Option<Pattern>, value: string)
  {
    pattern.Some? ==> MatchPattern(glob, pattern.value, value)
  }

  /** An absent or empty pattern accepts everything. */
  predicate AcceptsIfSet(glob: Glob, pattern: Option<Pattern>, value: string)
  {
    pattern.None? || pattern.value == One("") || pattern.value == Many([]) ||
    MatchPattern(glob, pattern.value, value)
  }

  function OrEmpty(s: Option<string>): string
  {
    if s.Some? then s.value else ""
  }

  predicate SubjectMatches(glob: Glob, s: Subject, f: Facts)
  {
    && Accepts(glob, s.role, f.role)
    && Accepts(glob, s.agentId, f.agentId)
    && Accepts(glob, s.userId, OrEmpty(f.userId))
    && (s.groups.Some? ==> exists i | 0 <= i < |f.groups| :: MatchPattern(glob, s.groups.value, f.groups[i]))
    && Accepts(glob, s.identityChannel, f.identityChannel)
    && Accepts(glob, s.authMethod, f.authMethod)
  }

  predicate TargetMatches(glob: Glob, t: Target, f: Facts)
  {
    && Accepts(glob, t.agentId, f.agentId)
    && Accepts(glob, t.engine, f.engine)
    && Accepts(glob, t.targetAgent, OrEmpty(f.targetAgentId))
  }

  /** Message types are globbed even when the pattern has no wildcard. */
  predicate ActionMatches(glob: Glob, action: Option<Pattern>, f: Facts)
  {
    match action
    case None => true
    case Some(One(text)) => glob(f.messageType, text)
    case Some(Many(items)) => exists i | 0 <= i < |items| :: glob(f.messageType, items[i])
  }

  predicate Applies(glob: Glob, rule: Rule, f: Facts)
  {
    SubjectMatches(glob, rule.subject, f) && TargetMatches(glob, rule.target, f) && ActionMatches(glob, rule.action, f)
  }

  predicate Within(actual: real, bound: Bound)
  {
    match bound
    case Exactly(value) => actual == value
    case Compare(eq, gt, gte, lt, lte) =>
      && (eq.Some? ==> actual == eq.value)
      && (gt.Some? ==> actual > gt.value)
      && (gte.Some? ==> actual >= gte.value)
      && (lt.Some? ==> actual < lt.value)
      && (lte.Some? ==> actual <= lte.value)
  }

  /** A missing signal satisfies no bound. */
  predicate SignalPasses(signals: map<Signal, real>, key: Signal, bound: Bound)
  {
    key in signals && Within(signals[key], bound)
  }

  function SignalsMatch(keys: seq<Signal>, wanted: map<Signal, Bound>, f: Facts): (bool, Reason)
  {
    if keys == [] then (true, AllPassed)
    else if keys[0] in wanted && !SignalPasses(f.signals, keys[0], wanted[keys[0]])
    then (false, Failed(SignalBound(keys[0])))
    else SignalsMatch(keys[1..], wanted, f)
  }

  const NO_CONDITION :=
    Condition(None, None, None, None, None, None, None, None, None, None, None, None, None, None, map[])

  /** The first failing condition decides the reason. */
  function ConditionsMatch(glob: Glob, c: Condition, f: Facts): (r: (bool, Reason))
  {
    if c == NO_CONDITION then (true, NoConditions)
    else if c.correlationChainValid.Some? && f.correlationChainValid != c.correlationChainValid.value
    then (false, Failed(ChainValid))
    else if c.triggeredBy.Some? && c.triggeredBy.value != "" && f.triggeredBy != c.triggeredBy.value
    then (false, Failed(TriggeredBy))
    else if !AcceptsIfSet(glob, c.scope, f.scope) then (false, Failed(Scope))
    else if c.hasValidGrant == Some(true) && !f.hasValidGrant then (false, Failed(ValidGrant))
    else if c.identityVerified.Some? && f.identityVerified != c.identityVerified.value
    then (false, Failed(IdentityVerified))
    else if c.dangerousAction.Some? && f.dangerousAction != c.dangerousAction.value
    then (false, Failed(DangerousAction))
    else if !AcceptsIfSet(glob, c.toolName, OrEmpty(f.toolName)) then (false, Failed(ToolName))
    else if !AcceptsIfSet(glob, c.toolRiskLevel, f.toolRiskLevel) then (false, Failed(ToolRiskLevel))
    else if (c.dailyTokenLimit.Some? || c.rateLimitRpm.Some?) && f.quotaWouldExceed then (false, Failed(QuotaLimit))
    else if !AcceptsIfSet(glob, c.provider, OrEmpty(f.provider)) then (false, Failed(Provider))
    else if !AcceptsIfSet(glob, c.model, OrEmpty(f.model)) then (false, Failed(Model))
    else if !AcceptsIfSet(glob, c.toolExecutionMode, f.toolExecutionMode) then (false, Failed(ToolExecutionMode))
    else if c.providerToolsRequested.Some? && f.providerToolsRequested != c.providerToolsRequested.value
    then (false, Failed(ProviderTools))
    else SignalsMatch(SIGNALS, c.signals, f)
  }

  function MetadataOf(f: Facts): map<string, Option<string>>
  {
    map["grant_id" := f.grantId,
        "target_agent_id" := f.targetAgentId,
        "quota_key" := f.quotaKey,
        "identity_channel" := Some(f.identityChannel),
        "auth_method" := Some(f.authMethod),
        "dangerous_action" := Some(if f.dangerousAction then "True" else "False"),
        "tool_name" := f.toolName,
        "tool_risk_level" := Some(f.toolRiskLevel)]
  }

  function MatchOf(glob: Glob, rule: Rule, f: Facts): RuleMatch
  {
    var (passed, reason) := ConditionsMatch(glob, rule.condition, f);
    RuleMatch(rule.id, rule.priority, rule.effect, rule.elseElevate, passed, reason, MetadataOf(f))
  }

  /** The matches of a list of rules, in the list's order. */
  function MatchesOf(glob: Glob, rules: seq<Rule>, f: Facts): (ms: seq<RuleMatch>)
    ensures forall m :: m in ms <==> exists r :: r in rules && Applies(glob, r, f) && m == MatchOf(glob, r, f)
  {
    if rules == [] then []
    else
      assert forall r :: r in rules <==> r == rules[0] || r in rules[1..];
      (if Applies(glob, rules[0], f) then [MatchOf(glob, rules[0], f)] else []) + MatchesOf(glob, rules[1..], f)
  }

  lemma {:induction false} MatchesOfSnoc(glob: Glob, rules: seq<Rule>, rule: Rule, f: Facts)
    ensures MatchesOf(glob, rules + [rule], f) ==
            MatchesOf(glob, rules, f) + (if Applies(glob, rule, f) then [MatchOf(glob, rule, f)] else [])
  {
    if rules == [] {
      assert [] + [rule] == [rule];
    } else {
      assert (rules + [rule])[1..] == rules[1..] + [rule];
      MatchesOfSnoc(glob, rules[1..], rule, f);
    }
  }

  // What rules mean, field by field

  function Alternatives(p: Pattern): seq<string>
  {
    match p
    case One(text) => [text]
    case Many(items) => items
  }

  /** One of the alternatives is the star, or a glob that fits the value, or the value itself. */
  ghost predicate Fits(glob: Glob, p: Pattern, value: string)
  {
    exists t :: t in Alternatives(p) &&
      (t == "*" || (if '*' in t || '?' in t then glob(value, t) else t == value))
  }

  /** Every pattern that the rule sets for who asks, what is asked for and the message type fits. */
  ghost predicate Covers(glob: Glob, r: Rule, f: Facts)
  {
    && (r.subject.role.Some? ==> Fits(glob, r.subject.role.value, f.role))
    && (r.subject.agentId.Some? ==> Fits(glob, r.subject.agentId.value, f.agentId))
    && (r.subject.userId.Some? ==>
          Fits(glob, r.subject.userId.value, if f.userId.Some? then f.userId.value else ""))
    && (r.subject.groups.Some? ==> exists g :: g in f.groups && Fits(glob, r.subject.groups.value, g))
    && (r.subject.identityChannel.Some? ==> Fits(glob, r.subject.identityChannel.value, f.identityChannel))
    && (r.subject.authMethod.Some? ==> Fits(glob, r.subject.authMethod.value, f.authMethod))
    && (r.target.agentId.Some? ==> Fits(glob, r.target.agentId.value, f.agentId))
    && (r.target.engine.Some? ==> Fits(glob, r.target.engine.value, f.engine))
    && (r.target.targetAgent.Some? ==>
          Fits(glob, r.target.targetAgent.value, if f.targetAgentId.Some? then f.targetAgentId.value else ""))
    && (r.action.Some? ==> exists t :: t in Alternatives(r.action.value) && glob(f.messageType, t))
  }

  /** A pattern in a condition counts unless it is absent or empty. */
  ghost predicate FitsIfSet(glob: Glob, p: Option<Pattern>, value: string)
  {
    p.Some? && p.value != One("") && p.value != Many([]) ==> Fits(glob, p.value, value)
  }

  /** The fact meets what the condition says about this field, if it says anything. */
  ghost predicate Meets(glob: Glob, c: Condition, f: Facts, field: Field)
  {
    match field
    case ChainValid => c.correlationChainValid.Some? ==> f.correlationChainValid == c.correlationChainValid.value
    case TriggeredBy => c.triggeredBy.Some? && c.triggeredBy.value != "" ==> f.triggeredBy == c.triggeredBy.value
    case Scope => FitsIfSet(glob, c.scope, f.scope)
    case ValidGrant => c.hasValidGrant == Some(true) ==> f.hasValidGrant
    case IdentityVerified => c.identityVerified.Some? ==> f.identityVerified == c.identityVerified.value
    case DangerousAction => c.dangerousAction.Some? ==> f.dangerousAction == c.dangerousAction.value
    case ToolName => FitsIfSet(glob, c.toolName, if f.toolName.Some? then f.toolName.value else "")
    case ToolRiskLevel => FitsIfSet(glob, c.toolRiskLevel, f.toolRiskLevel)
    case QuotaLimit => c.dailyTokenLimit.Some? || c.rateLimitRpm.Some? ==> !f.quotaWouldExceed
    case Provider => FitsIfSet(glob, c.provider, if f.provider.Some? then f.provider.value else "")
    case Model => FitsIfSet(glob, c.model, if f.model.Some? then f.model.value else "")
    case ToolExecutionMode => FitsIfSet(glob, c.toolExecutionMode, f.toolExecutionMode)
    case ProviderTools => c.providerToolsRequested.Some? ==> f.providerToolsRequested == c.providerToolsRequested.value
    case SignalBound(s) => s in c.signals ==> s in f.signals && Inside(f.signals[s], c.signals[s])
  }

  ghost predicate Inside(x: real, bound: Bound)
  {
    if bound.Exactly? then x == bound.value
    else
      && (bound.eq.Some? ==> x == bound.eq.value)
      && (bound.gt.Some? ==> bound.gt.value < x)
      && (bound.gte.Some? ==> bound.gte.value <= x)
      && (bound.lt.Some? ==> x < bound.lt.value)
      && (bound.lte.Some? ==> x <= bound.lte.value)
  }

  /** The facts meet the condition in every field. */
  ghost predicate Satisfied(glob: Glob, c: Condition, f: Facts)
  {
    forall field :: Meets(glob, c, f, field)
  }

  /** The order in which fields are looked at. */
  function Rank(field: Field): nat
  {
    match field
    case ChainValid => 0
    case TriggeredBy => 1
    case Scope => 2
    case ValidGrant => 3
    case IdentityVerified => 4
    case DangerousAction => 5
    case ToolName => 6
    case ToolRiskLevel => 7
    case QuotaLimit => 8
    case Provider => 9
    case Model => 10
    case ToolExecutionMode => 11
    case ProviderTools => 12
    case SignalBound(MessageRateAnomaly) => 13
    case SignalBound(RepeatedGrantDenials) => 14
    case SignalBound(CrossAgentScopeSpike) => 15
    case SignalBound(ToolPatternDeviation) => 16
  }

  ghost predicate FirstUnmet(glob: Glob, c: Condition, f: Facts, field: Field)
  {
    !Meets(glob, c, f, field) && forall g | Rank(g) < Rank(field) :: Meets(glob, c, f, g)
  }

  lemma MatchMeans(glob: Glob, p: Pattern, value: string)
    ensures MatchPattern(glob, p, value) <==> Fits(glob, p, value)
  {
    if p.One? {
      assert p.text in Alternatives(p);
    } else if MatchPattern(glob, p, value) {
      var i :| 0 <= i < |p.items| && MatchText(glob, p.items[i], value);
      assert p.items[i] in Alternatives(p);
    }
  }

  lemma AcceptsMeans(glob: Glob, p: Option<Pattern>, value: string)
    ensures Accepts(glob, p, value) <==> (p.Some? ==> Fits(glob, p.value, value))
    ensures AcceptsIfSet(glob, p, value) <==> FitsIfSet(glob, p, value)
  {
    if p.Some? {
      MatchMeans(glob, p.value, value);
    }
  }

  lemma SubjectMeans(glob: Glob, s: Subject, f: Facts)
    ensures SubjectMatches(glob, s, f) <==>
      && (s.role.Some? ==> Fits(glob, s.role.value, f.role))
      && (s.agentId.Some? ==> Fits(glob, s.agentId.value, f.agentId))
      && (s.userId.Some? ==> Fits(glob, s.userId.value, OrEmpty(f.userId)))
      && (s.groups.Some? ==> exists g :: g in f.groups && Fits(glob, s.groups.value, g))
      && (s.identityChannel.Some? ==> Fits(glob, s.identityChannel.value, f.identityChannel))
      && (s.authMethod.Some? ==> Fits(glob, s.authMethod.value, f.authMethod))
  {
    AcceptsMeans(glob, s.role, f.role);
    AcceptsMeans(glob, s.agentId, f.agentId);
    AcceptsMeans(glob, s.userId, OrEmpty(f.userId));
    AcceptsMeans(glob, s.identityChannel, f.identityChannel);
    AcceptsMeans(glob, s.authMethod, f.authMethod);
    if s.groups.Some? {
      forall g
        ensures MatchPattern(glob, s.groups.value, g) <==> Fits(glob, s.groups.value, g)
      {
        MatchMeans(glob, s.groups.value, g);
      }
    }
  }

  /** The three matching steps together say that the rule covers the request. */
  lemma AppliesMeans(glob: Glob, r: Rule, f: Facts)
    ensures Applies(glob, r, f) <==> Covers(glob, r, f)
  {
    SubjectMeans(glob, r.subject, f);
    AcceptsMeans(glob, r.target.agentId, f.agentId);
    AcceptsMeans(glob, r.target.engine, f.engine);
    AcceptsMeans(glob, r.target.targetAgent, OrEmpty(f.targetAgentId));
    assert ActionMatches(glob, r.action, f) <==>
           (r.action.Some? ==> exists t :: t in Alternatives(r.action.value) && glob(f.messageType, t)) by {
      if r.action.Some? && r.action.value.One? {
        assert r.action.value.text in Alternatives(r.action.value);
      }
    }
  }

  lemma PatternFieldsMean(glob: Glob, c: Condition, f: Facts)
    ensures AcceptsIfSet(glob, c.scope, f.scope) <==> Meets(glob, c, f, Scope)
    ensures AcceptsIfSet(glob, c.toolName, OrEmpty(f.toolName)) <==> Meets(glob, c, f, ToolName)
    ensures AcceptsIfSet(glob, c.toolRiskLevel, f.toolRiskLevel) <==> Meets(glob, c, f, ToolRiskLevel)
    ensures AcceptsIfSet(glob, c.provider, OrEmpty(f.provider)) <==> Meets(glob, c, f, Provider)
    ensures AcceptsIfSet(glob, c.model, OrEmpty(f.model)) <==> Meets(glob, c, f, Model)
    ensures AcceptsIfSet(glob, c.toolExecutionMode, f.toolExecutionMode) <==> Meets(glob, c, f, ToolExecutionMode)
  {
    AcceptsMeans(glob, c.scope, f.scope);
    AcceptsMeans(glob, c.toolName, OrEmpty(f.toolName));
    AcceptsMeans(glob, c.toolRiskLevel, f.toolRiskLevel);
    AcceptsMeans(glob, c.provider, OrEmpty(f.provider));
    AcceptsMeans(glob, c.model, OrEmpty(f.model));
    AcceptsMeans(glob, c.toolExecutionMode, f.toolExecutionMode);
  }

  lemma {:induction false} SignalsMean(glob: Glob, keys: seq<Signal>, c: Condition, f: Facts)
    ensures var r := SignalsMatch(keys, c.signals, f);
      if r.0 then r.1 == AllPassed && forall s | s in keys :: Meets(glob, c, f, SignalBound(s))
      else exists i :: 0 <= i < |keys| && r.1 == Failed(SignalBound(keys[i]))
                       && !Meets(glob, c, f, SignalBound(keys[i]))
                       && forall j | 0 <= j < i :: Meets(glob, c, f, SignalBound(keys[j]))
  {
    if keys != [] {
      SignalsMean(glob, keys[1..], c, f);
      var r := SignalsMatch(keys[1..], c.signals, f);
      if SignalsMatch(keys, c.signals, f) == r {
        assert Meets(glob, c, f, SignalBound(keys[0])) || r == (false, Failed(SignalBound(keys[0])));
        if !r.0 && Meets(glob, c, f, SignalBound(keys[0])) {
          var i :| 0 <= i < |keys[1..]| && r.1 == Failed(SignalBound(keys[1..][i]))
                   && !Meets(glob, c, f, SignalBound(keys[1..][i]))
                   && forall j | 0 <= j < i :: Meets(glob, c, f, SignalBound(keys[1..][j]));
          assert forall j | 0 < j < i + 1 :: keys[j] == keys[1..][j - 1];
          assert keys[i + 1] == keys[1..][i];
        }
      }
    }
  }

  lemma PassedMeets(glob: Glob, c: Condition, f: Facts, field: Field)
    requires ConditionsMatch(glob, c, f).0
    ensures Meets(glob, c, f, field)
  {
    PatternFieldsMean(glob, c, f);
    SignalsMean(glob, SIGNALS, c, f);
    assert field.SignalBound? ==> field.signal == SIGNALS[Rank(field) - 13];
  }

  lemma FailedNamesUnmet(glob: Glob, c: Condition, f: Facts)
    requires !ConditionsMatch(glob, c, f).0
    ensures var r := ConditionsMatch(glob, c, f).1; r.Failed? && !Meets(glob, c, f, r.field)
  {
    PatternFieldsMean(glob, c, f);
    SignalsMean(glob, SIGNALS, c, f);
  }

  lemma EarlierMet(glob: Glob, c: Condition, f: Facts, field: Field)
    requires var r := ConditionsMatch(glob, c, f); !r.0 && r.1.Failed? && Rank(field) < Rank(r.1.field)
    ensures Meets(glob, c, f, field)
  {
    PatternFieldsMean(glob, c, f);
    SignalsMean(glob, SIGNALS, c, f);
    assert field.SignalBound? ==> field.signal == SIGNALS[Rank(field) - 13];
  }

  /** A condition passes exactly when every field is met; otherwise the reason is the first that is not. */
  lemma ConditionsMean(glob: Glob, c: Condition, f: Facts)
    ensures var r := ConditionsMatch(glob, c, f);
      && (r.0 <==> Satisfied(glob, c, f))
      && (r.0 ==> r.1 == if c == NO_CONDITION then NoConditions else AllPassed)
      && (!r.0 ==> r.1.Failed? && FirstUnmet(glob, c, f, r.1.field))
  {
    var r := ConditionsMatch(glob, c, f);
    SignalsMean(glob, SIGNALS, c, f);
    if r.0 {
      forall field
        ensures Meets(glob, c, f, field)
      {
        PassedMeets(glob, c, f, field);
      }
    } else {
      FailedNamesUnmet(glob, c, f);
      forall field | Rank(field) < Rank(r.1.field)
        ensures Meets(glob, c, f, field)
      {
        EarlierMet(glob, c, f, field);
      }
    }
  }

  /** The match tells the rule, whether the facts satisfy its condition and, if not, the first field that
      fails, and carries the facts that the decision hands on. */
  ghost predicate Reports(glob: Glob, r: Rule, f: Facts, m: RuleMatch)
  {
    && Covers(glob, r, f)
    && m.ruleId == r.id && m.priority == r.priority && m.effect == r.effect && m.elseElevate == r.elseElevate
    && (m.passed <==> Satisfied(glob, r.condition, f))
    && (if m.passed then m.reason == if r.condition == NO_CONDITION then NoConditions else AllPassed
        else m.reason.Failed? && FirstUnmet(glob, r.condition, f, m.reason.field))
    && m.metadata == MetadataOf(f)
  }

  lemma MatchReports(glob: Glob, r: Rule, f: Facts)
    ensures Applies(glob, r, f) <==> Covers(glob, r, f)
    ensures Covers(glob, r, f) ==> Reports(glob, r, f, MatchOf(glob, r, f))
  {
    AppliesMeans(glob, r, f);
    ConditionsMean(glob, r.condition, f);
  }

  ghost predicate FromRule(glob: Glob, rules: seq<Rule>, f: Facts, m: RuleMatch)
  {
    exists r :: r in rules && Reports(glob, r, f, m)
  }

  ghost predicate Noted(glob: Glob, r: Rule, f: Facts, ms: seq<RuleMatch>)
  {
    exists m :: m in ms && Reports(glob, r, f, m)
  }

  /** Every rule that covers the request is reported, and nothing else is. */
  ghost predicate AllNoted(glob: Glob, rules: seq<Rule>, f: Facts, ms: seq<RuleMatch>)
  {
    && (forall m {:trigger FromRule(glob, rules, f, m)} | m in ms :: FromRule(glob, rules, f, m))
    && (forall r {:trigger Noted(glob, r, f, ms)} | r in rules && Covers(glob, r, f) :: Noted(glob, r, f, ms))
  }

  lemma EveryMatchReports(glob: Glob, sorted: seq<Rule>, rules: seq<Rule>, f: Facts)
    requires forall r :: r in sorted <==> r in rules
    ensures AllNoted(glob, rules, f, MatchesOf(glob, sorted, f))
  {
    var ms := MatchesOf(glob, sorted, f);
    forall m | m in ms
      ensures FromRule(glob, rules, f, m)
    {
      var r :| r in sorted && Applies(glob, r, f) && m == MatchOf(glob, r, f);
      MatchReports(glob, r, f);
    }
    forall r | r in rules && Covers(glob, r, f)
      ensures Noted(glob, r, f, ms)
    {
      MatchReports(glob, r, f);
      assert MatchOf(glob, r, f) in ms;
    }
  }

  function HighestFirst(): Rule -> int
  {
    (r: Rule) => -r.priority
  }

  /** The stable sort by descending priority. */
  function SortByPriority(rules: seq<Rule>): (r: seq<Rule>)
  {
    SortBy(HighestFirst(), rules)
  }

  ghost function CoversOn(glob: Glob, f: Facts): Rule -> bool
  {
    (r: Rule) => Covers(glob, r, f)
  }

  lemma {:induction false} MatchesInOrder(glob: Glob, rules: seq<Rule>, f: Facts)
    requires SortedBy(HighestFirst(), rules)
    ensures |MatchesOf(glob, rules, f)| == |Filter(CoversOn(glob, f), rules)|
    ensures var ms := MatchesOf(glob, rules, f); forall i, j | 0 <= i < j < |ms| :: ms[i].priority >= ms[j].priority
  {
    if rules != [] {
      MatchesInOrder(glob, rules[1..], f);
      MatchReports(glob, rules[0], f);
      forall m | m in MatchesOf(glob, rules[1..], f)
        ensures m.priority <= rules[0].priority
      {
        var r :| r in rules[1..] && Applies(glob, r, f) && m == MatchOf(glob, r, f);
        var k :| 0 <= k < |rules[1..]| && rules[1..][k] == r;
        assert HighestFirst()(rules[0]) <= HighestFirst()(rules[k + 1]);
      }
    }
  }

  /** One match for each rule that covers the request, highest priority first. */
  lemma OneMatchEach(glob: Glob, rules: seq<Rule>, f: Facts)
    ensures var ms := MatchesOf(glob, SortByPriority(rules), f);
      && |ms| == |Filter(CoversOn(glob, f), rules)|
      && forall i, j | 0 <= i < j < |ms| :: ms[i].priority >= ms[j].priority
  {
    var p := CoversOn(glob, f);
    SortBySorted(HighestFirst(), rules);
    MatchesInOrder(glob, SortByPriority(rules), f);
    FilterSortBy(p, HighestFirst(), rules);
    SortByMultiset(HighestFirst(), Filter(p, rules));
  }

  datatype Row = Row(rule: Rule, createdAt: int)

  /** A change to the rules table. */
  datatype Change = Upsert(rule: Rule, now: int) | Remove(id: string)

  function Changed(table: map<string, Row>, c: Change): (t: map<string, Row>)
  {
    match c
    case Upsert(rule, now) =>
      table[rule.id := Row(rule, if rule.id in table then table[rule.id].createdAt else now)]
    case Remove(id) => table - {id}
  }

  /** A listing of the rules table: every stored rule and no other, highest priority first. */
  ghost predicate Lists(rules: seq<Rule>, table: map<string, Row>)
  {
    && SortedBy(HighestFirst(), rules)
    && forall r :: r in rules <==> exists id :: id in table && table[id].rule == r
  }

  lemma ListedById(rules: seq<Rule>, table: map<string, Row>)
    requires Lists(rules, table) && forall id | id in table :: table[id].rule.id == id
    ensures forall r :: r in rules <==> r.id in table && table[r.id].rule == r
  {
    forall r
      ensures r in rules <==> r.id in table && table[r.id].rule == r
    {
    }
  }

  /** The rules table with its in-memory copy. */
  class RuleStore {
    var table: map<string, Row>
    var rules: seq<Rule>

    ghost predicate Valid()
      reads this
    {
      && Lists(rules, table)
      && forall id | id in table :: table[id].rule.id == id
    }

    constructor ()
      ensures Valid() && table == map[] && rules == []
    {
      table := map[];
      rules := [];
    }

    method Reload()
      modifies this`rules
      ensures Lists(rules, table)
    {
      var keys, listed := table.Keys, [];
      while keys != {}
        invariant keys <= table.Keys
        invariant SortedBy(HighestFirst(), listed)
        invariant forall r :: r in listed <==> exists id :: id in table && id !in keys && table[id].rule == r
        decreases keys
      {
        var id :| id in keys;
        keys := keys - {id};
        var rule := table[id].rule;
        InsertBySorted(HighestFirst(), rule, listed);
        InsertByMembers(HighestFirst(), rule, listed);
        listed := InsertBy(HighestFirst(), rule, listed);
      }
      rules := listed;
    }

    method AddRule(rule: Rule, now: int)
      requires Valid()
      modifies this
      ensures Valid()
      ensures table == Changed(old(table), Upsert(rule, now))
      ensures forall r :: r in rules <==> r == rule || (r in old(rules) && r.id != rule.id)
      ensures forall i, j | 0 <= i < j < |rules| :: rules[i].priority >= rules[j].priority
    {
      ListedById(rules, table);
      var createdAt := if rule.id in table then table[rule.id].createdAt else now;
      table := table[rule.id := Row(rule, createdAt)];
      Reload();
      ListedById(rules, table);
      assert forall i, j | 0 <= i < j < |rules| :: HighestFirst()(rules[i]) <= HighestFirst()(rules[j]);
    }

    method DeleteRule(id: string) returns (deleted: bool)
      requires Valid()
      modifies this
      ensures Valid()
      ensures table == Changed(old(table), Remove(id)) && deleted == (id in old(table))
      ensures forall r :: r in rules <==> r in old(rules) && r.id != id
      ensures deleted <==> exists r :: r in old(rules) && r.id == id
    {
      ListedById(rules, table);
      deleted := id in table;
      assert deleted ==> table[id].rule in rules;
      table := table - {id};
      Reload();
      ListedById(rules, table);
    }

    /** Every rule that covers the request is reported as its condition turned out, and no other. */
    method Evaluate(glob: Glob, facts: Facts) returns (matches: seq<RuleMatch>)
      ensures matches == MatchesOf(glob, SortByPriority(rules), facts)
      ensures AllNoted(glob, rules, facts, matches) && |matches| == |Filter(CoversOn(glob, facts), rules)|
      ensures forall i, j | 0 <= i < j < |matches| :: matches[i].priority >= matches[j].priority
    {
      matches := [];
      var sorted := SortByPriority(rules);
      for i := 0 to |sorted|
        invariant matches == MatchesOf(glob, sorted[..i], facts)
      {
        assert sorted[..i + 1] == sorted[..i] + [sorted[i]];
        MatchesOfSnoc(glob, sorted[..i], sorted[i], facts);
        if SubjectMatches(glob, sorted[i].subject, facts) {
          if TargetMatches(glob, sorted[i].target, facts) {
            if ActionMatches(glob, sorted[i].action, facts) {
              matches := matches + [MatchOf(glob, sorted[i], facts)];
            }
          }
        }
      }
      assert sorted[..|sorted|] == sorted;
      SortByMembers(HighestFirst(), rules);
      EveryMatchReports(glob, sorted, rules, facts);
      OneMatchEach(glob, rules, facts);
    }
  }
}
