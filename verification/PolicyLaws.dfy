/** Laws of the policy decision over rule sets and over histories of the rule store. */
module PolicyLaws {
  import opened PolicyRules
  import opened PolicyDecision
  import opened PolicyEngine

  function After(changes: seq<Change>): (t: map<string, Row>)
  {
    if changes == [] then map[] else Changed(After(changes[..|changes| - 1]), changes[|changes| - 1])
  }

  /** The table without its creation times. */
  function RuleMap(table: map<string, Row>): map<string, Rule>
  {
    map id | id in table :: table[id].rule
  }

  /** Two histories that leave the same rules under the same ids decide every request alike, with
      the same error code, whatever the creation times and whatever order the tables list in. */
  lemma HistoriesDecideAlike(
      glob: Glob, xs: seq<Change>, ys: seq<Change>, rs: seq<Rule>, ts: seq<Rule>, f: Facts)
    requires RuleMap(After(xs)) == RuleMap(After(ys))
    requires Lists(rs, After(xs)) && Lists(ts, After(ys))
    ensures Ruling(glob, rs, f) == Ruling(glob, ts, f)
    ensures RulingCode(glob, rs, f) == RulingCode(glob, ts, f)
  {
    SameListings(After(xs), After(ys), rs, ts);
    SameVoices(rs, ts, VoiceOn(glob, f));
  }

  lemma SameListings(t: map<string, Row>, u: map<string, Row>, rs: seq<Rule>, ts: seq<Rule>)
    requires RuleMap(t) == RuleMap(u) && Lists(rs, t) && Lists(ts, u)
    ensures SameElements(rs, ts)
  {
    assert forall id :: id in t <==> id in RuleMap(t);
    assert forall id :: id in u <==> id in RuleMap(u);
    assert forall id | id in t :: t[id].rule == RuleMap(t)[id] && u[id].rule == RuleMap(u)[id];
  }

  lemma SameVoices(rs: seq<Rule>, ts: seq<Rule>, voice: Rule -> Voice)
    requires SameElements(rs, ts)
    ensures Allowed(rs, voice) <==> Allowed(ts, voice)
    ensures Escalated(rs, voice) <==> Escalated(ts, voice)
    ensures QuotaBlocks(rs, voice) <==> QuotaBlocks(ts, voice)
  {
    forall p
      ensures Top(rs, voice, p) <==> Top(ts, voice, p)
    {
    }
  }

  /** Adding a deny rule that does not elevate can only keep a decision or turn it into a denial. */
  lemma AddedDenyOnlyDenies(glob: Glob, rs: seq<Rule>, rule: Rule, ts: seq<Rule>, f: Facts)
    requires rule.effect == Deny && !rule.elseElevate
    requires forall r :: r in ts <==> r in rs || r == rule
    ensures Ruling(glob, ts, f) == Ruling(glob, rs, f) || Ruling(glob, ts, f) == Deny
  {
    var voice := VoiceOn(glob, f);
    assert !voice(rule).grants && !voice(rule).escalates;
    MoreDenialsOnlyDeny(rs, rule, ts, voice);
    if Escalated(rs, voice) && Allowed(rs, voice) {
      EitherOr(rs, voice);
    }
  }

  lemma MoreDenialsOnlyDeny(rs: seq<Rule>, rule: Rule, ts: seq<Rule>, voice: Rule -> Voice)
    requires forall r :: r in ts <==> r in rs || r == rule
    requires !voice(rule).grants && !voice(rule).escalates
    ensures Allowed(ts, voice) ==> Allowed(rs, voice)
    ensures Escalated(ts, voice) ==> Escalated(rs, voice)
  {
    if Allowed(ts, voice) {
      var r :| r in ts && voice(r).grants && forall q | q in ts ::
        (voice(q).forbids ==> q.priority < r.priority) && (voice(q).escalates ==> q.priority <= r.priority);
      assert r in rs;
    }
    if Escalated(ts, voice) {
      var r :| r in ts && voice(r).escalates && forall q | q in ts ::
        voice(q).grants || voice(q).forbids ==> q.priority < r.priority;
      assert r in rs;
    }
  }

  /** Where matches are the same from the deciding priority up, so are the decision, the reported
      matches and the error code: nothing below the deciding priority matters. */
  lemma LowerMatchesIrrelevant(ms: seq<RuleMatch>, ns: seq<RuleMatch>, p: int)
    requires DecidesAt(ms, p)
    requires forall m: RuleMatch | m.priority >= p :: m in ms <==> m in ns
    ensures DecidesAt(ns, p)
    ensures Outcome(ns) == Outcome(ms) && OutcomeCode(ns) == OutcomeCode(ms)
    ensures forall m :: Reported(ns, m) <==> Reported(ms, m)
  {
    LowerReports(ms, ns, p);
    SameQuota(ms, ns);
    SameQuota(ns, ms);
    LowerKeepsAllow(ms, ns, p);
    LowerKeepsAllow(ns, ms, p);
    LowerKeepsElevation(ms, ns, p);
    LowerKeepsElevation(ns, ms, p);
  }

  lemma LowerReports(ms: seq<RuleMatch>, ns: seq<RuleMatch>, p: int)
    requires DecidesAt(ms, p)
    requires forall m: RuleMatch | m.priority >= p :: m in ms <==> m in ns
    ensures DecidesAt(ns, p)
    ensures forall m :: Reported(ns, m) <==> Reported(ms, m)
  {
    var top :| top in ms && Decisive(top) && top.priority == p;
    assert top in ns;
    OneDecidingPriority(ms, p);
    OneDecidingPriority(ns, p);
    AtPriorityMembers(ms, p);
    AtPriorityMembers(ns, p);
  }

  lemma SameQuota(ms: seq<RuleMatch>, ns: seq<RuleMatch>)
    requires forall m :: Reported(ns, m) <==> Reported(ms, m)
    ensures QuotaBlamed(ms) ==> QuotaBlamed(ns)
  {
    if QuotaBlamed(ms) {
      var m :| Reported(ms, m) && m.reason == Failed(QuotaLimit);
      assert Reported(ns, m);
    }
  }

  lemma LowerKeepsAllow(ms: seq<RuleMatch>, ns: seq<RuleMatch>, p: int)
    requires DecidesAt(ms, p) && DecidesAt(ns, p)
    requires forall m: RuleMatch | m.priority >= p :: m in ms <==> m in ns
    ensures AllowPrevails(ms) ==> AllowPrevails(ns)
  {
    if AllowPrevails(ms) {
      var m :| m in ms && Allows(m) && forall n | n in ms ::
        (Denies(n) ==> n.priority < m.priority) && (Elevates(n) ==> n.priority <= m.priority);
      var top :| top in ms && Decisive(top) && top.priority == p;
      var best := if m.priority < p then top else m;
      assert best in ns && Allows(best) && best.priority == p;
      assert forall n | n in ns && Decisive(n) && n.priority == p :: n in ms;
    }
  }

  lemma LowerKeepsElevation(ms: seq<RuleMatch>, ns: seq<RuleMatch>, p: int)
    requires DecidesAt(ms, p) && DecidesAt(ns, p)
    requires forall m: RuleMatch | m.priority >= p :: m in ms <==> m in ns
    ensures ElevationPrevails(ms) ==> ElevationPrevails(ns)
  {
    if ElevationPrevails(ms) {
      var m :| m in ms && Elevates(m) && forall n | n in ms :: Denies(n) || Allows(n) ==> n.priority < m.priority;
      var top :| top in ms && Decisive(top) && top.priority == p;
      var best := if m.priority < p then top else m;
      assert best in ns && Elevates(best) && best.priority == p;
      assert forall n | n in ns && Decisive(n) && n.priority == p :: n in ms;
    }
  }

  /** Rules below the deciding priority may be added, changed or removed at will. */
  lemma LowerRulesIrrelevant(glob: Glob, rs: seq<Rule>, ts: seq<Rule>, p: int, f: Facts)
    requires Top(rs, VoiceOn(glob, f), p)
    requires forall r: Rule | r.priority >= p :: r in rs <==> r in ts
    ensures Ruling(glob, ts, f) == Ruling(glob, rs, f)
    ensures RulingCode(glob, ts, f) == RulingCode(glob, rs, f)
  {
    if !AgentBarred(f) {
      var ms, ns := MatchesOf(glob, rs, f), MatchesOf(glob, ts, f);
      MatchesEcho(glob, rs, f);
      TopMeans(ms, rs, VoiceOn(glob, f), p);
      HighMatchesSame(glob, rs, ts, p, f);
      LowerMatchesIrrelevant(ms, ns, p);
      RulingMeans(glob, rs, f);
      RulingMeans(glob, ts, f);
    }
  }

  lemma HighMatchesSame(glob: Glob, rs: seq<Rule>, ts: seq<Rule>, p: int, f: Facts)
    requires forall r: Rule | r.priority >= p :: r in rs <==> r in ts
    ensures forall m: RuleMatch | m.priority >= p :: m in MatchesOf(glob, rs, f) <==> m in MatchesOf(glob, ts, f)
  {
  }
}
