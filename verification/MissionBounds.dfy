/** The work of a mission is bounded over every run. */
module MissionBounds {
  import opened Search
  import opened MissionModel
  import opened MissionGuard
  import opened MissionValidator
  import opened MissionSteps
  import opened MissionInvariant
  import opened MissionSafety
  import opened MissionSettling
  import opened MissionRuns
  import opened MissionEffects

  lemma {:induction false} DistinctKeysBounded(rs: seq<Request>, mats: seq<Materialization>)
    requires forall i, j | 0 <= i < j < |rs| :: rs[i].key != rs[j].key
    requires forall i | 0 <= i < |rs| :: rs[i].key in AttemptKeys(mats)
    ensures |rs| <= MAX_EXECUTION_RETRIES * |mats|
  {
    KeysOf(rs);
    AttemptKeysSize(mats);
    KeySubset(set r | r in rs :: r.key, AttemptKeys(mats));
  }

  /** All the keys that requests for the given materializations may carry. */
  function AttemptKeys(mats: seq<Materialization>): set<RequestKey> {
    if mats == [] then {}
    else
      AttemptKeys(mats[1..]) + {RequestKey(mats[0].id, 1), RequestKey(mats[0].id, 2), RequestKey(mats[0].id, 3)}
  }

  lemma {:induction false} AttemptKeysSize(mats: seq<Materialization>)
    ensures |AttemptKeys(mats)| <= MAX_EXECUTION_RETRIES * |mats|
  {
    if mats != [] {
      AttemptKeysSize(mats[1..]);
      KeyUnion(AttemptKeys(mats[1..]), RequestKey(mats[0].id, 1), RequestKey(mats[0].id, 2), RequestKey(mats[0].id, 3));
    }
  }

  lemma KeyUnion(s: set<RequestKey>, a: RequestKey, b: RequestKey, c: RequestKey)
    ensures |s + {a, b, c}| <= |s| + 3
  {
    assert s + {a, b, c} == ((s + {a}) + {b}) + {c};
  }

  lemma {:induction false} AttemptKeysHold(mats: seq<Materialization>, k: nat, attempt: int)
    requires k < |mats| && 1 <= attempt <= MAX_EXECUTION_RETRIES
    ensures RequestKey(mats[k].id, attempt) in AttemptKeys(mats)
  {
    if k > 0 {
      AttemptKeysHold(mats[1..], k - 1, attempt);
    }
  }

  lemma {:induction false} KeysOf(rs: seq<Request>)
    requires forall i, j | 0 <= i < j < |rs| :: rs[i].key != rs[j].key
    ensures |set r | r in rs :: r.key| == |rs|
  {
    var keys := set r | r in rs :: r.key;
    if rs == [] {
      assert keys == {};
    } else {
      var rest, last := rs[..|rs| - 1], rs[|rs| - 1];
      KeysOf(rest);
      var restKeys := set r | r in rest :: r.key;
      assert rs == rest + [last];
      assert keys == restKeys + {last.key};
      assert last.key !in restKeys;
    }
  }

  lemma {:induction false} KeySubset(a: set<RequestKey>, b: set<RequestKey>)
    requires a <= b
    ensures |a| <= |b|
  {
    if a != {} {
      var x :| x in a;
      KeySubset(a - {x}, b - {x});
    }
  }

  lemma {:induction false} DelegationsBounded(ds: seq<Delegation>, rs: seq<Request>)
    requires forall i, j | 0 <= i < j < |ds| :: ds[i].requestId != ds[j].requestId
    requires forall i | 0 <= i < |ds| :: HasRequest(rs, ds[i].requestId)
    ensures |ds| <= |rs|
  {
    var used := seq(|ds|, i requires 0 <= i < |ds| => ds[i].requestId);
    var made := seq(|rs|, i requires 0 <= i < |rs| => rs[i].id);
    DistinctCardinality(used);
    ElementsAtMost(made);
    forall x | x in Elements(used) ensures x in Elements(made) {
      var i :| 0 <= i < |ds| && ds[i].requestId == x;
      assert HasRequest(rs, ds[i].requestId);
      var k :| 0 <= k < |rs| && rs[k].id == x;
      assert made[k] == x;
    }
    SubsetCardinality(Elements(used), Elements(made));
  }

  lemma {:induction false} ElementsAtMost(s: seq<Id>)
    ensures |Elements(s)| <= |s|
  {
    if s == [] {
      assert Elements(s) == {};
    } else {
      ElementsAtMost(s[..|s| - 1]);
      assert s == s[..|s| - 1] + [s[|s| - 1]];
      ElementsSnoc(s[..|s| - 1], s[|s| - 1]);
    }
  }

  /** The work of a mission is bounded, whatever happens to it. */
  predicate Bounded(m: Mission) {
    && m.replanCount == m.outreachBatches == |m.strategies| == |m.historicalPlans| == m.planVersion - 1 <= MAX_REPEATED_STRATEGIES
    && |m.mats| == |m.decisions| <= |m.milestones|
    && |m.milestones| == (if m.kind.ArtifactProduction? then 1 else 4 + m.replanCount)
    && |m.requests| <= MAX_EXECUTION_RETRIES * |m.mats|
    && |m.active| + |m.history| <= |m.requests|
    && |m.lineage| <= |m.milestones|
  }

  lemma InvariantBoundsWork(m: Mission)
    requires Inv(m)
    ensures Bounded(m)
  {
    hide Chain, Plans, Requests, Delegations, Claims, Lineage, Typed, States;
    ChainSizes(m.milestones, m.decisions, m.mats);
    PlanCounts(m);
    RequestsBounded(m);
    DelegationsAreDistinct(m.milestones, m.decisions, m.mats, m.active, m.history, m.requests);
    DelegationsHaveRequests(m);
    DelegationsBounded(AllDelegations(m), m.requests);
    LineageBounded(m);
  }

  lemma PlanCounts(m: Mission)
    requires Inv(m)
    ensures m.replanCount == m.outreachBatches == |m.strategies| == |m.historicalPlans| == m.planVersion - 1 <= MAX_REPEATED_STRATEGIES
    ensures |m.milestones| == (if m.kind.ArtifactProduction? then 1 else 4 + m.replanCount)
  {
    hide Chain, Requests, Delegations, Claims, Lineage, Typed, States;
  }

  lemma {:induction false} CompletedAtMostAll(ms: seq<Milestone>)
    ensures CompletedMilestones(ms) <= |ms|
  {
    if ms != [] {
      CompletedAtMostAll(ms[..|ms| - 1]);
    }
  }

  lemma LineageBounded(m: Mission)
    requires Inv(m)
    ensures |m.lineage| <= |m.milestones|
  {
    hide Chain, Plans, Requests, Delegations, Claims, Typed, States;
    CompletedAtMostAll(m.milestones);
  }

  lemma RequestsBounded(m: Mission)
    requires Inv(m)
    ensures |m.requests| <= MAX_EXECUTION_RETRIES * |m.mats|
  {
    hide Chain, Plans, Released, OnlyNewestActive, Delegations, Claims, Lineage, Typed, States;
    ChainSizes(m.milestones, m.decisions, m.mats);
    forall i | 0 <= i < |m.requests| ensures m.requests[i].key in AttemptKeys(m.mats) {
      assert HasBacking(m.requests[i], m.decisions, m.mats);
      var k :| 0 <= k < |m.mats| && Backs(m.decisions, m.mats, k, m.requests[i]);
      AttemptKeysHold(m.mats, k, m.requests[i].attempt);
    }
    DistinctKeysBounded(m.requests, m.mats);
  }

  lemma RunsAreBounded(id: Id, spec: Spec, es: seq<Event>)
    requires SpecOk(spec) && LegalRun(Create(id, spec), es)
    ensures Bounded(Run(Create(id, spec), es))
  {
    hide Inv, Create, Apply, Legal, Bounded;
    CreateEstablishes(id, spec);
    RunKeeps(Create(id, spec), es);
    InvariantBoundsWork(Run(Create(id, spec), es));
  }
}
