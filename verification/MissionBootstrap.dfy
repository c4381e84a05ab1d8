/** The bootstrap keeps the invariant: it decides on the next milestone, completes the mission, or replans. */
module MissionBootstrap {
  import opened Search
  import opened MissionModel
  import opened MissionGuard
  import opened MissionValidator
  import opened MissionSteps
  import opened MissionInvariant
  import opened MissionSafety
  import opened MissionSettling

  // ---- where the bootstrap finds the mission -------------------------------------------------------------

  /** The first open milestone is the newest decided one, or else the first undecided one. */
  lemma OpenMilestone(m: Mission)
    requires Inv(m)
    ensures FirstMilestoneOfPlan(m.milestones, m.planVersion) < |m.milestones|
    ensures |m.mats| == |m.decisions| <= |m.milestones|
    ensures var n := |m.decisions|;
      FirstOpenMilestone(m.milestones, m.planVersion)
      == if n > 0 && m.milestones[n - 1].status.MReady? then n - 1 else n
    ensures forall i | 0 <= i < |m.milestones| && !m.milestones[i].status.MCompleted? :: m.milestones[i].plan == m.planVersion
  {
    hide Requests, Delegations, Claims, Lineage, Typed, States;
    var n := |m.decisions|;
    var at := if n > 0 && m.milestones[n - 1].status.MReady? then n - 1 else n;
    assert forall i | 0 <= i < at :: m.milestones[i].status.MCompleted?;
    if at < |m.milestones| {
      assert m.milestones[at].plan == m.planVersion && !m.milestones[at].status.MCompleted?;
    }
  }

  /** While the newest decided milestone is not open, nothing is active. */
  lemma NothingOpenNothingActive(m: Mission)
    requires Inv(m) && |m.decisions| <= |m.milestones|
    requires |m.decisions| == 0 || !m.milestones[|m.decisions| - 1].status.MReady?
    ensures Idle(m.requests) && m.active == []
  {
    hide Chain, Plans, Numbered, Backed, Released, Delegations, Claims, Lineage, Typed, States;
    ChainSizes(m.milestones, m.decisions, m.mats);
    NewestDelegation(m);
  }

  /** For an open decided milestone the decision is found again, and it was materialized before. */
  lemma DecidedIsMaterialized(m: Mission, ids: FreshIds)
    requires Inv(m) && 0 < |m.decisions| <= |m.milestones|
    requires m.milestones[|m.decisions| - 1].plan == m.planVersion
    ensures Advance(m, |m.decisions| - 1, ids) == m
  {
    hide Plans, Requests, Delegations, Claims, Lineage, Typed, States;
    var n := |m.decisions| - 1;
    var known := LastDecisionFor(m.decisions, m.milestones[n].id, m.planVersion);
    assert known >= 0;
    assert m.mats[known].id == MatId(m.decisions[known].id);
    assert IndexOfMat(m.mats, MatId(m.decisions[known].id)) <= known;
  }

  // ---- a new decision ------------------------------------------------------------------------------------

  lemma DecisionKeepsChain(ms: seq<Milestone>, ds: seq<Decision>, mats: seq<Materialization>, d: Decision, x: Materialization)
    requires Chain(ms, ds, mats) && |ds| < |ms|
    requires |ds| > 0 ==> !ms[|ds| - 1].status.MReady?
    requires !HasDecision(ds, d.id) && d.milestoneId == ms[|ds|].id && d.plan == ms[|ds|].plan
    requires x.decisionId == d.id && x.id == MatId(d.id)
    ensures Chain(ms[|ds| := ms[|ds|].(status := MReady)], ds + [d], mats + [x])
  {
  }

  lemma DecisionKeepsBacked(rs: seq<Request>, ds: seq<Decision>, mats: seq<Materialization>, d: Decision, x: Materialization)
    requires |mats| == |ds| && Backed(rs, ds, mats)
    ensures Backed(rs, ds + [d], mats + [x])
  {
    forall i | 0 <= i < |rs| ensures HasBacking(rs[i], ds + [d], mats + [x]) {
      assert HasBacking(rs[i], ds, mats);
      var k :| 0 <= k < |mats| && Backs(ds, mats, k, rs[i]);
      assert Backs(ds + [d], mats + [x], k, rs[i]);
    }
  }

  lemma FreshDecisionUnrequested(rs: seq<Request>, ds: seq<Decision>, mats: seq<Materialization>, ms: seq<Milestone>, id: Id)
    requires Chain(ms, ds, mats) && Backed(rs, ds, mats) && !HasDecision(ds, id)
    ensures forall i | 0 <= i < |rs| :: rs[i].matId != MatId(id)
    ensures !HasMat(mats, MatId(id)) && IndexOfMat(mats, MatId(id)) == |mats|
  {
    forall i | 0 <= i < |rs| ensures rs[i].matId != MatId(id) {
      assert HasBacking(rs[i], ds, mats);
      var k :| 0 <= k < |mats| && Backs(ds, mats, k, rs[i]);
      assert mats[k].id == MatId(ds[k].id);
    }
  }

  lemma {:induction false} OpenedCountsNoMore(ms: seq<Milestone>, i: nat, x: Milestone)
    requires i < |ms| && !ms[i].status.MCompleted? && !x.status.MCompleted?
    ensures CompletedMilestones(ms[i := x]) == CompletedMilestones(ms)
  {
    var ms' := ms[i := x];
    if i == |ms| - 1 {
      assert ms'[..|ms| - 1] == ms[..|ms| - 1];
    } else {
      OpenedCountsNoMore(ms[..|ms| - 1], i, x);
      assert ms'[..|ms| - 1] == ms[..|ms| - 1][i := x];
    }
  }

  lemma AppendKeepsIds(ds: seq<Decision>, d: Decision, mats: seq<Materialization>, x: Materialization)
    ensures forall id :: HasDecision(ds, id) ==> HasDecision(ds + [d], id)
    ensures forall id :: HasMat(mats, id) ==> HasMat(mats + [x], id)
  {
    forall id | HasDecision(ds, id) ensures HasDecision(ds + [d], id) {
      var k :| 0 <= k < |ds| && ds[k].id == id;
      assert (ds + [d])[k].id == id;
    }
    forall id | HasMat(mats, id) ensures HasMat(mats + [x], id) {
      var k :| 0 <= k < |mats| && mats[k].id == id;
      assert (mats + [x])[k].id == id;
    }
  }

  lemma TypedOverDecision(m: Mission, i: nat, x: Milestone, d: Decision)
    requires Typed(m.criterion, m.mode, m.missionId, m.milestones, m.decisions, m.requests, m.active, m.lineage)
    requires i < |m.milestones| && x.spec == m.milestones[i].spec
    requires m.criterion.VerifiedArtifacts? && m.milestones[i].spec.Some? ==> d.expected == m.milestones[i].spec.value.expected
    ensures Typed(m.criterion, m.mode, m.missionId, m.milestones[i := x], m.decisions + [d], m.requests, m.active, m.lineage)
  {
  }

  /** The record with the next milestone opened, decided and materialized, before any request is made. */
  function Decided(m: Mission, d: Decision, x: Materialization): Mission
    requires |m.decisions| < |m.milestones|
  {
    var n := |m.decisions|;
    m.(milestones := m.milestones[n := m.milestones[n].(status := MReady)], decisions := m.decisions + [d], mats := m.mats + [x])
  }

  lemma DecidedParts(m: Mission, d: Decision, x: Materialization)
    requires Inv(m) && |m.decisions| < |m.milestones|
    requires |m.decisions| > 0 ==> !m.milestones[|m.decisions| - 1].status.MReady?
    requires !HasDecision(m.decisions, d.id) && d.milestoneId == m.milestones[|m.decisions|].id && d.plan == m.planVersion
    requires m.criterion.VerifiedArtifacts? && m.milestones[|m.decisions|].spec.Some? ==> d.expected == m.milestones[|m.decisions|].spec.value.expected
    requires x.decisionId == d.id && x.id == MatId(d.id)
    ensures var m' := Decided(m, d, x);
      && Chain(m'.milestones, m'.decisions, m'.mats) && |m'.mats| == |m'.decisions| <= |m'.milestones|
      && Plans(m'.kind, m'.criterion, m'.planVersion, m'.replanCount, m'.outreachBatches, m'.strategies, m'.historicalPlans, m'.milestones)
      && Backed(m.requests, m'.decisions, m'.mats) && Idle(m.requests) && m.active == []
      && (forall i | 0 <= i < |m.requests| :: m.requests[i].matId != MatId(d.id))
      && Lineage(m'.lineage, m'.milestones, m'.decisions, m'.mats, m'.requests, m'.active, m'.history, m'.claims)
      && Typed(m'.criterion, m'.mode, m'.missionId, m'.milestones, m'.decisions, m'.requests, m'.active, m'.lineage)
  {
    hide Chain, Plans, Numbered, Backed, Released, OnlyNewestActive, Delegations, Claims, Lineage, Typed, States, CompletedMilestones;
    ChainSizes(m.milestones, m.decisions, m.mats);
    OpenMilestone(m);
    UndecidedIsUntouched(m);
    NothingOpenNothingActive(m);
    var n := |m.decisions|;
    var o := m.milestones[n].(status := MReady);
    DecisionKeepsChain(m.milestones, m.decisions, m.mats, d, x);
    PlansOverMilestone(m, n, o);
    DecisionKeepsBacked(m.requests, m.decisions, m.mats, d, x);
    FreshDecisionUnrequested(m.requests, m.decisions, m.mats, m.milestones, d.id);
    OpenedCountsNoMore(m.milestones, n, o);
    AppendKeepsIds(m.decisions, d, m.mats, x);
    var m' := Decided(m, d, x);
    LineageKeeps(m.lineage, m.milestones, m.decisions, m.mats, m.requests, m.active, m.history, m.claims,
                 m'.milestones, m'.decisions, m'.mats, m.requests, m.active, m.history, m.claims);
    TypedOverDecision(m, n, o, d);
  }

  lemma UndecidedIsUntouched(m: Mission)
    requires Inv(m) && |m.decisions| < |m.milestones|
    ensures m.milestones[|m.decisions|].status.MPending?
  {
    hide Plans, Requests, Delegations, Claims, Lineage, Typed, States;
  }

  lemma IdleIsUnopened(rs: seq<Request>, ms: seq<Milestone>, ds: seq<Decision>, ms': seq<Milestone>, ds': seq<Decision>)
    requires |ds| <= |ms| && |ds'| <= |ms'| && OnlyNewestActive(rs, ms, ds) && Idle(rs)
    ensures OnlyNewestActive(rs, ms', ds')
  {
  }

  /** A decision that needs approval. */
  lemma GatedDecisionKeeps(m: Mission, d: Decision, m': Mission)
    requires Inv(m) && |m.decisions| < |m.milestones|
    requires |m.decisions| > 0 ==> !m.milestones[|m.decisions| - 1].status.MReady?
    requires !HasDecision(m.decisions, d.id) && d.milestoneId == m.milestones[|m.decisions|].id && d.plan == m.planVersion
    requires m.criterion.VerifiedArtifacts? && m.milestones[|m.decisions|].spec.Some? ==> d.expected == m.milestones[|m.decisions|].spec.value.expected
    requires m' == Decided(m, d, Materialization(MatId(d.id), d.id, ApprovalRequired, false))
                   .(progression := PWaiting, autoContinue := WaitingApproval, pendingApprovals := m'.pendingApprovals)
    ensures Inv(m')
  {
    hide Chain, Plans, Numbered, Backed, Released, OnlyNewestActive, Delegations, Claims, Lineage, Typed, Identities;
    ChainSizes(m.milestones, m.decisions, m.mats);
    var x := Materialization(MatId(d.id), d.id, ApprovalRequired, false);
    DecidedParts(m, d, x);
    IdleIsUnopened(m.requests, m.milestones, m.decisions, m'.milestones, m'.decisions);
    ReleasedOverGate(m.requests, m.mats, x);
  }

  lemma ReleasedOverGate(rs: seq<Request>, mats: seq<Materialization>, x: Materialization)
    requires Released(rs, mats) && x.status.ApprovalRequired?
    ensures Released(rs, mats + [x])
  {
  }

  /** A decision that is released for execution at once. */
  lemma ReleasedDecisionKeeps(m: Mission, d: Decision, requestId: Id, m': Mission)
    requires Inv(m) && |m.decisions| < |m.milestones|
    requires |m.decisions| > 0 ==> !m.milestones[|m.decisions| - 1].status.MReady?
    requires !HasDecision(m.decisions, d.id) && d.milestoneId == m.milestones[|m.decisions|].id && d.plan == m.planVersion
    requires m.criterion.VerifiedArtifacts? && m.milestones[|m.decisions|].spec.Some? ==> d.expected == m.milestones[|m.decisions|].spec.value.expected
    requires !HasRequest(m.requests, requestId) && !d.target.Communication? && m.status.Active?
    requires m' == Decided(m, d, Materialization(MatId(d.id), d.id, ExecutionReady, false))
                   .(progression := PReady, autoContinue := Running, dispatch := DAwaiting,
                     requests := m.requests + [NewRequest(d, requestId)])
    ensures Inv(m')
  {
    hide Chain, Plans, Numbered, Backed, Released, OnlyNewestActive, Delegations, Claims, Lineage, Typed, Identities;
    ChainSizes(m.milestones, m.decisions, m.mats);
    var x := Materialization(MatId(d.id), d.id, ExecutionReady, false);
    var q := NewRequest(d, requestId);
    var k := |m.mats|;
    DecidedParts(m, d, x);
    RequestAppendKeepsBacked(m.requests, m'.decisions, m'.mats, q, k);
    RequestAppendKeepsNumbered(m.requests, q);
    NewRequestReleases(m.requests, m.mats, x, q);
    NewRequestIsNewest(m.requests, m.milestones, m.decisions, m'.milestones, m'.decisions, q);
    RequestAppendKeepsDelegations(m.history, m.requests, q);
    RequestAppendKeepsIds(m.requests, q);
    LineageKeeps(m.lineage, m'.milestones, m'.decisions, m'.mats, m.requests, m.active, m.history, m.claims,
                 m'.milestones, m'.decisions, m'.mats, m'.requests, m.active, m.history, m.claims);
    TypedOverAppend(Decided(m, d, x), k, q);
  }

  lemma NewRequestReleases(rs: seq<Request>, mats: seq<Materialization>, x: Materialization, q: Request)
    requires Released(rs, mats) && q.matId == x.id
    ensures Released(rs + [q], mats + [x])
  {
    RequestAppendKeepsReleased(rs, mats + [x], q);
  }

  lemma NewRequestIsNewest(rs: seq<Request>, ms: seq<Milestone>, ds: seq<Decision>, ms': seq<Milestone>, ds': seq<Decision>, q: Request)
    requires |ds| <= |ms| && OnlyNewestActive(rs, ms, ds) && Idle(rs)
    requires 0 < |ds'| <= |ms'| && q.decisionId == ds'[|ds'| - 1].id && q.milestoneId == ds'[|ds'| - 1].milestoneId
    requires ms'[|ds'| - 1].status.MReady?
    ensures OnlyNewestActive(rs + [q], ms', ds')
  {
  }

  lemma AdvanceKeeps(m: Mission, at: nat, ids: FreshIds)
    requires Inv(m) && m.status.Active? && !HasDecision(m.decisions, ids.decision) && !HasRequest(m.requests, ids.request)
    requires at == FirstOpenMilestone(m.milestones, m.planVersion) < |m.milestones|
    ensures Inv(Advance(m, at, ids))
  {
    hide Chain, Plans, Requests, Delegations, Claims, Lineage, Typed, States;
    OpenMilestone(m);
    var n := |m.decisions|;
    if at < n {
      DecidedIsMaterialized(m, ids);
    } else if !MilestoneBusy(m, m.milestones[at].id) {
      UndecidedHasNoDecision(m);
      MilestoneWorkable(m, at);
      var todo := ResolveAction(m, m.milestones[at]).value;
      var d := Decision(ids.decision, m.milestones[at].id, m.planVersion, todo.action, todo.target, todo.expected);
      DecidedParts(m, d, Materialization(MatId(d.id), d.id, ApprovalRequired, false));
      FreshMat(m, d.id);
      if NeedsApproval(d) {
        GatedDecisionKeeps(m, d, Advance(m, at, ids));
      } else {
        ReleasedDecisionKeeps(m, d, ids.request, Advance(m, at, ids));
      }
    }
  }

  lemma FreshMat(m: Mission, id: Id)
    requires Inv(m) && !HasDecision(m.decisions, id)
    ensures IndexOfMat(m.mats, MatId(id)) == |m.mats|
  {
    hide Plans, Numbered, Released, OnlyNewestActive, Delegations, Claims, Lineage, Typed, States;
    FreshDecisionUnrequested(m.requests, m.decisions, m.mats, m.milestones, id);
  }

  lemma UndecidedHasNoDecision(m: Mission)
    requires Inv(m) && |m.decisions| < |m.milestones|
    ensures LastDecisionFor(m.decisions, m.milestones[|m.decisions|].id, m.planVersion) == -1
  {
    hide Plans, Requests, Delegations, Claims, Lineage, Typed, States;
  }

  lemma MilestoneWorkable(m: Mission, at: nat)
    requires Inv(m) && at < |m.milestones|
    ensures ResolveAction(m, m.milestones[at]).Some? && !ResolveAction(m, m.milestones[at]).value.target.UnresolvedAgent?
    ensures m.milestones[at].spec.Some? ==> ResolveAction(m, m.milestones[at]) == m.milestones[at].spec
  {
    hide Chain, Requests, Delegations, Claims, Lineage, Typed, States;
    assert Workable(m.milestones[at]);
  }

  // ---- the end of a plan ---------------------------------------------------------------------------------

  lemma {:induction false} CountUniform(s: seq<string>, strategy: string)
    requires forall i | 0 <= i < |s| :: s[i] == strategy
    ensures CountStrategy(s, strategy) == |s|
  {
    if s != [] {
      CountUniform(s[..|s| - 1], strategy);
    }
  }

  lemma {:induction false} MaxOfNumbered(ms: seq<Milestone>)
    requires forall i | 0 <= i < |ms| :: ms[i].id == i + 1
    ensures MaxMilestoneId(ms) == |ms|
  {
    if ms != [] {
      MaxOfNumbered(ms[..|ms| - 1]);
    }
  }

  /** Replanning adds one pending milestone to the new plan. */
  lemma ReplanChain(m: Mission, p: Milestone)
    requires Inv(m) && |m.decisions| == |m.milestones| && m.kind.ClientAcquisition?
    requires |m.decisions| > 0 ==> !m.milestones[|m.decisions| - 1].status.MReady?
    requires p == Milestone(|m.milestones| + 1, m.planVersion + 1, MPending, None, None)
    ensures Chain(m.milestones + [p], m.decisions, m.mats)
    ensures forall i | 0 <= i < |m.milestones| :: m.milestones[i].status.MCompleted?
  {
    hide Requests, Delegations, Claims, Lineage, Typed, States;
    assert forall i | 0 <= i < |m.milestones| :: m.milestones[i].status.MCompleted?;
  }

  lemma ReplanParts(m: Mission, p: Milestone)
    requires Inv(m) && |m.decisions| == |m.milestones| && m.kind.ClientAcquisition?
    requires |m.decisions| > 0 ==> !m.milestones[|m.decisions| - 1].status.MReady?
    requires |m.strategies| < MAX_REPEATED_STRATEGIES
    requires p == Milestone(|m.milestones| + 1, m.planVersion + 1, MPending, None, None)
    ensures Chain(m.milestones + [p], m.decisions, m.mats)
    ensures Plans(m.kind, m.criterion, m.planVersion + 1, m.replanCount + 1, m.outreachBatches + 1,
                  m.strategies + [OUTREACH_STRATEGY], m.historicalPlans + [m.planVersion], m.milestones + [p])
    ensures m.planVersion !in m.historicalPlans
  {
    ReplanChain(m, p);
    hide Chain, Requests, Delegations, Claims, Lineage, Typed, States;
  }

  lemma FinishedPlan(m: Mission)
    requires Inv(m) && FirstOpenMilestone(m.milestones, m.planVersion) == |m.milestones|
    ensures |m.decisions| == |m.milestones| > 0 && !m.milestones[|m.decisions| - 1].status.MReady?
    ensures Idle(m.requests) && m.active == []
    ensures CountStrategy(m.strategies, OUTREACH_STRATEGY) == |m.strategies| == m.replanCount
    ensures MaxMilestoneId(m.milestones) == |m.milestones|
  {
    hide Chain, Requests, Delegations, Claims, Lineage, Typed, States;
    OpenMilestone(m);
    NothingOpenNothingActive(m);
    CountUniform(m.strategies, OUTREACH_STRATEGY);
    MaxOfNumbered(m.milestones);
  }

  /** Ending the mission, by completion or escalation, once nothing is active. */
  lemma EndKeeps(m: Mission, m': Mission)
    requires Inv(m) && Idle(m.requests) && m.active == []
    requires m' == m.(status := m'.status, planCompleted := true, objectiveAchieved := m'.objectiveAchieved,
                      progression := m'.progression, execution := m'.execution, dispatch := m'.dispatch,
                      autoContinue := m'.autoContinue, reason := m'.reason, zeroProgress := m'.zeroProgress,
                      lastVerified := m'.lastVerified, repeatedStrategies := m'.repeatedStrategies, progress := m'.progress)
    requires m'.status.Completed? || m'.status.WaitingDirector?
    requires m'.status.Completed? ==> m'.objectiveAchieved
    requires m'.objectiveAchieved ==> m.objectiveAchieved || CriteriaMet(m)
    requires !m'.progression.PRunning? && !m'.execution.ERunning? && 0 <= m'.progress <= 100
    ensures Inv(m')
  {
    hide Chain, Plans, Requests, Delegations, Claims, Lineage, Typed, Identities;
  }

  lemma ReplanKeeps(m: Mission, m': Mission)
    requires Inv(m) && FirstOpenMilestone(m.milestones, m.planVersion) == |m.milestones|
    requires m.kind.ClientAcquisition? && |m.strategies| < MAX_REPEATED_STRATEGIES && m.status.Active?
    requires var p := Milestone(|m.milestones| + 1, m.planVersion + 1, MPending, None, None);
      m' == m.(historicalPlans := m.historicalPlans + [m.planVersion], planVersion := m.planVersion + 1, planCompleted := false,
               milestones := m.milestones + [p], replanCount := m.replanCount + 1,
               progression := PReady, execution := EReady, dispatch := DNone, autoContinue := Running,
               outreachBatches := m.outreachBatches + 1, strategies := m.strategies + [OUTREACH_STRATEGY],
               repeatedStrategies := m'.repeatedStrategies, zeroProgress := m'.zeroProgress, lastVerified := m'.lastVerified,
               progress := m'.progress)
    requires 0 <= m'.progress <= 100
    ensures Inv(m')
  {
    hide Chain, Plans, Requests, Delegations, Claims, Lineage, Typed, Identities;
    FinishedPlan(m);
    var p := Milestone(|m.milestones| + 1, m.planVersion + 1, MPending, None, None);
    ReplanParts(m, p);
    ChainSizes(m.milestones, m.decisions, m.mats);
    IdleKeepsRequests(m.requests, m.milestones, m.decisions, m.mats, m'.milestones);
    assert (m.milestones + [p])[..|m.milestones|] == m.milestones;
    LineageKeeps(m.lineage, m.milestones, m.decisions, m.mats, m.requests, m.active, m.history, m.claims,
                 m'.milestones, m.decisions, m.mats, m.requests, m.active, m.history, m.claims);
    AcquisitionIsUntyped(m, m'.milestones);
  }

  lemma AcquisitionIsUntyped(m: Mission, ms: seq<Milestone>)
    requires Inv(m) && m.kind.ClientAcquisition?
    ensures Typed(m.criterion, m.mode, m.missionId, ms, m.decisions, m.requests, m.active, m.lineage)
  {
    hide Chain, Requests, Delegations, Claims, Lineage, States;
  }

  lemma ReplanShape(m: Mission)
    requires Inv(m) && FirstOpenMilestone(m.milestones, m.planVersion) == |m.milestones|
    requires m.kind.ClientAcquisition? && m.status.Active? && LimitReached(Reassess(m)).None?
    ensures Inv(Replan(Reassess(m)))
  {
    hide Chain, Plans, Requests, Delegations, Claims, Lineage, Typed, States, Identities, UpdateProgress;
    FinishedPlan(m);
    ReplanParts(m, Milestone(|m.milestones| + 1, m.planVersion + 1, MPending, None, None));
    var r := Reassess(m);
    var next := ActivatePlan(r, r.planVersion + 1,
                             Milestone(MaxMilestoneId(r.milestones) + 1, r.planVersion + 1, MPending, None, None));
    var strategies := r.strategies + [OUTREACH_STRATEGY];
    UpdateProgressFrame(next.(outreachBatches := r.outreachBatches + 1, strategies := strategies,
                              repeatedStrategies := CountStrategy(strategies, OUTREACH_STRATEGY)));
    ReplanKeeps(m, Replan(r));
  }

  lemma FinishKeeps(m: Mission)
    requires Inv(m) && m.status.Active? && FirstOpenMilestone(m.milestones, m.planVersion) == |m.milestones|
    ensures Inv(FinishPlan(m).0)
  {
    hide Chain, Plans, Requests, Delegations, Claims, Lineage, Typed, States, Identities, UpdateProgress, Replan, LimitReached;
    FinishedPlan(m);
    var r := Reassess(m);
    if CriteriaMet(m) {
      UpdateProgressFrame(m.(status := Completed, planCompleted := true, objectiveAchieved := true, progression := PCompleted,
                             execution := ECompleted, dispatch := DNone, autoContinue := Stopped));
      EndKeeps(m, FinishPlan(m).0);
    } else if m.kind.ArtifactProduction? {
      UpdateProgressFrame(Escalate(m.(planCompleted := true), ArtifactCriteriaUnmet));
      EndKeeps(m, FinishPlan(m).0);
    } else if LimitReached(r).Some? {
      UpdateProgressFrame(Escalate(r, LimitReached(r).value));
      EndKeeps(m, FinishPlan(m).0);
    } else {
      ReplanShape(m);
    }
  }

  lemma BootstrapPassKeeps(m: Mission, ids: FreshIds)
    requires Inv(m) && !HasDecision(m.decisions, ids.decision) && !HasRequest(m.requests, ids.request)
    ensures Inv(BootstrapPass(m, ids).0)
    ensures BootstrapPass(m, ids).1 ==> BootstrapPass(m, ids).0.decisions == m.decisions && BootstrapPass(m, ids).0.requests == m.requests
  {
    hide Chain, Plans, Requests, Delegations, Claims, Lineage, Typed, States, FinishPlan, Advance;
    if m.status.Active? {
      WithinLimits(m);
      OpenMilestone(m);
      var at := FirstOpenMilestone(m.milestones, m.planVersion);
      if at == |m.milestones| {
        FinishKeeps(m);
        FinishKeepsWork(m);
      } else {
        AdvanceKeeps(m, at, ids);
      }
    }
  }

  lemma WithinLimits(m: Mission)
    requires Inv(m)
    ensures m.planVersion <= MAX_PLAN_LOOPS + 1 && m.replanCount <= MAX_PLAN_LOOPS
  {
    hide Chain, Requests, Delegations, Claims, Lineage, Typed, States;
  }

  lemma FinishKeepsWork(m: Mission)
    ensures FinishPlan(m).0.decisions == m.decisions && FinishPlan(m).0.requests == m.requests
  {
    hide CriteriaMet, LimitReached, CompletedMilestones, RoundHalfEven, MaxMilestoneId, CountStrategy, VerifiedCount;
  }

  lemma {:induction false} BootstrapKeeps(m: Mission, ids: FreshIds)
    requires Inv(m) && !HasDecision(m.decisions, ids.decision) && !HasRequest(m.requests, ids.request)
    ensures Inv(Bootstrap(m, ids))
    decreases MAX_REPEATED_STRATEGIES - CountStrategy(m.strategies, OUTREACH_STRATEGY)
  {
    hide Inv, BootstrapPass;
    BootstrapPassKeeps(m, ids);
    if BootstrapPass(m, ids).1 {
      AnotherPassUsesAStrategy(m, ids);
      BootstrapKeeps(BootstrapPass(m, ids).0, ids);
    }
  }
}
