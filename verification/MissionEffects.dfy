/** What one operation can change. */
module MissionEffects {
  import opened Search
  import opened MissionModel
  import opened MissionGuard
  import opened MissionValidator
  import opened MissionSteps
  import opened MissionInvariant
  import opened MissionSafety
  import opened MissionSettling
  import opened MissionBootstrap
  import opened MissionRuns

  /** The mission's goal is fixed at creation. */
  predicate SameGoal(m: Mission, m': Mission) {
    m'.missionId == m.missionId && m'.kind == m.kind && m'.mode == m.mode && m'.criterion == m.criterion && m'.required == m.required
  }

  /** Records of materializations are only appended, unapproved, or updated in status and approval. */
  predicate Extends(mats: seq<Materialization>, mats': seq<Materialization>) {
    |mats| <= |mats'| && mats'[..|mats|] == mats && forall k | |mats| <= k < |mats'| :: !mats'[k].approved
  }

  lemma {:induction false} BootstrapEffect(m: Mission, ids: FreshIds)
    ensures var m' := Bootstrap(m, ids);
      SameGoal(m, m') && Extends(m.mats, m'.mats) && m'.lineage == m.lineage && m'.outcomes == m.outcomes
      && m'.active == m.active && m'.history == m.history
    decreases MAX_REPEATED_STRATEGIES - CountStrategy(m.strategies, OUTREACH_STRATEGY)
  {
    hide BootstrapPass;
    PassEffect(m, ids);
    if BootstrapPass(m, ids).1 {
      AnotherPassUsesAStrategy(m, ids);
      BootstrapEffect(BootstrapPass(m, ids).0, ids);
      ExtendsTransitive(m.mats, BootstrapPass(m, ids).0.mats, Bootstrap(m, ids).mats);
    }
  }

  lemma ExtendsTransitive(a: seq<Materialization>, b: seq<Materialization>, c: seq<Materialization>)
    requires Extends(a, b) && Extends(b, c)
    ensures Extends(a, c)
  {
    assert forall k | 0 <= k < |b| :: c[k] == c[..|b|][k];
    assert c[..|a|] == b[..|a|];
  }

  lemma PassEffect(m: Mission, ids: FreshIds)
    ensures var m' := BootstrapPass(m, ids).0;
      SameGoal(m, m') && Extends(m.mats, m'.mats) && m'.lineage == m.lineage && m'.outcomes == m.outcomes
      && m'.active == m.active && m'.history == m.history
  {
    hide FinishPlan, Advance, FirstIndex, SameGoal, Extends;
    FinishEffect(m);
    if FirstOpenMilestone(m.milestones, m.planVersion) < |m.milestones| {
      AdvanceEffect(m, FirstOpenMilestone(m.milestones, m.planVersion), ids);
    }
    NothingChanges(m);
  }

  lemma NothingChanges(m: Mission)
    ensures SameGoal(m, m) && Extends(m.mats, m.mats)
    ensures SameGoal(m, Escalate(m, ReplanLimit)) && SameGoal(m, Escalate(m, NoMilestones))
  {
  }

  lemma AdvanceEffect(m: Mission, at: nat, ids: FreshIds)
    requires at < |m.milestones|
    ensures var m' := Advance(m, at, ids);
      SameGoal(m, m') && Extends(m.mats, m'.mats) && m'.lineage == m.lineage && m'.outcomes == m.outcomes
      && m'.active == m.active && m'.history == m.history
  {
    hide MilestoneBusy, ResolveAction, LastDecisionFor, Materialize, FirstIndex;
    forall started: Mission, d: Decision
      ensures var r := Materialize(started, d, ids);
        SameGoal(started, r) && Extends(started.mats, r.mats) && r.lineage == started.lineage && r.outcomes == started.outcomes
        && r.active == started.active && r.history == started.history
    {
      MaterializeEffect(started, d, ids);
    }
  }

  lemma MaterializeEffect(m: Mission, d: Decision, ids: FreshIds)
    ensures var m' := Materialize(m, d, ids);
      SameGoal(m, m') && Extends(m.mats, m'.mats) && m'.lineage == m.lineage && m'.outcomes == m.outcomes
      && m'.active == m.active && m'.history == m.history
  {
    hide NeedsApproval, NewRequest, FirstIndex;
  }

  lemma FinishEffect(m: Mission)
    ensures var m' := FinishPlan(m).0;
      SameGoal(m, m') && Extends(m.mats, m'.mats) && m'.lineage == m.lineage && m'.outcomes == m.outcomes
      && m'.active == m.active && m'.history == m.history
  {
    hide CriteriaMet, LimitReached, CountStrategy, VerifiedCount, UpdateProgress, Replan;
    ReplanEffect(Reassess(m));
    UpdateProgressFrame(m.(status := Completed, planCompleted := true, objectiveAchieved := true, progression := PCompleted,
                           execution := ECompleted, dispatch := DNone, autoContinue := Stopped));
    UpdateProgressFrame(Escalate(m.(planCompleted := true), ArtifactCriteriaUnmet));
    if LimitReached(Reassess(m)).Some? {
      UpdateProgressFrame(Escalate(Reassess(m), LimitReached(Reassess(m)).value));
    }
  }

  lemma ReplanEffect(m: Mission)
    ensures var m' := Replan(m);
      SameGoal(m, m') && Extends(m.mats, m'.mats) && m'.lineage == m.lineage && m'.outcomes == m.outcomes
      && m'.active == m.active && m'.history == m.history
  {
    hide CompletedMilestones, RoundHalfEven, MaxMilestoneId, CountStrategy;
  }

  predicate IsApproved(mats: seq<Materialization>, x: MatId) { exists k | 0 <= k < |mats| :: mats[k].id == x && mats[k].approved }

  predicate IsRefused(mats: seq<Materialization>, x: MatId) {
    exists k | 0 <= k < |mats| :: mats[k].id == x && (mats[k].status.Rejected? || mats[k].status.Revoked?)
  }

  /** Only an approval approves, and a refusal is final. */
  lemma MatsEffect(m: Mission, e: Event, x: MatId)
    ensures IsApproved(Apply(m, e).mats, x) ==> IsApproved(m.mats, x) || (e.EvApprove? && e.matId == x && CanApprove(m, x))
    ensures IsRefused(m.mats, x) ==> IsRefused(Apply(m, e).mats, x)
  {
    hide Bootstrap, Complete, Fail, FirstIndex;
    var m' := Apply(m, e);
    match e {
      case EvBootstrap(ids) =>
        BootstrapEffect(m, ids);
        assert forall k | 0 <= k < |m.mats| :: m'.mats[k] == m'.mats[..|m.mats|][k];
      case EvComplete(id, ev, retryId) => CompleteEffect(m, id, ev, retryId);
      case EvFail(id, report, retryId) => FailEffect(m, id, report, retryId);
      case _ => MatUpdateEffect(m, e, x);
    }
  }

  lemma MatUpdateEffect(m: Mission, e: Event, x: MatId)
    requires !e.EvBootstrap? && !e.EvComplete? && !e.EvFail?
    ensures IsApproved(Apply(m, e).mats, x) ==> IsApproved(m.mats, x) || (e.EvApprove? && e.matId == x && CanApprove(m, x))
    ensures IsRefused(m.mats, x) ==> IsRefused(Apply(m, e).mats, x)
  {
    hide FirstIndex, IsApproved, IsRefused;
    match e {
      case EvApprove(matId, requestId) =>
        if CanApprove(m, matId) {
          OneMatChanges(m.mats, IndexOfMat(m.mats, matId), Apply(m, e).mats, x);
        }
      case EvReject(matId) =>
        if CanReject(m, matId) {
          OneMatChanges(m.mats, IndexOfMat(m.mats, matId), Apply(m, e).mats, x);
        }
      case EvRevoke(matId) =>
        if CanRevoke(m, matId) {
          OneMatChanges(m.mats, IndexOfMat(m.mats, matId), Apply(m, e).mats, x);
        }
      case _ => OtherEventsKeepMats(m, e);
    }
  }

  lemma OneMatChanges(mats: seq<Materialization>, k: nat, mats': seq<Materialization>, x: MatId)
    requires k < |mats| == |mats'| && mats' == mats[k := mats'[k]] && mats'[k].id == mats[k].id
    requires mats[k].status.ApprovalRequired? || mats[k].status.ExecutionReady?
    ensures IsApproved(mats', x) ==> IsApproved(mats, x) || (mats[k].id == x && mats'[k].approved && !mats[k].approved)
    ensures IsRefused(mats, x) ==> IsRefused(mats', x)
  {
    if IsApproved(mats', x) {
      var j :| 0 <= j < |mats'| && mats'[j].id == x && mats'[j].approved;
      assert j != k ==> mats[j] == mats'[j];
    }
    if IsRefused(mats, x) {
      var j :| 0 <= j < |mats| && mats[j].id == x && (mats[j].status.Rejected? || mats[j].status.Revoked?);
      assert mats'[j] == mats[j];
    }
  }

  lemma OtherEventsKeepMats(m: Mission, e: Event)
    requires !e.EvBootstrap? && !e.EvComplete? && !e.EvFail? && !e.EvApprove? && !e.EvReject? && !e.EvRevoke?
    ensures Apply(m, e).mats == m.mats
  {
    hide FirstIndex, CanClaim, CanRun, CanDelegate;
  }

  lemma {:induction false} RemoveIsSubset(ds: seq<Delegation>, id: Id)
    ensures forall d | d in RemoveDelegation(ds, id) :: d in ds
  {
    if ds != [] {
      RemoveIsSubset(ds[1..], id);
    }
  }

  lemma FailEffect(m: Mission, delegationId: Id, report: FailureReport, retryId: Id)
    ensures var m' := Fail(m, delegationId, report, retryId);
      SameGoal(m, m') && m'.mats == m.mats && m'.lineage == m.lineage && m'.outcomes == m.outcomes
      && (forall d | d in m'.active :: d in m.active)
      && (forall d | d in m'.history :: d in m.history || exists q :: q in m.active && d.matId == q.matId)
  {
    hide FirstIndex, RemoveDelegation, Classify;
    var d := IndexOfDelegation(m.active, delegationId);
    if d < |m.active| {
      RemoveIsSubset(m.active, m.active[d].id);
    }
  }

  lemma CompleteEffect(m: Mission, delegationId: Id, ev: Evidence, retryId: Id)
    ensures var m' := Complete(m, delegationId, ev, retryId);
      SameGoal(m, m') && m'.mats == m.mats && m'.outcomes == m.outcomes
      && (m'.lineage == m.lineage || (m'.lineage != [] && m'.lineage[..|m'.lineage| - 1] == m.lineage))
      && (forall d | d in m'.active :: d in m.active)
      && (forall d | d in m'.history :: d in m.history || exists q :: q in m.active && d.matId == q.matId)
  {
    hide FirstIndex, RemoveDelegation, Fail, UpdateProgress, LineageOf, AdmissionGate;
    var d := IndexOfDelegation(m.active, delegationId);
    if !CompletedBefore(m, delegationId) && d < |m.active| {
      if CompletionGate(m, d, ev).Admitted? {
        RemoveIsSubset(m.active, m.active[d].id);
        AcceptEffect(m, d, ev);
      } else {
        FailEffect(m, delegationId, FailureReport(CompletionGate(m, d, ev).error, ev.terminalEntity), retryId);
      }
    }
  }

  lemma AcceptEffect(m: Mission, d: nat, ev: Evidence)
    requires d < |m.active| && CompletionGate(m, d, ev).Admitted?
    ensures var m' := Accept(m, d, ev);
      SameGoal(m, m') && m'.mats == m.mats && m'.outcomes == m.outcomes
      && m'.active == RemoveDelegation(m.active, m.active[d].id) && m'.history == m.history + [m.active[d].(status := DelCompleted)]
      && (m'.lineage == m.lineage || (m'.lineage != [] && m'.lineage[..|m'.lineage| - 1] == m.lineage))
  {
    hide FirstIndex, RemoveDelegation, AdmissionGate, CompletedMilestones, RoundHalfEven;
  }

  predicate SameWorkAndEvidence(m: Mission, m': Mission) {
    SameGoal(m, m') && m'.lineage == m.lineage && m'.outcomes == m.outcomes && m'.active == m.active && m'.history == m.history
  }

  /** The approval gates touch neither delegations nor evidence. */
  lemma GatesKeepWork(m: Mission, e: Event)
    requires e.EvApprove? || e.EvReject? || e.EvRevoke?
    ensures SameWorkAndEvidence(m, Apply(m, e))
  {
    hide FirstIndex, CanApprove, CanReject, CanRevoke, NewRequest;
    if e.EvApprove? {
      assert SameWorkAndEvidence(m, Approve(m, e.matId, e.requestId));
    } else if e.EvReject? {
      assert SameWorkAndEvidence(m, Reject(m, e.matId));
    } else {
      assert SameWorkAndEvidence(m, Revoke(m, e.matId));
    }
  }
}
