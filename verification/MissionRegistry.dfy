/** The registry: each operation takes the lock, loads a mission, updates it step by step and saves it.

    A mission is re-read from storage whenever the lock is taken, so missions are values here and no operation can
    observe another one half-way. Every handler keeps the
    invariant of a mission as long as the ids it is given are new.
 */
module MissionRegistry {
  import opened Search
  import opened MissionModel
  import opened MissionGuard
  import opened MissionValidator
  import opened MissionInvariant
  import Steps = MissionSteps
  import Safety = MissionSafety
  import Settling = MissionSettling
  import Bootstrap = MissionBootstrap
  import Effects = MissionEffects

  class MissionRegistry {
    var missions: map<Id, Mission>

    constructor ()
      ensures missions == map[]
    {
      missions := map[];
    }

    method SaveMission(mission: Mission)
      modifies this
      ensures missions == old(missions)[mission.missionId := mission]
    {
      missions := missions[mission.missionId := mission];
    }

    /** Missions are filed under their own id. */
    ghost predicate Filed()
      reads this
    {
      forall id | id in missions :: missions[id].missionId == id
    }

    method CreateMission(id: Id, spec: Steps.Spec) returns (mission: Mission)
      requires Filed() && id !in missions
      modifies this
      ensures Filed() && mission == Steps.Create(id, spec) && missions == old(missions)[id := mission]
      ensures Steps.SpecOk(spec) ==> Inv(mission)
    {
      hide Inv, Steps.SpecOk;
      if Steps.SpecOk(spec) {
        Safety.CreateEstablishes(id, spec);
      }
      mission := Steps.Create(id, spec);
      SaveMission(mission);
    }

    method UpdateMissionStatus(id: Id, status: MissionStatus) returns (found: bool)
      requires Filed()
      modifies this
      ensures Filed() && found == (id in old(missions))
      ensures missions == if found then old(missions)[id := Steps.UpdateStatus(old(missions)[id], status)] else old(missions)
      ensures found && (status.Paused? || status.Active?) && Inv(old(missions)[id]) ==> Inv(missions[id])
    {
      hide Inv;
      if id !in missions {
        return false;
      }
      var mission := missions[id];
      StatusKept(mission, status);
      mission := mission.(status := status);
      if status.Paused? {
        mission := mission.(autoContinue := Stopped);
        mission := mission.(progression := PPaused);
      } else if status.Active? {
        mission := mission.(progression := PReady);
        mission := mission.(autoContinue := Running);
      }
      SaveMission(mission);
      return true;
    }

    // ---- request, delegation and claim -------------------------------------------------------------------

    method ClaimReadyRequest(id: Id) returns (claimed: Option<Request>)
      requires Filed()
      modifies this
      ensures Filed()
      ensures missions == if id in old(missions) then old(missions)[id := Steps.ClaimReadyRequest(old(missions)[id])] else old(missions)
      ensures claimed.Some? <==> id in old(missions) && old(missions)[id].status.Active?
                                 && FirstReadyRequest(old(missions)[id].requests) < |old(missions)[id].requests|
      ensures claimed.Some? ==>
                var rs := old(missions)[id].requests; claimed.value == rs[FirstReadyRequest(rs)].(status := RClaimed)
      ensures claimed.None? ==> missions == old(missions)
      ensures id in old(missions) && Inv(old(missions)[id]) ==> Inv(missions[id])
    {
      hide Inv;
      if id !in missions || !missions[id].status.Active? {
        return None;
      }
      var mission := missions[id];
      RequestClaimKept(mission);
      var r := FirstReadyRequest(mission.requests);
      if r == |mission.requests| {
        return None;
      }
      mission := mission.(requests := mission.requests[r := mission.requests[r].(status := RClaimed)]);
      mission := mission.(dispatch := DClaiming);
      mission := mission.(progression := PDispatching);
      mission := mission.(execution := EReady);
      SaveMission(mission);
      return Some(mission.requests[r]);
    }

    /** The delegation of a request: the existing one, or a new one for a claimed request. */
    method CreateDelegation(id: Id, requestId: Id, delegationId: Id) returns (created: Option<Delegation>)
      requires Filed()
      modifies this
      ensures Filed()
      ensures missions == if id in old(missions) then old(missions)[id := Steps.CreateDelegation(old(missions)[id], requestId, delegationId)] else old(missions)
      ensures created.Some? ==> id in missions && created.value in AllDelegations(missions[id]) && created.value.requestId == requestId
      ensures created.None? ==> missions == old(missions)
      ensures created.Some? <==> id in old(missions) && Steps.HasOrGetsDelegation(old(missions)[id], requestId)
      ensures id in old(missions) && old(missions)[id].status.Active? && Steps.Delegated(old(missions)[id], requestId)
              && IndexOfRequest(old(missions)[id].requests, requestId) < |old(missions)[id].requests| ==>
              created.Some? && missions == old(missions)
      ensures id in old(missions) && Inv(old(missions)[id]) && !HasDelegation(old(missions)[id].active, delegationId) && !HasDelegation(old(missions)[id].history, delegationId) ==> Inv(missions[id])
    {
      hide Inv;
      if id !in missions || !missions[id].status.Active? {
        return None;
      }
      var mission := missions[id];
      DelegationKept(mission, requestId, delegationId);
      var r := IndexOfRequest(mission.requests, requestId);
      if r == |mission.requests| {
        return None;
      }
      var existing := DelegationOfRequest(mission.active, requestId);
      if existing < |mission.active| {
        return Some(mission.active[existing]);
      }
      existing := DelegationOfRequest(mission.history, requestId);
      if existing < |mission.history| {
        return Some(mission.history[existing]);
      }
      var request := mission.requests[r];
      if !request.status.RClaimed? {
        return None;
      }
      var delegation := Delegation(delegationId, requestId, request.matId, request.decisionId, request.target, request.action,
                                   request.milestoneId, request.plan, request.expected, DelPending, None);
      mission := mission.(active := mission.active + [delegation]);
      request := request.(status := RDispatched);
      request := request.(delegationId := Some(delegationId));
      mission := mission.(requests := mission.requests[r := request]);
      mission := mission.(dispatch := DDispatched);
      mission := mission.(execution := EDispatched);
      mission := mission.(progression := PQueued);
      mission := mission.(autoContinue := Running);
      SaveMission(mission);
      assert mission.active[|mission.active| - 1] == delegation;
      assert AllDelegations(mission)[|mission.active| - 1] == delegation;
      return Some(delegation);
    }

    method ClaimPendingDelegation(id: Id, claimId: Id, worker: Id) returns (claimed: Option<(Delegation, Claim)>)
      requires Filed()
      modifies this
      ensures Filed()
      ensures missions == if id in old(missions) then old(missions)[id := Steps.ClaimDelegation(old(missions)[id], claimId, worker)] else old(missions)
      ensures claimed.Some? ==>
                id in missions && claimed.value.0 in missions[id].active && claimed.value.1 in missions[id].claims
                && claimed.value.1.delegationId == claimed.value.0.id && claimed.value.1.status.ClaimActive?
      ensures claimed.None? ==> missions == old(missions)
      ensures id in old(missions) && Inv(old(missions)[id]) && !HasClaim(old(missions)[id].claims, claimId) ==> Inv(missions[id])
    {
      hide Inv;
      if id !in missions || !missions[id].status.Active? {
        return None;
      }
      var mission := missions[id];
      WorkClaimKept(mission, claimId, worker);
      var d := FirstPendingDelegation(mission.active);
      if d == |mission.active| {
        return None;
      }
      var delegation := mission.active[d];
      var existing := ActiveClaimOf(mission.claims, delegation.id);
      if existing < |mission.claims| {
        return Some((delegation, mission.claims[existing]));
      }
      var claim := Claim(claimId, delegation.id, delegation.requestId, worker, ClaimActive);
      delegation := delegation.(status := DelClaimed, workerClaimId := Some(claimId));
      mission := mission.(active := mission.active[d := delegation]);
      var r := IndexOfRequest(mission.requests, delegation.requestId);
      if r < |mission.requests| {
        mission := mission.(requests := mission.requests[r := mission.requests[r].(status := RRunning)]);
      }
      mission := mission.(claims := mission.claims + [claim]);
      mission := mission.(progression := PRunning);
      mission := mission.(execution := ERunning);
      mission := mission.(dispatch := DClaimed);
      SaveMission(mission);
      assert mission.active[d] == delegation && mission.claims[|mission.claims| - 1] == claim;
      return Some((delegation, claim));
    }

    method MarkDelegationRunning(id: Id, delegationId: Id) returns (ok: bool)
      requires Filed()
      modifies this
      ensures Filed()
      ensures missions == if id in old(missions) then old(missions)[id := Steps.MarkRunning(old(missions)[id], delegationId)] else old(missions)
      ensures ok <==> id in old(missions) && Steps.CanRun(old(missions)[id], delegationId)
      ensures id in old(missions) && Inv(old(missions)[id]) ==> Inv(missions[id])
    {
      hide Inv;
      if id !in missions {
        return false;
      }
      var mission := missions[id];
      RunningKept(mission, delegationId);
      var d := IndexOfDelegation(mission.active, delegationId);
      if d == |mission.active| || !(mission.active[d].status.DelClaimed? || mission.active[d].status.DelRunning?) {
        return false;
      }
      mission := mission.(active := mission.active[d := mission.active[d].(status := DelRunning)]);
      SaveMission(mission);
      return true;
    }

    // ---- approval gates ----------------------------------------------------------------------------------

    method ApproveMaterialization(id: Id, matId: MatId, requestId: Id) returns (ok: bool)
      requires Filed()
      modifies this
      ensures Filed()
      ensures missions == if id in old(missions) then old(missions)[id := Steps.Approve(old(missions)[id], matId, requestId)] else old(missions)
      ensures ok <==> id in old(missions) && Steps.CanApprove(old(missions)[id], matId)
      ensures id in old(missions) && Inv(old(missions)[id]) && !HasRequest(old(missions)[id].requests, requestId) ==> Inv(missions[id])
    {
      hide Inv;
      if id !in missions || !missions[id].status.Active? {
        return false;
      }
      var mission := missions[id];
      ApprovalKept(mission, matId, requestId);
      var k := IndexOfMat(mission.mats, matId);
      if k == |mission.mats| || !mission.mats[k].status.ApprovalRequired? {
        return false;
      }
      var decision := IndexOfDecision(mission.decisions, mission.mats[k].decisionId);
      if decision == |mission.decisions| {
        return false;
      }
      mission := mission.(mats := mission.mats[k := mission.mats[k].(status := ExecutionReady, approved := true)]);
      if FirstRequestOfMat(mission.requests, matId) == |mission.requests| {
        var d := mission.decisions[decision];
        mission := mission.(requests := mission.requests + [
          Request(requestId, matId, d.id, RReady, 1, RequestKey(matId, 1), d.target, d.action, d.milestoneId, d.plan, d.expected, None, None)]);
      }
      mission := mission.(progression := PReady);
      mission := mission.(dispatch := DAwaiting);
      mission := mission.(autoContinue := Running);
      SaveMission(mission);
      return true;
    }

    method RejectMaterialization(id: Id, matId: MatId) returns (ok: bool)
      requires Filed()
      modifies this
      ensures Filed()
      ensures missions == if id in old(missions) then old(missions)[id := Steps.Reject(old(missions)[id], matId)] else old(missions)
      ensures ok <==> id in old(missions) && Steps.CanReject(old(missions)[id], matId)
      ensures id in old(missions) && Inv(old(missions)[id]) ==> Inv(missions[id])
    {
      hide Inv;
      if id !in missions || !missions[id].status.Active? {
        return false;
      }
      var mission := missions[id];
      RejectionKept(mission, matId);
      var k := IndexOfMat(mission.mats, matId);
      if k == |mission.mats| || !mission.mats[k].status.ApprovalRequired? {
        return false;
      }
      mission := mission.(mats := mission.mats[k := mission.mats[k].(status := Rejected)]);
      mission := Steps.Block(mission, ApprovalRejected);
      mission := mission.(status := WaitingDirector);
      SaveMission(mission);
      return true;
    }

    method RevokeMaterialization(id: Id, matId: MatId) returns (ok: bool)
      requires Filed()
      modifies this
      ensures Filed()
      ensures missions == if id in old(missions) then old(missions)[id := Steps.Revoke(old(missions)[id], matId)] else old(missions)
      ensures ok <==> id in old(missions) && Steps.CanRevoke(old(missions)[id], matId)
      ensures id in old(missions) && Inv(old(missions)[id]) ==> Inv(missions[id])
    {
      hide Inv;
      if id !in missions || !missions[id].status.Active? {
        return false;
      }
      var mission := missions[id];
      RevocationKept(mission, matId);
      var k := IndexOfMat(mission.mats, matId);
      if k == |mission.mats| || !mission.mats[k].status.ExecutionReady? {
        return false;
      }
      var r := FirstRequestOfMat(mission.requests, matId);
      if r < |mission.requests| && !(mission.requests[r].status.RReady? || mission.requests[r].status.RClaimed?) {
        return false;
      }
      mission := mission.(mats := mission.mats[k := mission.mats[k].(status := Revoked)]);
      if r < |mission.requests| {
        mission := mission.(requests := mission.requests[r := mission.requests[r].(status := RBlocked)]);
      }
      mission := Steps.Block(mission, ApprovalRevoked);
      mission := mission.(status := WaitingDirector);
      SaveMission(mission);
      return true;
    }

    // ---- results -----------------------------------------------------------------------------------------

    static method CloseFailedDelegation(m: Mission, d: nat) returns (mission: Mission)
      requires d < |m.active|
      ensures mission == Steps.CloseDelegation(m, d)
    {
      mission := m;
      var delegation := mission.active[d];
      var c := IndexOfClaim(mission.claims, delegation.workerClaimId);
      if c < |mission.claims| {
        mission := mission.(claims := mission.claims[c := mission.claims[c].(status := ClaimFailed)]);
      }
      mission := mission.(history := mission.history + [delegation.(status := DelFailed)]);
      mission := mission.(active := Steps.RemoveDelegation(mission.active, delegation.id));
    }

    /** A report about a delegation's failure: close it, then retry its request or escalate. */
    method ProcessExecutionFailure(id: Id, delegationId: Id, report: FailureReport, retryId: Id) returns (ok: bool)
      requires Filed()
      modifies this
      ensures Filed() && ok == (id in old(missions))
      ensures missions == if ok then old(missions)[id := Steps.Fail(old(missions)[id], delegationId, report, retryId)] else old(missions)
      ensures id in old(missions) && Inv(old(missions)[id]) && HasDelegation(old(missions)[id].active, delegationId) && !HasRequest(old(missions)[id].requests, retryId) ==> Inv(missions[id])
    {
      hide Inv;
      if id !in missions {
        return false;
      }
      FailureKept(missions[id], delegationId, report, retryId);
      var mission := FailMission(missions[id], delegationId, report, retryId);
      SaveMission(mission);
      return true;
    }

    static method FailMission(m: Mission, delegationId: Id, report: FailureReport, retryId: Id) returns (mission: Mission)
      ensures mission == Steps.Fail(m, delegationId, report, retryId) && mission.missionId == m.missionId
    {
      hide FirstIndex, Steps.Classify;
      mission := m;
      var d := IndexOfDelegation(mission.active, delegationId);
      var r := |mission.requests|;
      if d < |mission.active| {
        r := IndexOfRequest(mission.requests, mission.active[d].requestId);
        mission := CloseFailedDelegation(mission, d);
      }
      var attempt := MAX_EXECUTION_RETRIES as int;
      if r < |mission.requests| {
        mission := mission.(requests := mission.requests[r := mission.requests[r].(status := RFailed)]);
        attempt := mission.requests[r].attempt;
      }
      var verdict := Steps.Classify(mission.mode, report, r < |mission.requests|, attempt);
      RetryNeedsRequest(mission.mode, report, r < |mission.requests|, attempt);
      match verdict {
        case Retry =>
          var retry := mission.requests[r];
          retry := retry.(id := retryId, status := RReady, attempt := attempt + 1,
                          key := RequestKey(retry.matId, attempt + 1), retryOf := Some(retry.id));
          retry := retry.(delegationId := None);
          mission := mission.(retryCount := mission.retryCount + 1, requests := mission.requests + [retry], progression := PReady,
                              execution := EReady, dispatch := DAwaiting, autoContinue := Running);
        case GiveUp(reason) =>
          mission := Steps.Escalate(mission, reason);
      }
    }

    /** A specialist's result: recorded when its evidence is admitted, treated as a failure when it is refused. */
    method ProcessDelegationCompletion(id: Id, delegationId: Id, ev: Evidence, retryId: Id) returns (ok: bool)
      requires Filed()
      modifies this
      ensures Filed()
      ensures missions == if id in old(missions) then old(missions)[id := Steps.Complete(old(missions)[id], delegationId, ev, retryId)] else old(missions)
      ensures ok <==> id in old(missions) && (var m := old(missions)[id]; var d := IndexOfDelegation(m.active, delegationId);
                      Steps.CompletedBefore(m, delegationId) || (d < |m.active| && Steps.CompletionGate(m, d, ev).Admitted?))
      ensures id in old(missions) && Inv(old(missions)[id]) && !HasRequest(old(missions)[id].requests, retryId) ==> Inv(missions[id])
    {
      hide Inv;
      if id !in missions {
        return false;
      }
      var mission := missions[id];
      CompletionKept(mission, delegationId, ev, retryId);
      if Steps.CompletedBefore(mission, delegationId) {
        return true;
      }
      var d := IndexOfDelegation(mission.active, delegationId);
      if d == |mission.active| {
        return false;
      }
      var gate := AdmissionGate(mission.mode, mission.active[d].expected, ev);
      var r := IndexOfRequest(mission.requests, mission.active[d].requestId);
      var c := IndexOfClaim(mission.claims, mission.active[d].workerClaimId);
      if gate.Admitted? && (r == |mission.requests| || c == |mission.claims| || !mission.claims[c].status.ClaimActive?) {
        gate := Refused(EXECUTION_LINEAGE_VALIDATION_FAILED);
      }
      match gate {
        case Refused(error) =>
          var _ := ProcessExecutionFailure(id, delegationId, FailureReport(error, ev.terminalEntity), retryId);
          return false;
        case Admitted =>
          var accepted := AcceptEvidence(mission, d, r, c, ev);
          SaveMission(accepted);
          return true;
      }
    }

    static method AcceptEvidence(m: Mission, d: nat, r: nat, c: nat, ev: Evidence) returns (mission: Mission)
      requires d < |m.active| && Steps.CompletionGate(m, d, ev).Admitted?
      requires r == IndexOfRequest(m.requests, m.active[d].requestId) && c == IndexOfClaim(m.claims, m.active[d].workerClaimId)
      ensures mission == Steps.Accept(m, d, ev)
    {
      mission := m;
      mission := mission.(requests := mission.requests[r := mission.requests[r].(status := RCompleted)]);
      mission := mission.(claims := mission.claims[c := mission.claims[c].(status := ClaimCompleted)]);
      var delegation := mission.active[d].(status := DelCompleted);
      var artifact := LineageOf(mission.missionId, delegation, mission.claims[c].id, ev);
      if !(exists i | 0 <= i < |mission.lineage| :: mission.lineage[i].id == artifact.id) {
        mission := mission.(lineage := mission.lineage + [artifact]);
      }
      mission := mission.(history := mission.history + [delegation]);
      mission := mission.(active := Steps.RemoveDelegation(mission.active, delegation.id));
      var at := IndexOfMilestone(mission.milestones, delegation.milestoneId);
      if at < |mission.milestones| {
        mission := mission.(milestones :=
          mission.milestones[at := mission.milestones[at].(status := MCompleted, artifactId := Some(artifact.id))]);
      }
      mission := mission.(execution := EReady, progression := PReady, dispatch := DNone, autoContinue := Running, retryCount := 0);
      mission := Steps.UpdateProgress(mission);
    }

    /** Evidence about an identity is kept once; only an unverified record is replaced, by a verified one. */
    method RecordSuccessEvidence(id: Id, outcome: Outcome) returns (ok: bool)
      requires Filed()
      modifies this
      ensures Filed()
      ensures missions == if id in old(missions) then old(missions)[id := Steps.RecordOutcome(old(missions)[id], outcome)] else old(missions)
      ensures ok ==> id in missions && outcome in missions[id].outcomes
      ensures id in old(missions) && Inv(old(missions)[id]) ==> Inv(missions[id])
    {
      hide Inv;
      if id !in missions {
        return false;
      }
      var mission := missions[id];
      OutcomeKept(mission, outcome);
      var i := IndexOfOutcome(mission.outcomes, outcome.identity);
      if i < |mission.outcomes| {
        if mission.outcomes[i].verified || !outcome.verified {
          return false;
        }
        mission := mission.(outcomes := mission.outcomes[i := outcome]);
        assert mission.outcomes[i] == outcome;
      } else {
        mission := mission.(outcomes := mission.outcomes + [outcome]);
        assert mission.outcomes[|mission.outcomes| - 1] == outcome;
      }
      SaveMission(mission);
      return true;
    }

    // ---- bootstrap ---------------------------------------------------------------------------------------

    /** Turn a decision into a gated materialization, or into a released one with its first request; once only. */
    static method MaterializeDecision(m: Mission, d: Decision, ids: Steps.FreshIds) returns (mission: Mission)
      ensures mission == Steps.Materialize(m, d, ids)
    {
      mission := m;
      var matId := MatId(d.id);
      if IndexOfMat(mission.mats, matId) < |mission.mats| {
        return;
      }
      if d.target.UnresolvedAgent? {
        mission := Steps.Block(mission, SpecialistUnresolved);
        return;
      }
      var gated := Steps.MentionsApproval(d.action) || d.target.Communication?;
      mission := mission.(progression := if gated then PWaiting else PReady);
      mission := mission.(autoContinue := if gated then WaitingApproval else Running);
      if gated {
        mission := mission.(pendingApprovals := mission.pendingApprovals + [ids.approval]);
      }
      mission := mission.(mats := mission.mats + [Materialization(matId, d.id, if gated then ApprovalRequired else ExecutionReady, false)]);
      if !gated {
        mission := mission.(requests := mission.requests + [
          Request(ids.request, matId, d.id, RReady, 1, RequestKey(matId, 1), d.target, d.action, d.milestoneId, d.plan, d.expected, None, None)]);
        mission := mission.(dispatch := DAwaiting);
      }
    }

    static method ActivateNewPlan(m: Mission, version: nat, milestone: Milestone) returns (mission: Mission)
      ensures mission == Steps.ActivatePlan(m, version, milestone)
    {
      mission := m;
      if mission.planVersion in mission.historicalPlans {
        return;
      }
      mission := mission.(historicalPlans := mission.historicalPlans + [mission.planVersion]);
      mission := mission.(planVersion := version);
      mission := mission.(planCompleted := false);
      mission := mission.(milestones := mission.milestones + [milestone]);
      mission := mission.(replanCount := mission.replanCount + 1);
      mission := mission.(progression := PReady, execution := EReady, dispatch := DNone, autoContinue := Running);
    }

    /** A plan without open milestones: complete the mission, escalate it, or activate the next plan. */
    static method FinishActivePlan(m: Mission) returns (mission: Mission, again: bool)
      ensures (mission, again) == Steps.FinishPlan(m)
    {
      hide Identities, Steps.CountStrategy, Steps.MaxMilestoneId, Steps.UpdateProgress, Steps.ActivatePlan;
      mission, again := m, false;
      if CriteriaMet(mission) {
        mission := mission.(status := Completed);
        mission := mission.(planCompleted := true);
        mission := mission.(objectiveAchieved := true);
        mission := mission.(progression := PCompleted, execution := ECompleted, dispatch := DNone, autoContinue := Stopped);
        mission := Steps.UpdateProgress(mission);
        return;
      }
      mission := mission.(planCompleted := true);
      if mission.kind.ArtifactProduction? {
        mission := Steps.Escalate(mission, ArtifactCriteriaUnmet);
        mission := Steps.UpdateProgress(mission);
        return;
      }
      var verified := VerifiedCount(mission);
      if verified <= mission.lastVerified {
        mission := mission.(zeroProgress := mission.zeroProgress + 1);
      } else {
        mission := mission.(zeroProgress := 0);
      }
      mission := mission.(lastVerified := verified);
      var repeated := Steps.CountStrategy(mission.strategies, Steps.OUTREACH_STRATEGY);
      mission := mission.(repeatedStrategies := repeated);
      if mission.replanCount >= MAX_PLAN_LOOPS {
        mission := Steps.Escalate(mission, ReplanLimit);
      } else if mission.zeroProgress >= MAX_ZERO_PROGRESS_PLANS {
        mission := Steps.Escalate(mission, ZeroProgressLimit);
      } else if repeated >= MAX_REPEATED_STRATEGIES {
        mission := Steps.Escalate(mission, RepeatedStrategyLimit);
      } else if mission.outreachBatches >= MAX_OUTREACH_BATCHES {
        mission := Steps.Escalate(mission, OutreachBatchLimit);
      } else {
        var batch := mission.outreachBatches + 1;
        var next := Milestone(Steps.MaxMilestoneId(mission.milestones) + 1, mission.planVersion + 1, MPending, None, None);
        var strategies := mission.strategies + [Steps.OUTREACH_STRATEGY];
        ActivationKeepsStrategies(mission, mission.planVersion + 1, next);
        mission := ActivateNewPlan(mission, mission.planVersion + 1, next);
        mission := mission.(outreachBatches := batch);
        mission := mission.(strategies := mission.strategies + [Steps.OUTREACH_STRATEGY]);
        mission := mission.(repeatedStrategies := Steps.CountStrategy(mission.strategies, Steps.OUTREACH_STRATEGY));
        again := true;
      }
      mission := Steps.UpdateProgress(mission);
    }

    /** Decide on an open milestone, unless it is being worked on or was decided before. */
    static method AdvanceMilestone(m: Mission, at: nat, ids: Steps.FreshIds) returns (mission: Mission)
      requires at < |m.milestones|
      ensures mission == Steps.Advance(m, at, ids)
    {
      hide Steps.Materialize, LastDecisionFor;
      mission := m;
      var current := mission.milestones[at];
      if Steps.MilestoneBusy(mission, current.id) {
        return;
      }
      var known := LastDecisionFor(mission.decisions, current.id, mission.planVersion);
      if known >= 0 {
        mission := MaterializeDecision(mission, mission.decisions[known], ids);
        return;
      }
      mission := mission.(milestones := mission.milestones[at := current.(status := MReady)]);
      var todo := Steps.ResolveAction(mission, current);
      if todo.None? {
        mission := Steps.Escalate(mission, UnresolvedPlanAction);
        return;
      }
      var decision := Decision(ids.decision, current.id, mission.planVersion, todo.value.action, todo.value.target, todo.value.expected);
      mission := mission.(decisions := mission.decisions + [decision]);
      mission := MaterializeDecision(mission, decision, ids);
    }

    /** One pass, and another one after a new plan was activated: the recursion ends from every stored state. */
    method BootstrapMission(id: Id, ids: Steps.FreshIds)
      requires Filed() && id in missions
      modifies this
      ensures Filed() && missions == old(missions)[id := Steps.Bootstrap(old(missions)[id], ids)]
      ensures id in old(missions) && Inv(old(missions)[id]) && !HasDecision(old(missions)[id].decisions, ids.decision) && !HasRequest(old(missions)[id].requests, ids.request) ==> Inv(missions[id])
      decreases MAX_REPEATED_STRATEGIES - Steps.CountStrategy(missions[id].strategies, Steps.OUTREACH_STRATEGY)
    {
      hide Inv, Steps.FinishPlan, Steps.Advance, Effects.Extends, FirstIndex;
      var mission := missions[id];
      BootstrapKept(mission, ids);
      ghost var before := mission;
      Effects.PassEffect(before, ids);
      if !mission.status.Active? {
        return;
      }
      if mission.planVersion > MAX_PLAN_LOOPS + 1 || mission.replanCount > MAX_PLAN_LOOPS {
        mission := Steps.Escalate(mission, ReplanLimit);
        SaveMission(mission);
        return;
      }
      var again := false;
      var at := FirstOpenMilestone(mission.milestones, mission.planVersion);
      if FirstMilestoneOfPlan(mission.milestones, mission.planVersion) == |mission.milestones| {
        mission := Steps.Escalate(mission, NoMilestones);
      } else if at == |mission.milestones| {
        mission, again := FinishActivePlan(mission);
      } else {
        mission := AdvanceMilestone(mission, at, ids);
      }
      assert (mission, again) == Steps.BootstrapPass(before, ids);
      SaveMission(mission);
      if again {
        Steps.AnotherPassUsesAStrategy(before, ids);
        BootstrapMission(id, ids);
      }
    }

    // ---- quarantine --------------------------------------------------------------------------------------

    /** Block a mission's executable work in place: requests, then claims, then delegations. */
    static method QuarantineMission(m: Mission) returns (mission: Mission)
      ensures mission == Steps.Quarantine(m)
    {
      mission := m;
      for i := 0 to |m.requests|
        invariant |mission.requests| == |m.requests| && mission == m.(requests := mission.requests)
        invariant forall k | 0 <= k < i :: mission.requests[k] == Steps.BlockRequest(m.requests[k])
        invariant forall k | i <= k < |m.requests| :: mission.requests[k] == m.requests[k]
      {
        if ActiveRequest(mission.requests[i].status) {
          mission := mission.(requests := mission.requests[i := mission.requests[i].(status := RBlocked)]);
        }
      }
      var blocked := mission.requests;
      for i := 0 to |m.claims|
        invariant |mission.claims| == |m.claims| && mission == m.(requests := blocked, claims := mission.claims)
        invariant forall k | 0 <= k < i :: mission.claims[k] == Steps.InvalidateClaim(m.claims[k])
        invariant forall k | i <= k < |m.claims| :: mission.claims[k] == m.claims[k]
      {
        if mission.claims[i].status.ClaimActive? {
          mission := mission.(claims := mission.claims[i := mission.claims[i].(status := ClaimInvalidated)]);
        }
      }
      var invalidated := mission.claims;
      for i := 0 to |m.active|
        invariant mission == m.(requests := blocked, claims := invalidated, history := mission.history)
        invariant |mission.history| == |m.history| + i && mission.history[..|m.history|] == m.history
        invariant forall k | 0 <= k < i :: mission.history[|m.history| + k] == Steps.InvalidateDelegation(m.active[k])
      {
        mission := mission.(history := mission.history + [Steps.InvalidateDelegation(m.active[i])]);
      }
      mission := mission.(active := []);
      var moved := seq(|m.active|, i requires 0 <= i < |m.active| => Steps.InvalidateDelegation(m.active[i]));
      assert blocked == seq(|m.requests|, i requires 0 <= i < |m.requests| => Steps.BlockRequest(m.requests[i]));
      assert invalidated == seq(|m.claims|, i requires 0 <= i < |m.claims| => Steps.InvalidateClaim(m.claims[i]));
      assert mission.history == m.history + moved;
      mission := Steps.Escalate(mission, InvariantViolation);
    }

    /** Validate one mission and quarantine it when it is active and has findings. */
    static method QuarantineIfUnsafe(m: Mission) returns (mission: Mission, unsafe: bool)
      ensures mission == Cleaned(m) && unsafe == Unsafe(m)
    {
      hide Sound, Violates, Steps.Quarantine;
      mission, unsafe := m, false;
      if m.status.Active? {
        var findings := Validate(m);
        SoundMeansNoFindings(m, findings);
        if findings != {} {
          mission := QuarantineMission(m);
          unsafe := true;
        }
      }
    }

    /** Works from any stored state: afterwards every mission that is still active has no finding. */
    method QuarantineUnsafeMissions() returns (quarantined: set<Id>)
      requires Filed()
      modifies this
      ensures Filed() && missions.Keys == old(missions).Keys
      ensures quarantined == set id | id in old(missions) && Unsafe(old(missions)[id])
      ensures forall id | id in missions :: missions[id] == Cleaned(old(missions)[id])
      ensures forall id | id in missions && missions[id].status.Active? :: Sound(missions[id])
    {
      hide Sound, Unsafe, Cleaned;
      quarantined := {};
      var todo := missions.Keys;
      while todo != {}
        invariant Filed() && missions.Keys == old(missions).Keys && todo <= missions.Keys
        invariant quarantined == set id | id in old(missions).Keys - todo && Unsafe(old(missions)[id])
        invariant forall id | id in missions :: missions[id] == if id in todo then old(missions)[id] else Cleaned(old(missions)[id])
        decreases todo
      {
        var id :| id in todo;
        todo := todo - {id};
        CleanedFacts(missions[id]);
        var mission, unsafe := QuarantineIfUnsafe(missions[id]);
        missions := missions[id := mission];
        if unsafe {
          quarantined := quarantined + {id};
        }
      }
      forall id | id in missions && missions[id].status.Active? ensures Sound(missions[id]) {
        CleanedFacts(old(missions)[id]);
      }
    }
  }

  lemma StatusKept(m: Mission, status: MissionStatus)
    ensures Inv(m) && (status.Paused? || status.Active?) ==> Inv(Steps.UpdateStatus(m, status))
  {
    hide *;
    if Inv(m) && (status.Paused? || status.Active?) {
      Safety.UpdateStatusKeeps(m, status);
    }
  }

  lemma RequestClaimKept(m: Mission)
    ensures Inv(m) ==> Inv(Steps.ClaimReadyRequest(m))
  {
    hide *;
    if Inv(m) {
      Safety.ClaimReadyRequestKeeps(m);
    }
  }

  lemma DelegationKept(m: Mission, requestId: Id, delegationId: Id)
    ensures Inv(m) && !HasDelegation(m.active, delegationId) && !HasDelegation(m.history, delegationId) ==> Inv(Steps.CreateDelegation(m, requestId, delegationId))
  {
    hide *;
    if Inv(m) && !HasDelegation(m.active, delegationId) && !HasDelegation(m.history, delegationId) {
      Safety.CreateDelegationKeeps(m, requestId, delegationId);
    }
  }

  lemma WorkClaimKept(m: Mission, claimId: Id, worker: Id)
    ensures Inv(m) && !HasClaim(m.claims, claimId) ==> Inv(Steps.ClaimDelegation(m, claimId, worker))
  {
    hide *;
    if Inv(m) && !HasClaim(m.claims, claimId) {
      Safety.ClaimDelegationKeeps(m, claimId, worker);
    }
  }

  lemma RunningKept(m: Mission, delegationId: Id)
    ensures Inv(m) ==> Inv(Steps.MarkRunning(m, delegationId))
  {
    hide *;
    if Inv(m) {
      Safety.MarkRunningKeeps(m, delegationId);
    }
  }

  lemma ApprovalKept(m: Mission, matId: MatId, requestId: Id)
    ensures Inv(m) && !HasRequest(m.requests, requestId) ==> Inv(Steps.Approve(m, matId, requestId))
  {
    hide *;
    if Inv(m) && !HasRequest(m.requests, requestId) {
      Safety.ApproveKeeps(m, matId, requestId);
    }
  }

  lemma RejectionKept(m: Mission, matId: MatId)
    ensures Inv(m) ==> Inv(Steps.Reject(m, matId))
  {
    hide *;
    if Inv(m) {
      Safety.RejectKeeps(m, matId);
    }
  }

  lemma RevocationKept(m: Mission, matId: MatId)
    ensures Inv(m) ==> Inv(Steps.Revoke(m, matId))
  {
    hide *;
    if Inv(m) {
      Safety.RevokeKeeps(m, matId);
    }
  }

  lemma FailureKept(m: Mission, delegationId: Id, report: FailureReport, retryId: Id)
    ensures Inv(m) && HasDelegation(m.active, delegationId) && !HasRequest(m.requests, retryId) ==> Inv(Steps.Fail(m, delegationId, report, retryId))
  {
    hide *;
    if Inv(m) && HasDelegation(m.active, delegationId) && !HasRequest(m.requests, retryId) {
      Settling.FailKeeps(m, delegationId, report, retryId);
    }
  }

  lemma CompletionKept(m: Mission, delegationId: Id, ev: Evidence, retryId: Id)
    ensures Inv(m) && !HasRequest(m.requests, retryId) ==> Inv(Steps.Complete(m, delegationId, ev, retryId))
  {
    hide *;
    if Inv(m) && !HasRequest(m.requests, retryId) {
      Settling.CompletionKeeps(m, delegationId, ev, retryId);
    }
  }

  lemma OutcomeKept(m: Mission, outcome: Outcome)
    ensures Inv(m) ==> Inv(Steps.RecordOutcome(m, outcome))
  {
    hide *;
    if Inv(m) {
      Settling.RecordOutcomeKeeps(m, outcome);
    }
  }

  lemma BootstrapKept(m: Mission, ids: Steps.FreshIds)
    ensures Inv(m) && !HasDecision(m.decisions, ids.decision) && !HasRequest(m.requests, ids.request) ==> Inv(Steps.Bootstrap(m, ids))
  {
    hide *;
    if Inv(m) && !HasDecision(m.decisions, ids.decision) && !HasRequest(m.requests, ids.request) {
      Bootstrap.BootstrapKeeps(m, ids);
    }
  }

  /** An active mission with a finding. */
  ghost predicate Unsafe(m: Mission) { m.status.Active? && !Sound(m) }

  ghost function Cleaned(m: Mission): Mission { if Unsafe(m) then Steps.Quarantine(m) else m }

  lemma CleanedFacts(m: Mission)
    ensures Cleaned(m).missionId == m.missionId
    ensures Cleaned(m).status.Active? ==> Sound(Cleaned(m))
  {
    hide Sound, Steps.Quarantine;
    QuarantineWaits(m);
  }

  lemma ActivationKeepsStrategies(m: Mission, version: nat, milestone: Milestone)
    ensures Steps.ActivatePlan(m, version, milestone).strategies == m.strategies
  {
  }

  lemma RetryNeedsRequest(mode: VerificationMode, report: FailureReport, hasRequest: bool, attempt: int)
    ensures Steps.Classify(mode, report, hasRequest, attempt).Retry? ==> hasRequest && attempt < MAX_EXECUTION_RETRIES
  {
  }

  lemma QuarantineWaits(m: Mission)
    ensures Steps.Quarantine(m).status.WaitingDirector? && Steps.Quarantine(m).missionId == m.missionId
  {
  }

  lemma SoundMeansNoFindings(m: Mission, findings: set<Code>)
    requires forall c: Code :: c in findings <==> Violates(m, c)
    ensures findings == {} <==> Sound(m)
  {
    hide Violates;
  }

  /** A quarantined mission waits for the director with no executable work left. */
  lemma QuarantineStopsWork(m: Mission)
    ensures var q := Steps.Quarantine(m);
      && q.status.WaitingDirector? && !HasActiveRequest(q) && !HasActiveDelegation(q) && q.active == []
      && (forall i | 0 <= i < |q.claims| :: !q.claims[i].status.ClaimActive?)
      && !Violates(q, TerminalActiveRequest) && !Violates(q, TerminalActiveDelegation) && !Violates(q, GhostRunning)
      && !Violates(q, ActiveClaimOnInactive) && !Violates(q, DuplicateActiveClaim)
  {
  }

  /** Nothing that was recorded is lost by a quarantine: every request, claim and delegation keeps its identity. */
  lemma QuarantineKeepsRecords(m: Mission)
    ensures var q := Steps.Quarantine(m);
      && |q.requests| == |m.requests| && (forall i | 0 <= i < |m.requests| :: q.requests[i] == m.requests[i].(status := q.requests[i].status))
      && |q.claims| == |m.claims| && (forall i | 0 <= i < |m.claims| :: q.claims[i] == m.claims[i].(status := q.claims[i].status))
      && |q.history| == |m.history| + |m.active|
      && (forall id :: HasDelegation(AllDelegations(m), id) ==> HasDelegation(AllDelegations(q), id))
      && q.lineage == m.lineage && q.outcomes == m.outcomes
  {
    var q := Steps.Quarantine(m);
    forall id | HasDelegation(AllDelegations(m), id) ensures HasDelegation(AllDelegations(q), id) {
      var k :| 0 <= k < |AllDelegations(m)| && AllDelegations(m)[k].id == id;
      if k < |m.active| {
        assert AllDelegations(q)[|m.history| + k].id == id;
      } else {
        assert AllDelegations(q)[k - |m.active|].id == id;
      }
    }
  }
}
