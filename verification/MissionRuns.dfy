/** Runs: any interleaving of the operations from a newly created mission, and what holds along all of them. */
module MissionRuns {
  import opened Search
  import opened MissionModel
  import opened MissionGuard
  import opened MissionValidator
  import opened MissionSteps
  import opened MissionInvariant
  import opened MissionSafety
  import opened MissionSettling
  import opened MissionBootstrap

  datatype Event =
    | EvBootstrap(ids: FreshIds)
    | EvApprove(matId: MatId, requestId: Id)
    | EvReject(matId: MatId)
    | EvRevoke(matId: MatId)
    | EvClaimRequest
    | EvCreateDelegation(requestId: Id, delegationId: Id)
    | EvClaimDelegation(claimId: Id, worker: Id)
    | EvMarkRunning(delegationId: Id)
    | EvComplete(delegationId: Id, evidence: Evidence, retryId: Id)
    | EvFail(delegationId: Id, report: FailureReport, retryId: Id)
    | EvFailDispatch(requestId: Id)
    | EvEnsureTruthful
    | EvRecordOutcome(outcome: Outcome)
    | EvPause
    | EvResume

  function Apply(m: Mission, e: Event): Mission {
    match e
    case EvBootstrap(ids) => Bootstrap(m, ids)
    case EvApprove(matId, requestId) => Approve(m, matId, requestId)
    case EvReject(matId) => Reject(m, matId)
    case EvRevoke(matId) => Revoke(m, matId)
    case EvClaimRequest => ClaimReadyRequest(m)
    case EvCreateDelegation(requestId, delegationId) => CreateDelegation(m, requestId, delegationId)
    case EvClaimDelegation(claimId, worker) => ClaimDelegation(m, claimId, worker)
    case EvMarkRunning(delegationId) => MarkRunning(m, delegationId)
    case EvComplete(delegationId, evidence, retryId) => Complete(m, delegationId, evidence, retryId)
    case EvFail(delegationId, report, retryId) => Fail(m, delegationId, report, retryId)
    case EvFailDispatch(requestId) => FailDispatch(m, requestId)
    case EvEnsureTruthful => EnsureTruthful(m)
    case EvRecordOutcome(outcome) => RecordOutcome(m, outcome)
    case EvPause => UpdateStatus(m, Paused)
    case EvResume => UpdateStatus(m, Active)
  }

  /** Generated ids are new, a failure report names an active delegation, and a dispatch fails for a request
      that has no delegation. Everything else may happen in any order. */
  predicate Legal(m: Mission, e: Event) {
    match e
    case EvBootstrap(ids) => !HasDecision(m.decisions, ids.decision) && !HasRequest(m.requests, ids.request)
    case EvApprove(_, requestId) => !HasRequest(m.requests, requestId)
    case EvCreateDelegation(_, id) => !HasDelegation(m.active, id) && !HasDelegation(m.history, id)
    case EvClaimDelegation(claimId, _) => !HasClaim(m.claims, claimId)
    case EvComplete(_, _, retryId) => !HasRequest(m.requests, retryId)
    case EvFail(delegationId, _, retryId) => HasDelegation(m.active, delegationId) && !HasRequest(m.requests, retryId)
    case EvFailDispatch(requestId) => !Delegated(m, requestId)
    case _ => true
  }

  function Run(m: Mission, es: seq<Event>): Mission
    decreases |es|
  {
    if es == [] then m else Run(Apply(m, es[0]), es[1..])
  }

  predicate LegalRun(m: Mission, es: seq<Event>)
    decreases |es|
  {
    es == [] || (Legal(m, es[0]) && LegalRun(Apply(m, es[0]), es[1..]))
  }

  // ---- safety --------------------------------------------------------------------------------------------

  lemma ApplyKeeps(m: Mission, e: Event)
    requires Inv(m) && Legal(m, e)
    ensures Inv(Apply(m, e))
  {
    hide Inv, Bootstrap, Approve, Reject, Revoke, ClaimReadyRequest, CreateDelegation, ClaimDelegation, MarkRunning,
         Complete, Fail, FailDispatch, EnsureTruthful, RecordOutcome, UpdateStatus;
    match e
    case EvBootstrap(ids) => BootstrapKeeps(m, ids);
    case EvApprove(matId, requestId) => ApproveKeeps(m, matId, requestId);
    case EvReject(matId) => RejectKeeps(m, matId);
    case EvRevoke(matId) => RevokeKeeps(m, matId);
    case EvClaimRequest => ClaimReadyRequestKeeps(m);
    case EvCreateDelegation(requestId, delegationId) => CreateDelegationKeeps(m, requestId, delegationId);
    case EvClaimDelegation(claimId, worker) => ClaimDelegationKeeps(m, claimId, worker);
    case EvMarkRunning(delegationId) => MarkRunningKeeps(m, delegationId);
    case EvComplete(delegationId, evidence, retryId) => CompletionKeeps(m, delegationId, evidence, retryId);
    case EvFail(delegationId, report, retryId) => FailKeeps(m, delegationId, report, retryId);
    case EvFailDispatch(requestId) => FailDispatchKeeps(m, requestId);
    case EvEnsureTruthful => EnsureTruthfulKeeps(m);
    case EvRecordOutcome(outcome) => RecordOutcomeKeeps(m, outcome);
    case EvPause => UpdateStatusKeeps(m, Paused);
    case EvResume => UpdateStatusKeeps(m, Active);
  }

  lemma {:induction false} RunKeeps(m: Mission, es: seq<Event>)
    requires Inv(m) && LegalRun(m, es)
    ensures Inv(Run(m, es))
    decreases |es|
  {
    hide Inv, Apply, Legal;
    if es != [] {
      ApplyKeeps(m, es[0]);
      RunKeeps(Apply(m, es[0]), es[1..]);
    }
  }

  /** Along every run the validator stays silent and the truth resolver finds the execution state intact. */
  lemma RunsAreSound(id: Id, spec: Spec, es: seq<Event>)
    requires SpecOk(spec) && LegalRun(Create(id, spec), es)
    ensures Sound(Run(Create(id, spec), es))
    ensures !ReportsGhostRunning(Run(Create(id, spec), es))
    ensures ExecutionIntegrityPassed(Run(Create(id, spec), es))
  {
    hide Inv, Sound, ReportsGhostRunning, ExecutionIntegrityPassed, Create, Apply, Legal;
    CreateEstablishes(id, spec);
    RunKeeps(Create(id, spec), es);
    InvariantSatisfiesValidator(Run(Create(id, spec), es));
  }

  lemma {:induction false} RunConcat(m: Mission, es: seq<Event>, fs: seq<Event>)
    ensures Run(m, es + fs) == Run(Run(m, es), fs)
    ensures LegalRun(m, es + fs) <==> LegalRun(m, es) && LegalRun(Run(m, es), fs)
    decreases |es|
  {
    hide Apply, Legal;
    if es == [] {
      assert es + fs == fs;
    } else {
      assert (es + fs)[0] == es[0] && (es + fs)[1..] == es[1..] + fs;
      RunConcat(Apply(m, es[0]), es[1..], fs);
    }
  }
}
