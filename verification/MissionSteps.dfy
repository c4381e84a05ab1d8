/** Every lock-held operation on a mission record, as a function from the record to the record it saves. */
module MissionSteps {
  import opened Search
  import opened MissionModel
  import opened MissionGuard

  /** The identifiers an operation may generate. */
  datatype FreshIds = FreshIds(decision: Id, request: Id, approval: Id)

  // ---- creation ------------------------------------------------------------------------------------------

  /** What the specification derived from a request fixes. */
  datatype Spec =
    | ArtifactSpec(artifactType: ArtifactType, target: Agent, action: Action, required: int, mode: VerificationMode)
    | AcquisitionSpec(required: int)

  /** The specifications that the derivation yields: a positive count, a resolved agent, and the qualified-lead
      mode only for a single lead. */
  predicate SpecOk(spec: Spec) {
    && spec.required >= 1
    && (spec.ArtifactSpec? ==>
          && !spec.target.UnresolvedAgent?
          && (spec.mode.QualifiedLeadCanary? ==> spec.artifactType.LeadArtifact?)
          && (spec.artifactType.LeadArtifact? && (spec.mode.QualifiedLeadCanary? || spec.mode.LiveEvidenceCanary?) ==>
                spec.required == 1))
  }

  const DISCOVER := ActionSpec(Named("Discover qualified restaurant prospects"), LeadIntelligence, LeadArtifact)
  const ANALYZE := ActionSpec(Named("Analyze website and evaluate opportunities"), WebsiteIntelligence, OtherArtifact("WebsiteArtifact"))
  const EVALUATE := ActionSpec(Named("Evaluate business opportunity & map services"), OpportunityIntelligence, OtherArtifact("OpportunityArtifact"))
  const DESIGN := ActionSpec(Named("Design business solution architecture"), SolutionArchitect, OtherArtifact("BusinessSolutionArtifact"))

  function SpecMilestones(spec: Spec): seq<Milestone> {
    match spec
    case ArtifactSpec(artifactType, target, action, _, _) =>
      [Milestone(1, 1, MPending, Some(ActionSpec(action, target, artifactType)), None)]
    case AcquisitionSpec(_) =>
      [Milestone(1, 1, MPending, Some(DISCOVER), None), Milestone(2, 1, MPending, Some(ANALYZE), None),
       Milestone(3, 1, MPending, Some(EVALUATE), None), Milestone(4, 1, MPending, Some(DESIGN), None)]
  }

  function Create(id: Id, spec: Spec): Mission {
    Mission(
      id, Active, if spec.ArtifactSpec? then ArtifactProduction else ClientAcquisition,
      if spec.ArtifactSpec? then spec.mode else ProductionSuccess,
      if spec.ArtifactSpec? then VerifiedArtifacts(spec.artifactType) else VerifiedWonClients,
      spec.required, false, 0, 1, false, [], [], PReady, EReady, DNone, Stopped, NoReason,
      SpecMilestones(spec), [], [], [], [], [], [], [], [], [], 0, 0, 0, 0, 0, 0)
  }

  // ---- shared transitions --------------------------------------------------------------------------------

  function Escalate(m: Mission, reason: Reason): Mission {
    m.(status := WaitingDirector, progression := PEscalated, execution := EBlocked, dispatch := DNone,
       autoContinue := Stopped, reason := reason)
  }

  function Block(m: Mission, reason: Reason): Mission {
    if TerminalStatus(m.status) then m
    else m.(progression := PBlocked, execution := EBlocked, dispatch := DBlocked, autoContinue := Stopped, reason := reason)
  }

  function CompletedMilestones(ms: seq<Milestone>): nat {
    if ms == [] then 0
    else CompletedMilestones(ms[..|ms| - 1]) + (if ms[|ms| - 1].status.MCompleted? then 1 else 0)
  }

  /** Rounding to the nearest integer, ties to even, of a quotient of naturals. */
  function RoundHalfEven(a: nat, b: nat): nat
    requires b > 0
  {
    var q, r := a / b, a % b;
    if 2 * r < b || (2 * r == b && q % 2 == 0) then q else q + 1
  }

  function UpdateProgress(m: Mission): Mission {
    if m.objectiveAchieved then m.(progress := 100)
    else
      var total := if |m.milestones| < 1 then 1 else |m.milestones|;
      var share := RoundHalfEven(CompletedMilestones(m.milestones) * 99, total);
      m.(progress := if share < 99 then share else 99)
  }

  // ---- materialization and bootstrap ---------------------------------------------------------------------

  function LowerChar(c: char): char { if 'A' <= c <= 'Z' then c - 'A' + 'a' else c }

  function Lower(s: string): string { if s == "" then "" else [LowerChar(s[0])] + Lower(s[1..]) }

  /** The word occurs in the text, from some position on. */
  predicate Contains(text: string, word: string) {
    word <= text || (text != "" && Contains(text[1..], word))
  }

  predicate MentionsApproval(a: Action) { a.Named? && Contains(Lower(a.text), "approval") }

  function NewRequest(d: Decision, id: Id): Request {
    Request(id, MatId(d.id), d.id, RReady, 1, RequestKey(MatId(d.id), 1), d.target, d.action, d.milestoneId, d.plan,
            d.expected, None, None)
  }

  predicate NeedsApproval(d: Decision) { MentionsApproval(d.action) || d.target.Communication? }

  function Materialize(m: Mission, d: Decision, ids: FreshIds): Mission {
    if IndexOfMat(m.mats, MatId(d.id)) < |m.mats| then m
    else if d.target.UnresolvedAgent? then Block(m, SpecialistUnresolved)
    else if NeedsApproval(d) then
      m.(progression := PWaiting, autoContinue := WaitingApproval,
         mats := m.mats + [Materialization(MatId(d.id), d.id, ApprovalRequired, false)],
         pendingApprovals := m.pendingApprovals + [ids.approval])
    else
      m.(progression := PReady, autoContinue := Running, dispatch := DAwaiting,
         mats := m.mats + [Materialization(MatId(d.id), d.id, ExecutionReady, false)],
         requests := m.requests + [NewRequest(d, ids.request)])
  }

  const OUTREACH_STRATEGY := "communication_outreach"

  function CountStrategy(s: seq<string>, strategy: string): nat {
    if s == [] then 0 else CountStrategy(s[..|s| - 1], strategy) + (if s[|s| - 1] == strategy then 1 else 0)
  }

  function MaxMilestoneId(ms: seq<Milestone>): nat {
    if ms == [] then 0
    else
      var rest := MaxMilestoneId(ms[..|ms| - 1]);
      if ms[|ms| - 1].id > rest then ms[|ms| - 1].id else rest
  }

  /** Activating a plan archives the current one; a plan archived before is not archived again. */
  function ActivatePlan(m: Mission, version: nat, milestone: Milestone): Mission {
    if m.planVersion in m.historicalPlans then m
    else
      m.(historicalPlans := m.historicalPlans + [m.planVersion], planVersion := version, planCompleted := false,
         milestones := m.milestones + [milestone], replanCount := m.replanCount + 1,
         progression := PReady, execution := EReady, dispatch := DNone, autoContinue := Running)
  }

  function CompleteMission(m: Mission): Mission {
    UpdateProgress(m.(status := Completed, planCompleted := true, objectiveAchieved := true, progression := PCompleted,
                      execution := ECompleted, dispatch := DNone, autoContinue := Stopped))
  }

  /** Account for a finished plan that did not reach the objective. */
  function Reassess(m: Mission): Mission {
    var verified := VerifiedCount(m);
    m.(planCompleted := true,
       zeroProgress := if verified <= m.lastVerified then m.zeroProgress + 1 else 0,
       lastVerified := verified,
       repeatedStrategies := CountStrategy(m.strategies, OUTREACH_STRATEGY))
  }

  /** The first limit that rules out another plan. */
  function LimitReached(m: Mission): Option<Reason> {
    if m.replanCount >= MAX_PLAN_LOOPS then Some(ReplanLimit)
    else if m.zeroProgress >= MAX_ZERO_PROGRESS_PLANS then Some(ZeroProgressLimit)
    else if CountStrategy(m.strategies, OUTREACH_STRATEGY) >= MAX_REPEATED_STRATEGIES then Some(RepeatedStrategyLimit)
    else if m.outreachBatches >= MAX_OUTREACH_BATCHES then Some(OutreachBatchLimit)
    else None
  }

  function Replan(m: Mission): Mission {
    var next := ActivatePlan(m, m.planVersion + 1,
                             Milestone(MaxMilestoneId(m.milestones) + 1, m.planVersion + 1, MPending, None, None));
    var strategies := m.strategies + [OUTREACH_STRATEGY];
    UpdateProgress(next.(outreachBatches := m.outreachBatches + 1, strategies := strategies,
                         repeatedStrategies := CountStrategy(strategies, OUTREACH_STRATEGY)))
  }

  /** The active plan has no open milestone left. The flag tells whether a new plan was activated. */
  function FinishPlan(m: Mission): (Mission, bool) {
    if CriteriaMet(m) then (CompleteMission(m), false)
    else if m.kind.ArtifactProduction? then
      (UpdateProgress(Escalate(m.(planCompleted := true), ArtifactCriteriaUnmet)), false)
    else
      var r := Reassess(m);
      match LimitReached(r)
      case Some(reason) => (UpdateProgress(Escalate(r, reason)), false)
      case None => (Replan(r), true)
  }

  /** What to do for a milestone: its own action, or the default for its number. */
  function ResolveAction(m: Mission, ms: Milestone): Option<ActionSpec> {
    if ms.spec.Some? then ms.spec
    else if ms.id == 1 then Some(DISCOVER)
    else if ms.id == 2 then Some(ANALYZE)
    else if ms.id == 3 then Some(EVALUATE)
    else if ms.id == 4 then Some(DESIGN)
    else if ms.id >= 5 then
      Some(ActionSpec(OutreachBatch(if m.outreachBatches < 0 then 0 else m.outreachBatches), Communication, CommunicationArtifact))
    else None
  }

  predicate MilestoneBusy(m: Mission, milestoneId: nat) {
    || (exists i | 0 <= i < |m.active| :: m.active[i].milestoneId == milestoneId && ActiveDelegation(m.active[i].status))
    || (exists i | 0 <= i < |m.requests| :: m.requests[i].milestoneId == milestoneId && ActiveRequest(m.requests[i].status))
  }

  /** Work on the open milestone at position `at` of the active plan. */
  function Advance(m: Mission, at: nat, ids: FreshIds): Mission
    requires at < |m.milestones|
  {
    var ms := m.milestones[at];
    if MilestoneBusy(m, ms.id) then m
    else
      var known := LastDecisionFor(m.decisions, ms.id, m.planVersion);
      if known >= 0 then Materialize(m, m.decisions[known], ids)
      else
        var started := m.(milestones := m.milestones[at := ms.(status := MReady)]);
        match ResolveAction(m, ms)
        case None => Escalate(started, UnresolvedPlanAction)
        case Some(todo) =>
          var d := Decision(ids.decision, ms.id, m.planVersion, todo.action, todo.target, todo.expected);
          Materialize(started.(decisions := m.decisions + [d]), d, ids)
  }

  /** One pass of the bootstrap; the flag asks for another pass. */
  function BootstrapPass(m: Mission, ids: FreshIds): (Mission, bool) {
    if !m.status.Active? then (m, false)
    else if m.planVersion > MAX_PLAN_LOOPS + 1 || m.replanCount > MAX_PLAN_LOOPS then (Escalate(m, ReplanLimit), false)
    else if FirstMilestoneOfPlan(m.milestones, m.planVersion) == |m.milestones| then (Escalate(m, NoMilestones), false)
    else
      var at := FirstOpenMilestone(m.milestones, m.planVersion);
      if at == |m.milestones| then FinishPlan(m) else (Advance(m, at, ids), false)
  }

  /** A plan is activated at most once per pass, and each activation uses up one of the allowed repetitions. */
  lemma AnotherPassUsesAStrategy(m: Mission, ids: FreshIds)
    requires BootstrapPass(m, ids).1
    ensures CountStrategy(m.strategies, OUTREACH_STRATEGY) < MAX_REPEATED_STRATEGIES
    ensures CountStrategy(BootstrapPass(m, ids).0.strategies, OUTREACH_STRATEGY)
            == CountStrategy(m.strategies, OUTREACH_STRATEGY) + 1
  {
    assert (m.strategies + [OUTREACH_STRATEGY])[..|m.strategies|] == m.strategies;
  }

  /** The recursion of the bootstrap, which terminates from every record. */
  function Bootstrap(m: Mission, ids: FreshIds): Mission
    decreases MAX_REPEATED_STRATEGIES - CountStrategy(m.strategies, OUTREACH_STRATEGY)
  {
    var pass := BootstrapPass(m, ids);
    if pass.1 then
      AnotherPassUsesAStrategy(m, ids);
      Bootstrap(pass.0, ids)
    else pass.0
  }

  // ---- approval gates ------------------------------------------------------------------------------------

  predicate CanApprove(m: Mission, matId: MatId) {
    var k := IndexOfMat(m.mats, matId);
    m.status.Active? && k < |m.mats| && m.mats[k].status.ApprovalRequired?
    && IndexOfDecision(m.decisions, m.mats[k].decisionId) < |m.decisions|
  }

  function Approve(m: Mission, matId: MatId, requestId: Id): Mission {
    if !CanApprove(m, matId) then m
    else
      var k := IndexOfMat(m.mats, matId);
      var d := m.decisions[IndexOfDecision(m.decisions, m.mats[k].decisionId)];
      var m := m.(mats := m.mats[k := m.mats[k].(status := ExecutionReady, approved := true)],
                  progression := PReady, dispatch := DAwaiting, autoContinue := Running);
      if FirstRequestOfMat(m.requests, matId) < |m.requests| then m
      else
        m.(requests := m.requests + [NewRequest(d, requestId).(matId := matId, key := RequestKey(matId, 1))])
  }

  predicate CanReject(m: Mission, matId: MatId) {
    var k := IndexOfMat(m.mats, matId);
    m.status.Active? && k < |m.mats| && m.mats[k].status.ApprovalRequired?
  }

  function Reject(m: Mission, matId: MatId): Mission {
    if !CanReject(m, matId) then m
    else
      var k := IndexOfMat(m.mats, matId);
      Block(m.(mats := m.mats[k := m.mats[k].(status := Rejected)]), ApprovalRejected).(status := WaitingDirector)
  }

  predicate CanRevoke(m: Mission, matId: MatId) {
    var k := IndexOfMat(m.mats, matId);
    var r := FirstRequestOfMat(m.requests, matId);
    m.status.Active? && k < |m.mats| && m.mats[k].status.ExecutionReady?
    && (r < |m.requests| ==> m.requests[r].status.RReady? || m.requests[r].status.RClaimed?)
  }

  function Revoke(m: Mission, matId: MatId): Mission {
    if !CanRevoke(m, matId) then m
    else
      var k := IndexOfMat(m.mats, matId);
      var r := FirstRequestOfMat(m.requests, matId);
      var m := m.(mats := m.mats[k := m.mats[k].(status := Revoked)],
                  requests := if r < |m.requests| then m.requests[r := m.requests[r].(status := RBlocked)] else m.requests);
      Block(m, ApprovalRevoked).(status := WaitingDirector)
  }

  // ---- dispatch and work ---------------------------------------------------------------------------------

  function ClaimReadyRequest(m: Mission): Mission {
    var r := FirstReadyRequest(m.requests);
    if !m.status.Active? || r == |m.requests| then m
    else
      m.(requests := m.requests[r := m.requests[r].(status := RClaimed)],
         dispatch := DClaiming, progression := PDispatching, execution := EReady)
  }

  predicate Delegated(m: Mission, requestId: Id) {
    DelegationOfRequest(m.active, requestId) < |m.active| || DelegationOfRequest(m.history, requestId) < |m.history|
  }

  predicate CanDelegate(m: Mission, requestId: Id) {
    var r := IndexOfRequest(m.requests, requestId);
    m.status.Active? && r < |m.requests| && !Delegated(m, requestId) && m.requests[r].status.RClaimed?
  }

  /** Asking for the delegation of a request yields the existing one or a new one. */
  predicate HasOrGetsDelegation(m: Mission, requestId: Id) {
    CanDelegate(m, requestId)
    || (m.status.Active? && IndexOfRequest(m.requests, requestId) < |m.requests| && Delegated(m, requestId))
  }

  function CreateDelegation(m: Mission, requestId: Id, id: Id): Mission {
    if !CanDelegate(m, requestId) then m
    else
      var r := IndexOfRequest(m.requests, requestId);
      var q := m.requests[r];
      m.(active := m.active + [Delegation(id, requestId, q.matId, q.decisionId, q.target, q.action, q.milestoneId, q.plan,
                                          q.expected, DelPending, None)],
         requests := m.requests[r := q.(status := RDispatched, delegationId := Some(id))],
         dispatch := DDispatched, execution := EDispatched, progression := PQueued, autoContinue := Running)
  }

  predicate CanClaim(m: Mission) {
    var d := FirstPendingDelegation(m.active);
    m.status.Active? && d < |m.active| && ActiveClaimOf(m.claims, m.active[d].id) == |m.claims|
  }

  function ClaimDelegation(m: Mission, claimId: Id, worker: Id): Mission {
    if !CanClaim(m) then m
    else
      var d := FirstPendingDelegation(m.active);
      var q := m.active[d];
      var r := IndexOfRequest(m.requests, q.requestId);
      m.(active := m.active[d := q.(status := DelClaimed, workerClaimId := Some(claimId))],
         requests := if r < |m.requests| then m.requests[r := m.requests[r].(status := RRunning)] else m.requests,
         claims := m.claims + [Claim(claimId, q.id, q.requestId, worker, ClaimActive)],
         progression := PRunning, execution := ERunning, dispatch := DClaimed)
  }

  predicate CanRun(m: Mission, delegationId: Id) {
    var d := IndexOfDelegation(m.active, delegationId);
    d < |m.active| && (m.active[d].status.DelClaimed? || m.active[d].status.DelRunning?)
  }

  function MarkRunning(m: Mission, delegationId: Id): Mission {
    if !CanRun(m, delegationId) then m
    else
      var d := IndexOfDelegation(m.active, delegationId);
      m.(active := m.active[d := m.active[d].(status := DelRunning)])
  }

  /** The dispatcher's failure branch: the delegation of a claimed request could not be created. */
  function FailDispatch(m: Mission, requestId: Id): Mission {
    var r := IndexOfRequest(m.requests, requestId);
    Block(if r < |m.requests| then m.(requests := m.requests[r := m.requests[r].(status := RFailed)]) else m,
          RequestUndispatched)
  }

  predicate WorkedOn(active: seq<Delegation>, requestId: Id) {
    exists i | 0 <= i < |active| :: active[i].requestId == requestId && ActiveDelegation(active[i].status)
  }

  predicate Runnable(active: seq<Delegation>, r: Request) {
    r.status.RReady? || ((r.status.RDispatched? || r.status.RRunning?) && WorkedOn(active, r.id))
  }

  predicate HasRunnableWork(m: Mission) {
    (exists i | 0 <= i < |m.requests| :: Runnable(m.active, m.requests[i])) || HasActiveDelegation(m)
  }

  /** A mission that claims to continue by itself while nothing can run is blocked. */
  function EnsureTruthful(m: Mission): Mission {
    if m.autoContinue != Running || HasRunnableWork(m) then m else Block(m, NoRunnableWork)
  }

  /** One round of the dispatcher: claim a ready request and delegate it, or fail it. */
  function Dispatch(m: Mission, delegationId: Id): Mission {
    var r := FirstReadyRequest(m.requests);
    if !m.status.Active? || r == |m.requests| then m
    else
      var claimed := ClaimReadyRequest(m);
      if HasOrGetsDelegation(claimed, m.requests[r].id) then CreateDelegation(claimed, m.requests[r].id, delegationId)
      else FailDispatch(claimed, m.requests[r].id)
  }

  function RemoveDelegation(ds: seq<Delegation>, id: Id): seq<Delegation> {
    if ds == [] then []
    else if ds[0].id == id then RemoveDelegation(ds[1..], id)
    else [ds[0]] + RemoveDelegation(ds[1..], id)
  }

  // ---- failure -------------------------------------------------------------------------------------------

  datatype Verdict = Retry | GiveUp(reason: Reason)

  /** Whether a failure is retried, and if not, why the mission escalates. */
  function Classify(mode: VerificationMode, report: FailureReport, hasRequest: bool, attempt: int): Verdict {
    var error := report.error;
    if mode.QualifiedLeadCanary? && error.scopeIncomplete then GiveUp(ScopeIncomplete)
    else if mode.QualifiedLeadCanary? && (error.entityUnverified || report.terminalEntity) then GiveUp(EntityUnverified)
    else if (mode.LiveEvidenceCanary? || mode.QualifiedLeadCanary?) && error.liveUnavailable then GiveUp(LiveEvidenceUnavailable)
    else if mode.QualifiedLeadCanary? then GiveUp(QualifiedLeadFailed)
    else if error.transient && hasRequest && attempt < MAX_EXECUTION_RETRIES then Retry
    else if error.transient then GiveUp(RetryLimit)
    else GiveUp(NonRetryableFailure)
  }

  function RetryOf(q: Request, id: Id): Request {
    q.(id := id, status := RReady, attempt := q.attempt + 1, key := RequestKey(q.matId, q.attempt + 1),
       retryOf := Some(q.id), delegationId := None)
  }

  /** Close a failed delegation and its claim: the delegation moves to the history. */
  function CloseDelegation(m: Mission, d: nat): Mission
    requires d < |m.active|
  {
    var q := m.active[d];
    var c := IndexOfClaim(m.claims, q.workerClaimId);
    m.(claims := if c < |m.claims| then m.claims[c := m.claims[c].(status := ClaimFailed)] else m.claims,
       history := m.history + [q.(status := DelFailed)],
       active := RemoveDelegation(m.active, q.id))
  }

  function Fail(m: Mission, delegationId: Id, report: FailureReport, retryId: Id): Mission {
    var d := IndexOfDelegation(m.active, delegationId);
    var r := if d < |m.active| then IndexOfRequest(m.requests, m.active[d].requestId) else |m.requests|;
    var closed := if d < |m.active| then CloseDelegation(m, d) else m;
    if r < |m.requests| then
      var q := m.requests[r].(status := RFailed);
      var failed := closed.(requests := m.requests[r := q]);
      match Classify(m.mode, report, true, q.attempt)
      case Retry =>
        failed.(retryCount := m.retryCount + 1, requests := failed.requests + [RetryOf(q, retryId)],
                progression := PReady, execution := EReady, dispatch := DAwaiting, autoContinue := Running)
      case GiveUp(reason) => Escalate(failed, reason)
    else
      match Classify(m.mode, report, false, MAX_EXECUTION_RETRIES)
      case Retry => closed
      case GiveUp(reason) => Escalate(closed, reason)
  }

  // ---- completion ----------------------------------------------------------------------------------------

  predicate CompletedBefore(m: Mission, delegationId: Id) {
    exists i | 0 <= i < |m.history| :: m.history[i].id == delegationId && m.history[i].status.DelCompleted?
  }

  /** The gate's refusal, or the refusal of a delegation that lacks its request or its live claim. */
  function CompletionGate(m: Mission, d: nat, ev: Evidence): Gate
    requires d < |m.active|
  {
    var q := m.active[d];
    var r := IndexOfRequest(m.requests, q.requestId);
    var c := IndexOfClaim(m.claims, q.workerClaimId);
    match AdmissionGate(m.mode, q.expected, ev)
    case Refused(error) => Refused(error)
    case Admitted =>
      if r == |m.requests| || c == |m.claims| || !m.claims[c].status.ClaimActive? then
        Refused(EXECUTION_LINEAGE_VALIDATION_FAILED)
      else Admitted
  }

  /** A delegation whose evidence is admitted: the whole chain is closed and the artifact recorded. */
  function Accept(m: Mission, d: nat, ev: Evidence): Mission
    requires d < |m.active| && CompletionGate(m, d, ev).Admitted?
  {
    var q := m.active[d].(status := DelCompleted);
    var r := IndexOfRequest(m.requests, q.requestId);
    var c := IndexOfClaim(m.claims, q.workerClaimId);
    var at := IndexOfMilestone(m.milestones, q.milestoneId);
    var artifact := LineageOf(m.missionId, q, m.claims[c].id, ev);
    UpdateProgress(
      m.(requests := m.requests[r := m.requests[r].(status := RCompleted)],
         claims := m.claims[c := m.claims[c].(status := ClaimCompleted)],
         lineage := if exists i | 0 <= i < |m.lineage| :: m.lineage[i].id == artifact.id then m.lineage else m.lineage + [artifact],
         history := m.history + [q],
         active := RemoveDelegation(m.active, q.id),
         milestones := if at < |m.milestones| then
                         m.milestones[at := m.milestones[at].(status := MCompleted, artifactId := Some(artifact.id))]
                       else m.milestones,
         execution := EReady, progression := PReady, dispatch := DNone, autoContinue := Running, retryCount := 0))
  }

  function Complete(m: Mission, delegationId: Id, ev: Evidence, retryId: Id): Mission {
    var d := IndexOfDelegation(m.active, delegationId);
    if CompletedBefore(m, delegationId) || d == |m.active| then m
    else
      match CompletionGate(m, d, ev)
      case Admitted => Accept(m, d, ev)
      case Refused(error) => Fail(m, delegationId, FailureReport(error, ev.terminalEntity), retryId)
  }

  // ---- outcomes and status -------------------------------------------------------------------------------

  function RecordOutcome(m: Mission, o: Outcome): Mission {
    var i := IndexOfOutcome(m.outcomes, o.identity);
    if i == |m.outcomes| then m.(outcomes := m.outcomes + [o])
    else if m.outcomes[i].verified || !o.verified then m
    else m.(outcomes := m.outcomes[i := o])
  }

  function UpdateStatus(m: Mission, status: MissionStatus): Mission {
    if status.Paused? then m.(status := Paused, autoContinue := Stopped, progression := PPaused)
    else if status.Active? then m.(status := Active, progression := PReady, autoContinue := Running)
    else m.(status := status)
  }

  /** The stall detector's last resort, once its recovery limit is reached. */
  function StallEscalate(m: Mission): Mission {
    m.(status := WaitingDirector, progression := PEscalated, execution := EBlocked, autoContinue := Stopped,
       reason := StallRecoveryLimit)
  }

  // ---- quarantine ----------------------------------------------------------------------------------------

  function BlockRequest(q: Request): Request { if ActiveRequest(q.status) then q.(status := RBlocked) else q }

  function InvalidateClaim(c: Claim): Claim { if c.status.ClaimActive? then c.(status := ClaimInvalidated) else c }

  function InvalidateDelegation(d: Delegation): Delegation {
    if ActiveDelegation(d.status) then d.(status := DelInvalidated) else d
  }

  function Quarantine(m: Mission): Mission {
    Escalate(
      m.(requests := seq(|m.requests|, i requires 0 <= i < |m.requests| => BlockRequest(m.requests[i])),
         claims := seq(|m.claims|, i requires 0 <= i < |m.claims| => InvalidateClaim(m.claims[i])),
         history := m.history + seq(|m.active|, i requires 0 <= i < |m.active| => InvalidateDelegation(m.active[i])),
         active := []),
      InvariantViolation)
  }
}
