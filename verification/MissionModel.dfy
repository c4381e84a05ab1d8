/** The persisted mission record and the records it is made of.

    Generated identifiers are natural numbers. `mat_{decision}` and `request:{mat}:{attempt}` are built
    by constructors, a plan version `v{n}` is the number n, and a milestone `m{n}` the number n.
 */
module MissionModel {
  import opened Search

  type Id = nat

  const MAX_PLAN_LOOPS: nat := 5
  const MAX_EXECUTION_RETRIES: nat := 3
  const MAX_REPEATED_STRATEGIES: nat := 2
  const MAX_OUTREACH_BATCHES: nat := 3
  const MAX_ZERO_PROGRESS_PLANS: nat := 3

  datatype EvidenceSource =
    | LiveExternal | MockFallback | InternalFixture | UserProvided | DatabaseExisting | Unknown

  datatype VerificationMode = StructuralCanary | LiveEvidenceCanary | QualifiedLeadCanary | ProductionSuccess

  datatype Agent =
    | LeadIntelligence | WebsiteIntelligence | OpportunityIntelligence | SolutionArchitect
    | Communication | UnresolvedAgent | OtherAgent(name: string)

  datatype ArtifactType = LeadArtifact | CommunicationArtifact | OtherArtifact(name: string)

  /** The text of an action. Outreach actions are generated from the batch number. */
  datatype Action = Named(text: string) | OutreachBatch(batch: nat)

  datatype ActionSpec = ActionSpec(action: Action, target: Agent, expected: ArtifactType)

  datatype MissionStatus = Active | Paused | Completed | WaitingDirector | Cancelled | Failed

  datatype MissionKind = ArtifactProduction | ClientAcquisition

  datatype Criterion = VerifiedArtifacts(artifactType: ArtifactType) | VerifiedWonClients

  datatype Progression = PReady | PDispatching | PQueued | PRunning | PWaiting | PPaused | PBlocked | PEscalated | PCompleted

  datatype Execution = EReady | EDispatched | ERunning | EBlocked | ECompleted

  datatype Dispatch = DNone | DAwaiting | DClaiming | DDispatched | DClaimed | DBlocked

  datatype AutoContinue = Stopped | Running | WaitingApproval

  datatype Reason =
    | NoReason | ReplanLimit | NoMilestones | ArtifactCriteriaUnmet | ZeroProgressLimit | RepeatedStrategyLimit
    | OutreachBatchLimit | UnresolvedPlanAction | SpecialistUnresolved | RequestUndispatched | ApprovalRejected
    | ApprovalRevoked | ScopeIncomplete | EntityUnverified | LiveEvidenceUnavailable | QualifiedLeadFailed
    | RetryLimit | NonRetryableFailure | InvariantViolation | StallRecoveryLimit | NoRunnableWork

  datatype MilestoneStatus = MPending | MReady | MCompleted

  datatype Milestone = Milestone(
    id: nat, plan: nat, status: MilestoneStatus, spec: Option<ActionSpec>, artifactId: Option<Id>)

  datatype Decision = Decision(
    id: Id, milestoneId: nat, plan: nat, action: Action, target: Agent, expected: ArtifactType)

  datatype MatId = MatId(decision: Id)

  datatype MatStatus = ApprovalRequired | ExecutionReady | Rejected | Revoked

  /** `approved` records that the `approved_at` stamp was written. */
  datatype Materialization = Materialization(id: MatId, decisionId: Id, status: MatStatus, approved: bool)

  datatype RequestStatus = RReady | RClaimed | RDispatched | RRunning | RCompleted | RFailed | RBlocked

  datatype RequestKey = RequestKey(matId: MatId, attempt: int)

  datatype Request = Request(
    id: Id, matId: MatId, decisionId: Id, status: RequestStatus, attempt: int, key: RequestKey,
    target: Agent, action: Action, milestoneId: nat, plan: nat, expected: ArtifactType,
    retryOf: Option<Id>, delegationId: Option<Id>)

  datatype DelegationStatus = DelPending | DelClaimed | DelRunning | DelCompleted | DelFailed | DelInvalidated

  datatype Delegation = Delegation(
    id: Id, requestId: Id, matId: MatId, decisionId: Id, target: Agent, action: Action, milestoneId: nat,
    plan: nat, expected: ArtifactType, status: DelegationStatus, workerClaimId: Option<Id>)

  datatype ClaimStatus = ClaimActive | ClaimCompleted | ClaimFailed | ClaimInvalidated

  datatype Claim = Claim(id: Id, delegationId: Id, requestId: Id, worker: Id, status: ClaimStatus)

  /** What a specialist hands in. `entityQualified` is the verdict of the entity-qualification service on the
      evidence's entity record; `hasArtifactId` says that an artifact id was given at all. */
  datatype Evidence = Evidence(
    hasArtifactId: bool, artifactId: Id, artifactType: ArtifactType, verified: bool, source: EvidenceSource,
    simulation: bool, hasProvider: bool, requestSucceeded: bool, entityQualified: bool,
    terminalEntity: bool, rendered: ErrorText)

  /** Which of the markers the failure classifier looks for occur in an error text. */
  datatype ErrorText = ErrorText(
    scopeIncomplete: bool, entityUnverified: bool, liveUnavailable: bool, transient: bool)

  /** An error text with what the sanitised failure evidence says about the entity. */
  datatype FailureReport = FailureReport(error: ErrorText, terminalEntity: bool)

  /** An accepted artifact. `provenanceComplete` says that all required provenance fields are present. */
  datatype Artifact = Artifact(
    id: Id, artifactType: ArtifactType, verified: bool, missionId: Id, provenanceComplete: bool,
    plan: nat, milestoneId: nat, decisionId: Id, matId: MatId, requestId: Id, delegationId: Id, claimId: Id,
    specialist: Agent, source: EvidenceSource, simulation: bool, hasProvider: bool, requestSucceeded: bool,
    entityQualified: bool)

  /** One business outcome; `identity` is the client, lead or evidence id it is counted under. */
  datatype Outcome = Outcome(identity: Id, dealWon: bool, verified: bool, source: EvidenceSource)

  datatype Mission = Mission(
    missionId: Id, status: MissionStatus, kind: MissionKind, mode: VerificationMode,
    criterion: Criterion, required: int, objectiveAchieved: bool, progress: int,
    planVersion: nat, planCompleted: bool, historicalPlans: seq<nat>, strategies: seq<string>,
    progression: Progression, execution: Execution, dispatch: Dispatch, autoContinue: AutoContinue,
    reason: Reason,
    milestones: seq<Milestone>, decisions: seq<Decision>, mats: seq<Materialization>,
    requests: seq<Request>, active: seq<Delegation>, history: seq<Delegation>, claims: seq<Claim>,
    lineage: seq<Artifact>, outcomes: seq<Outcome>, pendingApprovals: seq<Id>,
    replanCount: int, outreachBatches: int, retryCount: nat, zeroProgress: nat, repeatedStrategies: nat,
    lastVerified: nat)

  predicate ActiveRequest(s: RequestStatus) { s.RReady? || s.RClaimed? || s.RDispatched? || s.RRunning? }

  predicate ActiveDelegation(s: DelegationStatus) { s.DelPending? || s.DelClaimed? || s.DelRunning? }

  predicate TerminalStatus(s: MissionStatus) { s.Completed? || s.Cancelled? || s.Failed? || s.WaitingDirector? }

  predicate HasActiveRequest(m: Mission) { exists i | 0 <= i < |m.requests| :: ActiveRequest(m.requests[i].status) }

  predicate HasActiveDelegation(m: Mission) { exists i | 0 <= i < |m.active| :: ActiveDelegation(m.active[i].status) }

  // ---- lookups -------------------------------------------------------------------------------------------

  function IndexOfDecision(ds: seq<Decision>, id: Id): (i: nat)
    ensures i <= |ds|
    ensures i < |ds| ==> ds[i].id == id
    ensures forall j | 0 <= j < i :: ds[j].id != id
  { FirstIndex(ds, (d: Decision) => d.id == id) }

  function IndexOfMat(ms: seq<Materialization>, id: MatId): (i: nat)
    ensures i <= |ms|
    ensures i < |ms| ==> ms[i].id == id
    ensures forall j | 0 <= j < i :: ms[j].id != id
  { FirstIndex(ms, (m: Materialization) => m.id == id) }

  function IndexOfRequest(rs: seq<Request>, id: Id): (i: nat)
    ensures i <= |rs|
    ensures i < |rs| ==> rs[i].id == id
    ensures forall j | 0 <= j < i :: rs[j].id != id
  { FirstIndex(rs, (r: Request) => r.id == id) }

  function FirstReadyRequest(rs: seq<Request>): (i: nat)
    ensures i <= |rs|
    ensures i < |rs| ==> rs[i].status == RReady
    ensures forall j | 0 <= j < i :: rs[j].status != RReady
  { FirstIndex(rs, (r: Request) => r.status == RReady) }

  function FirstRequestOfMat(rs: seq<Request>, id: MatId): (i: nat)
    ensures i <= |rs|
    ensures i < |rs| ==> rs[i].matId == id
    ensures forall j | 0 <= j < i :: rs[j].matId != id
  { FirstIndex(rs, (r: Request) => r.matId == id) }

  function IndexOfDelegation(ds: seq<Delegation>, id: Id): (i: nat)
    ensures i <= |ds|
    ensures i < |ds| ==> ds[i].id == id
    ensures forall j | 0 <= j < i :: ds[j].id != id
  { FirstIndex(ds, (d: Delegation) => d.id == id) }

  function FirstPendingDelegation(ds: seq<Delegation>): (i: nat)
    ensures i <= |ds|
    ensures i < |ds| ==> ds[i].status == DelPending
    ensures forall j | 0 <= j < i :: ds[j].status != DelPending
  { FirstIndex(ds, (d: Delegation) => d.status == DelPending) }

  function DelegationOfRequest(ds: seq<Delegation>, id: Id): (i: nat)
    ensures i <= |ds|
    ensures i < |ds| ==> ds[i].requestId == id
    ensures forall j | 0 <= j < i :: ds[j].requestId != id
  { FirstIndex(ds, (d: Delegation) => d.requestId == id) }

  /** The claim a delegation names; a delegation that names none finds none. */
  function IndexOfClaim(cs: seq<Claim>, id: Option<Id>): (i: nat)
    ensures i <= |cs|
    ensures i < |cs| ==> Some(cs[i].id) == id
    ensures forall j | 0 <= j < i :: Some(cs[j].id) != id
  { FirstIndex(cs, (c: Claim) => Some(c.id) == id) }

  function ActiveClaimOf(cs: seq<Claim>, delegationId: Id): (i: nat)
    ensures i <= |cs|
    ensures i < |cs| ==> cs[i].delegationId == delegationId && cs[i].status == ClaimActive
    ensures forall j | 0 <= j < i :: !(cs[j].delegationId == delegationId && cs[j].status == ClaimActive)
  { FirstIndex(cs, (c: Claim) => c.delegationId == delegationId && c.status == ClaimActive) }

  function IndexOfMilestone(ms: seq<Milestone>, id: nat): (i: nat)
    ensures i <= |ms|
    ensures i < |ms| ==> ms[i].id == id
    ensures forall j | 0 <= j < i :: ms[j].id != id
  { FirstIndex(ms, (m: Milestone) => m.id == id) }

  /** The first open milestone of a plan. */
  function FirstOpenMilestone(ms: seq<Milestone>, plan: nat): (i: nat)
    ensures i <= |ms|
    ensures i < |ms| ==> ms[i].plan == plan && ms[i].status != MCompleted
    ensures forall j | 0 <= j < i :: !(ms[j].plan == plan && ms[j].status != MCompleted)
  { FirstIndex(ms, (m: Milestone) => m.plan == plan && m.status != MCompleted) }

  function FirstMilestoneOfPlan(ms: seq<Milestone>, plan: nat): (i: nat)
    ensures i <= |ms|
    ensures i < |ms| ==> ms[i].plan == plan
    ensures forall j | 0 <= j < i :: ms[j].plan != plan
  { FirstIndex(ms, (m: Milestone) => m.plan == plan) }

  function IndexOfOutcome(os: seq<Outcome>, identity: Id): (i: nat)
    ensures i <= |os|
    ensures i < |os| ==> os[i].identity == identity
    ensures forall j | 0 <= j < i :: os[j].identity != identity
  { FirstIndex(os, (o: Outcome) => o.identity == identity) }

  /** The newest decision for a milestone of a plan: the search runs from the end. */
  function LastDecisionFor(ds: seq<Decision>, milestoneId: nat, plan: nat): (i: int)
    ensures -1 <= i < |ds|
    ensures i >= 0 ==> ds[i].milestoneId == milestoneId && ds[i].plan == plan
    ensures forall j | i < j < |ds| :: !(ds[j].milestoneId == milestoneId && ds[j].plan == plan)
  {
    if ds == [] then -1
    else if ds[|ds| - 1].milestoneId == milestoneId && ds[|ds| - 1].plan == plan then |ds| - 1
    else LastDecisionFor(ds[..|ds| - 1], milestoneId, plan)
  }

  /** All delegations, the active ones first. */
  function AllDelegations(m: Mission): seq<Delegation> { m.active + m.history }
}
