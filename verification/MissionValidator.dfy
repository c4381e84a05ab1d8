/** The repository's own executable specification of a mission record, declaratively and as the loops that run it. */
module MissionValidator {
  import opened Search
  import opened MissionModel
  import opened MissionGuard

  /** The finding codes. Every one of them is raised with severity HIGH or CRITICAL. */
  datatype Code =
    | ProgressOutOfRange | UnverifiedCompletion | PlanCompletionConfused | TerminalActiveRequest
    | TerminalActiveDelegation | OrphanMaterialization | DuplicateMaterialization | OrphanRequest | DuplicateRequest
    | OrphanDelegation | DuplicateDelegation | OrphanClaim | ActiveClaimOnInactive | DuplicateActiveClaim
    | BrokenLineage | UnverifiedLineage | GhostRunning | ReplanLimitExceeded | OutreachLimitExceeded

  predicate HasDecision(ds: seq<Decision>, id: Id) { exists k | 0 <= k < |ds| :: ds[k].id == id }

  predicate HasMat(mats: seq<Materialization>, id: MatId) { exists k | 0 <= k < |mats| :: mats[k].id == id }

  predicate HasRequest(rs: seq<Request>, id: Id) { exists k | 0 <= k < |rs| :: rs[k].id == id }

  predicate HasDelegation(ds: seq<Delegation>, id: Id) { exists k | 0 <= k < |ds| :: ds[k].id == id }

  predicate HasClaim(cs: seq<Claim>, id: Id) { exists k | 0 <= k < |cs| :: cs[k].id == id }

  /** The values of a dictionary keyed by delegation id: of records with one id only the last stays. */
  function Survivors(ds: seq<Delegation>): (r: seq<Delegation>)
  {
    if ds == [] then []
    else if HasDelegation(ds[1..], ds[0].id) then Survivors(ds[1..])
    else [ds[0]] + Survivors(ds[1..])
  }

  predicate ChainIntact(m: Mission, a: Artifact) {
    && HasDecision(m.decisions, a.decisionId) && HasMat(m.mats, a.matId) && HasRequest(m.requests, a.requestId)
    && HasDelegation(AllDelegations(m), a.delegationId) && HasClaim(m.claims, a.claimId)
  }

  /** The delegation a claim is held on is on record and still active. */
  predicate HeldOnActive(ds: seq<Delegation>, id: Id) {
    exists k | 0 <= k < |ds| :: ds[k].id == id && ActiveDelegation(ds[k].status)
  }

  predicate OrphanMats(m: Mission) { exists i | 0 <= i < |m.mats| :: !HasDecision(m.decisions, m.mats[i].decisionId) }

  predicate DuplicateMats(m: Mission) {
    exists i, j | 0 <= i < j < |m.mats| :: m.mats[i].decisionId == m.mats[j].decisionId
  }

  predicate OrphanRequests(m: Mission) { exists i | 0 <= i < |m.requests| :: !HasMat(m.mats, m.requests[i].matId) }

  predicate DuplicateRequests(m: Mission) {
    exists i, j | 0 <= i < j < |m.requests| :: m.requests[i].key == m.requests[j].key
  }

  predicate OrphanDelegations(m: Mission, ds: seq<Delegation>) {
    exists i | 0 <= i < |ds| :: !HasRequest(m.requests, ds[i].requestId)
  }

  predicate DuplicateDelegations(ds: seq<Delegation>) {
    exists i, j | 0 <= i < j < |ds| :: ds[i].requestId == ds[j].requestId
  }

  predicate OrphanClaims(m: Mission) { exists i | 0 <= i < |m.claims| :: !HasDelegation(AllDelegations(m), m.claims[i].delegationId) }

  predicate InactiveClaims(cs: seq<Claim>, ds: seq<Delegation>) {
    exists i | 0 <= i < |cs| :: cs[i].status.ClaimActive? && !HeldOnActive(ds, cs[i].delegationId)
  }

  predicate DuplicateClaims(cs: seq<Claim>) {
    exists i, j | 0 <= i < j < |cs| ::
      cs[i].status.ClaimActive? && cs[j].status.ClaimActive? && cs[i].delegationId == cs[j].delegationId
  }

  predicate BrokenArtifacts(m: Mission) { exists i | 0 <= i < |m.lineage| :: !ChainIntact(m, m.lineage[i]) }

  predicate UnverifiedArtifacts(m: Mission) { exists i | 0 <= i < |m.lineage| :: !m.lineage[i].verified }

  /** One flag for each finding code. */
  datatype Report = Report(
    progress: bool, completion: bool, planConfused: bool, terminalRequest: bool, terminalDelegation: bool,
    orphanMat: bool, duplicateMat: bool, orphanRequest: bool, duplicateRequest: bool,
    orphanDelegation: bool, duplicateDelegation: bool, orphanClaim: bool, inactiveClaim: bool,
    duplicateClaim: bool, broken: bool, unverified: bool, ghostRunning: bool, replan: bool, outreach: bool)

  /** What each finding means. */
  function ReportOf(m: Mission): Report {
    Report(
      !(0 <= m.progress <= 100),
      m.status.Completed? && !(CriteriaMet(m) && m.objectiveAchieved),
      m.planCompleted && m.status.Completed? && !m.objectiveAchieved,
      TerminalStatus(m.status) && HasActiveRequest(m),
      TerminalStatus(m.status) && HasActiveDelegation(m),
      OrphanMats(m), DuplicateMats(m), OrphanRequests(m), DuplicateRequests(m),
      OrphanDelegations(m, Survivors(AllDelegations(m))), DuplicateDelegations(Survivors(AllDelegations(m))),
      OrphanClaims(m), InactiveClaims(m.claims, Survivors(AllDelegations(m))), DuplicateClaims(m.claims),
      BrokenArtifacts(m), UnverifiedArtifacts(m),
      m.progression.PRunning? && !(HasActiveRequest(m) && HasActiveDelegation(m)),
      m.replanCount > MAX_PLAN_LOOPS || m.planVersion > MAX_PLAN_LOOPS + 1,
      m.outreachBatches > MAX_OUTREACH_BATCHES)
  }

  predicate Raised(r: Report, c: Code) {
    match c
    case ProgressOutOfRange => r.progress
    case UnverifiedCompletion => r.completion
    case PlanCompletionConfused => r.planConfused
    case TerminalActiveRequest => r.terminalRequest
    case TerminalActiveDelegation => r.terminalDelegation
    case OrphanMaterialization => r.orphanMat
    case DuplicateMaterialization => r.duplicateMat
    case OrphanRequest => r.orphanRequest
    case DuplicateRequest => r.duplicateRequest
    case OrphanDelegation => r.orphanDelegation
    case DuplicateDelegation => r.duplicateDelegation
    case OrphanClaim => r.orphanClaim
    case ActiveClaimOnInactive => r.inactiveClaim
    case DuplicateActiveClaim => r.duplicateClaim
    case BrokenLineage => r.broken
    case UnverifiedLineage => r.unverified
    case GhostRunning => r.ghostRunning
    case ReplanLimitExceeded => r.replan
    case OutreachLimitExceeded => r.outreach
  }

  predicate Violates(m: Mission, c: Code) { Raised(ReportOf(m), c) }

  /** No HIGH or CRITICAL finding. */
  ghost predicate Sound(m: Mission) { forall c: Code :: !Violates(m, c) }

  /** The findings, as the codes that occur; their number and order are not modelled. */
  method Validate(m: Mission) returns (findings: set<Code>)
    ensures forall c: Code :: c in findings <==> Violates(m, c)
  {
    var orphanMat, duplicateMat := CheckMaterializations(m);
    var orphanRequest, duplicateRequest := CheckRequests(m);
    var orphanDelegation, duplicateDelegation := CheckDelegations(m);
    var orphanClaim, inactiveClaim := CheckClaims(m);
    var duplicateClaim := CheckDuplicateClaims(m.claims);
    var broken, unverified := CheckLineage(m);
    var requests, delegations := HasActiveRequest(m), HasActiveDelegation(m);
    var report := Report(
      m.progress < 0 || m.progress > 100,
      m.status.Completed? && !(CriteriaMet(m) && m.objectiveAchieved),
      m.planCompleted && m.status.Completed? && !m.objectiveAchieved,
      TerminalStatus(m.status) && requests, TerminalStatus(m.status) && delegations,
      orphanMat, duplicateMat, orphanRequest, duplicateRequest, orphanDelegation, duplicateDelegation,
      orphanClaim, inactiveClaim, duplicateClaim, broken, unverified,
      m.progression.PRunning? && !(requests && delegations),
      m.replanCount > MAX_PLAN_LOOPS || m.planVersion > MAX_PLAN_LOOPS + 1,
      m.outreachBatches > MAX_OUTREACH_BATCHES);
    assert report == ReportOf(m);
    findings := set c: Code | Raised(report, c);
  }

  method CheckMaterializations(m: Mission) returns (orphan: bool, duplicate: bool)
    ensures orphan == OrphanMats(m)
    ensures duplicate == DuplicateMats(m)
  {
    orphan, duplicate := false, false;
    var seen: set<Id> := {};
    for n := 0 to |m.mats|
      invariant orphan <==> exists i | 0 <= i < n :: !HasDecision(m.decisions, m.mats[i].decisionId)
      invariant duplicate <==> exists i, j | 0 <= i < j < n :: m.mats[i].decisionId == m.mats[j].decisionId
      invariant forall x :: x in seen <==> exists i | 0 <= i < n :: m.mats[i].decisionId == x
    {
      orphan := orphan || !HasDecision(m.decisions, m.mats[n].decisionId);
      duplicate := duplicate || m.mats[n].decisionId in seen;
      seen := seen + {m.mats[n].decisionId};
    }
  }

  method CheckRequests(m: Mission) returns (orphan: bool, duplicate: bool)
    ensures orphan == OrphanRequests(m)
    ensures duplicate == DuplicateRequests(m)
  {
    orphan, duplicate := false, false;
    var keys: set<RequestKey> := {};
    for n := 0 to |m.requests|
      invariant orphan <==> exists i | 0 <= i < n :: !HasMat(m.mats, m.requests[i].matId)
      invariant duplicate <==> exists i, j | 0 <= i < j < n :: m.requests[i].key == m.requests[j].key
      invariant forall x :: x in keys <==> exists i | 0 <= i < n :: m.requests[i].key == x
    {
      orphan := orphan || !HasMat(m.mats, m.requests[n].matId);
      duplicate := duplicate || m.requests[n].key in keys;
      keys := keys + {m.requests[n].key};
    }
  }

  method CheckDelegations(m: Mission) returns (orphan: bool, duplicate: bool)
    ensures orphan == OrphanDelegations(m, Survivors(AllDelegations(m)))
    ensures duplicate == DuplicateDelegations(Survivors(AllDelegations(m)))
  {
    var ds := Survivors(AllDelegations(m));
    orphan, duplicate := false, false;
    var delegated: set<Id> := {};
    for n := 0 to |ds|
      invariant orphan <==> exists i | 0 <= i < n :: !HasRequest(m.requests, ds[i].requestId)
      invariant duplicate <==> exists i, j | 0 <= i < j < n :: ds[i].requestId == ds[j].requestId
      invariant forall x :: x in delegated <==> exists i | 0 <= i < n :: ds[i].requestId == x
    {
      orphan := orphan || !HasRequest(m.requests, ds[n].requestId);
      duplicate := duplicate || ds[n].requestId in delegated;
      delegated := delegated + {ds[n].requestId};
    }
  }

  method CheckClaims(m: Mission) returns (orphan: bool, inactive: bool)
    ensures orphan == OrphanClaims(m)
    ensures inactive == InactiveClaims(m.claims, Survivors(AllDelegations(m)))
  {
    var ds := Survivors(AllDelegations(m));
    orphan, inactive := false, false;
    for n := 0 to |m.claims|
      invariant orphan <==> exists i | 0 <= i < n :: !HasDelegation(AllDelegations(m), m.claims[i].delegationId)
      invariant inactive <==>
        exists i | 0 <= i < n :: m.claims[i].status.ClaimActive? && !HeldOnActive(ds, m.claims[i].delegationId)
    {
      orphan := orphan || !HasDelegation(AllDelegations(m), m.claims[n].delegationId);
      inactive := inactive || (m.claims[n].status.ClaimActive? && !HeldOnActive(ds, m.claims[n].delegationId));
    }
  }

  method CheckDuplicateClaims(cs: seq<Claim>) returns (duplicate: bool)
    ensures duplicate == DuplicateClaims(cs)
  {
    duplicate := false;
    var held: set<Id> := {};
    for n := 0 to |cs|
      invariant duplicate <==> exists i, j | 0 <= i < j < n ::
                  cs[i].status.ClaimActive? && cs[j].status.ClaimActive? && cs[i].delegationId == cs[j].delegationId
      invariant forall x :: x in held <==> exists i | 0 <= i < n :: cs[i].status.ClaimActive? && cs[i].delegationId == x
    {
      if cs[n].status.ClaimActive? {
        duplicate := duplicate || cs[n].delegationId in held;
        held := held + {cs[n].delegationId};
      }
    }
  }

  method CheckLineage(m: Mission) returns (broken: bool, unverified: bool)
    ensures broken == BrokenArtifacts(m)
    ensures unverified == UnverifiedArtifacts(m)
  {
    broken, unverified := false, false;
    for n := 0 to |m.lineage|
      invariant broken <==> exists i | 0 <= i < n :: !ChainIntact(m, m.lineage[i])
      invariant unverified <==> exists i | 0 <= i < n :: !m.lineage[i].verified
    {
      broken := broken || !ChainIntact(m, m.lineage[n]);
      unverified := unverified || !m.lineage[n].verified;
    }
  }

  // ---- what the truth resolver reports -------------------------------------------------------------------

  /** The claim held on the newest active delegation, if that delegation is claimed or running. */
  predicate WorkerHolds(m: Mission) {
    exists i | 0 <= i < |m.active| ::
      && ActiveDelegation(m.active[i].status)
      && (forall k | i < k < |m.active| :: !ActiveDelegation(m.active[k].status))
      && (m.active[i].status.DelPending? || ActiveClaimOf(m.claims, m.active[i].id) < |m.claims|)
  }

  /** Ghost running: the record says RUNNING and no request, or no delegation, is active. */
  predicate ReportsGhostRunning(m: Mission) {
    (m.progression.PRunning? || m.execution.ERunning?) && !(HasActiveRequest(m) && HasActiveDelegation(m))
  }

  /** `execution_state_integrity` is FAILED also when the running delegation has no active worker claim. */
  predicate ExecutionIntegrityPassed(m: Mission) {
    m.progression.PRunning? || m.execution.ERunning? ==> HasActiveRequest(m) && HasActiveDelegation(m) && WorkerHolds(m)
  }
}
