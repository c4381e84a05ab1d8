/** The inductive invariant of a mission record: one chain of decisions, of which only the newest can be unfinished. */
module MissionInvariant {
  import opened Search
  import opened MissionModel
  import opened MissionGuard
  import opened MissionValidator
  import opened MissionSteps

  /** Decision i works on milestone i and was materialized as record i. Milestones before the newest decision are
      completed, milestones after it are untouched, and only the newest materialization can await approval. */
  ghost predicate Chain(ms: seq<Milestone>, ds: seq<Decision>, mats: seq<Materialization>) {
    && |mats| == |ds| <= |ms|
    && (forall i, j | 0 <= i < j < |ms| :: ms[i].id != ms[j].id)
    && (forall i, j | 0 <= i < j < |ds| :: ds[i].id != ds[j].id)
    && (forall i | 0 <= i < |ds| :: ds[i].milestoneId == ms[i].id && ds[i].plan == ms[i].plan)
    && (forall i | 0 <= i < |mats| :: mats[i].decisionId == ds[i].id && mats[i].id == MatId(ds[i].id))
    && (forall i | 0 <= i < |ds| - 1 :: ms[i].status.MCompleted?)
    && (forall i | |ds| <= i < |ms| :: ms[i].status.MPending?)
    && (|ds| > 0 ==> !ms[|ds| - 1].status.MPending?)
    && (forall i | 0 <= i < |mats| :: mats[i].status.ApprovalRequired? ==> i == |mats| - 1 && ms[i].status.MReady?)
  }

  /** Every replan archives one plan, adds one milestone and one outreach batch; there are at most two. */
  ghost predicate Plans(kind: MissionKind, criterion: Criterion, version: nat, replans: int, batches: int,
                        strategies: seq<string>, archived: seq<nat>, ms: seq<Milestone>) {
    && 1 <= version <= MAX_REPEATED_STRATEGIES + 1
    && replans == batches == |strategies| == |archived| == version - 1
    && (forall i | 0 <= i < |strategies| :: strategies[i] == OUTREACH_STRATEGY)
    && (forall i | 0 <= i < |archived| :: archived[i] == i + 1)
    && |ms| == (if kind.ArtifactProduction? then 1 else 4) + version - 1
    && (kind.ArtifactProduction? ==> version == 1)
    && (kind.ArtifactProduction? <==> criterion.VerifiedArtifacts?)
    && (forall i | 0 <= i < |ms| :: ms[i].plan <= version)
    && (forall i | 0 <= i < |ms| :: ms[i].plan < version ==> ms[i].status.MCompleted?)
    && ms[|ms| - 1].plan == version
    && (forall i | 0 <= i < |ms| :: ms[i].id == i + 1)
    && (forall i | 0 <= i < |ms| :: Workable(ms[i]))
  }

  /** A milestone whose action resolves to a known specialist. */
  predicate Workable(ms: Milestone) {
    if ms.spec.Some? then !ms.spec.value.target.UnresolvedAgent? else ms.id >= 5
  }

  /** Materialization k stands behind a request: it was released for execution and, for outreach, approved. */
  predicate Backs(ds: seq<Decision>, mats: seq<Materialization>, k: nat, r: Request)
    requires k < |mats| == |ds|
  {
    && mats[k].id == r.matId && r.matId == MatId(r.decisionId) && r.target == ds[k].target
    && (mats[k].status.ExecutionReady? || (mats[k].status.Revoked? && !ActiveRequest(r.status)))
    && (r.target.Communication? ==> mats[k].approved)
  }

  /** Requests of one materialization are numbered in the order they were made. */
  ghost predicate Numbered(rs: seq<Request>) {
    && (forall i, j | 0 <= i < j < |rs| :: rs[i].id != rs[j].id)
    && (forall i | 0 <= i < |rs| :: 1 <= rs[i].attempt <= MAX_EXECUTION_RETRIES)
    && (forall i | 0 <= i < |rs| :: rs[i].key == RequestKey(rs[i].matId, rs[i].attempt))
    && (forall i, j | 0 <= i < j < |rs| :: rs[i].matId == rs[j].matId ==> rs[i].attempt < rs[j].attempt)
  }

  ghost predicate HasBacking(r: Request, ds: seq<Decision>, mats: seq<Materialization>)
    requires |mats| == |ds|
  {
    exists k | 0 <= k < |mats| :: Backs(ds, mats, k, r)
  }

  ghost predicate Backed(rs: seq<Request>, ds: seq<Decision>, mats: seq<Materialization>)
    requires |mats| == |ds|
  {
    forall i | 0 <= i < |rs| :: HasBacking(rs[i], ds, mats)
  }

  predicate Requested(rs: seq<Request>, matId: MatId) { exists i | 0 <= i < |rs| :: rs[i].matId == matId }

  /** A released materialization has a request. */
  ghost predicate Released(rs: seq<Request>, mats: seq<Materialization>) {
    forall k | 0 <= k < |mats| :: mats[k].status.ExecutionReady? ==> Requested(rs, mats[k].id)
  }

  /** Only the newest request can be active, and then it belongs to the newest decision, whose milestone is open. */
  ghost predicate OnlyNewestActive(rs: seq<Request>, ms: seq<Milestone>, ds: seq<Decision>)
    requires |ds| <= |ms|
  {
    && (forall i | 0 <= i < |rs| - 1 :: !ActiveRequest(rs[i].status))
    && (rs != [] && ActiveRequest(rs[|rs| - 1].status) ==>
          && ds != [] && rs[|rs| - 1].decisionId == ds[|ds| - 1].id
          && rs[|rs| - 1].milestoneId == ds[|ds| - 1].milestoneId
          && ms[|ds| - 1].status.MReady?)
  }

  ghost predicate Requests(rs: seq<Request>, ms: seq<Milestone>, ds: seq<Decision>, mats: seq<Materialization>)
    requires |mats| == |ds| <= |ms|
  {
    Numbered(rs) && Backed(rs, ds, mats) && Released(rs, mats) && OnlyNewestActive(rs, ms, ds)
  }

  predicate SameWork(d: Delegation, r: Request) {
    d.requestId == r.id && d.matId == r.matId && d.decisionId == r.decisionId && d.target == r.target
  }

  /** The delegation's request is on record and closed. */
  predicate ClosedWork(d: Delegation, rs: seq<Request>) {
    exists j | 0 <= j < |rs| :: SameWork(d, rs[j]) && !ActiveRequest(rs[j].status)
  }

  /** At most one delegation is active: the one of the newest request. Closed delegations belong to closed requests. */
  ghost predicate Delegations(active: seq<Delegation>, history: seq<Delegation>, rs: seq<Request>) {
    && |active| <= 1
    && (|active| == 1 ==>
          && rs != [] && SameWork(active[0], rs[|rs| - 1]) && active[0].milestoneId == rs[|rs| - 1].milestoneId
          && ActiveDelegation(active[0].status)
          && rs[|rs| - 1].status == (if active[0].status.DelPending? then RDispatched else RRunning)
          && (active[0].status.DelPending? <==> active[0].workerClaimId.None?))
    && (rs != [] && (rs[|rs| - 1].status.RDispatched? || rs[|rs| - 1].status.RRunning?) ==> |active| == 1)
    && (forall i | 0 <= i < |history| :: !ActiveDelegation(history[i].status))
    && (forall i, j | 0 <= i < j < |history| :: history[i].id != history[j].id && history[i].requestId != history[j].requestId)
    && (forall i | 0 <= i < |history| :: |active| == 1 ==> history[i].id != active[0].id)
    && (forall i | 0 <= i < |history| :: ClosedWork(history[i], rs))
  }

  ghost predicate Claims(cs: seq<Claim>, active: seq<Delegation>, history: seq<Delegation>) {
    && (forall i, j | 0 <= i < j < |cs| :: cs[i].id != cs[j].id)
    && (forall i | 0 <= i < |cs| :: HasDelegation(active, cs[i].delegationId) || HasDelegation(history, cs[i].delegationId))
    && (forall i | 0 <= i < |cs| :: cs[i].status.ClaimActive? ==>
          |active| == 1 && active[0].id == cs[i].delegationId && active[0].workerClaimId == Some(cs[i].id))
    && (|active| == 1 && active[0].workerClaimId.Some? ==>
          exists i | 0 <= i < |cs| :: Some(cs[i].id) == active[0].workerClaimId && cs[i].status.ClaimActive?
                                      && cs[i].delegationId == active[0].id)
  }

  /** Every artifact has its whole chain on record, and no milestone yields two artifacts. */
  ghost predicate Lineage(arts: seq<Artifact>, ms: seq<Milestone>, ds: seq<Decision>, mats: seq<Materialization>,
                          rs: seq<Request>, active: seq<Delegation>, history: seq<Delegation>, cs: seq<Claim>) {
    && (forall i | 0 <= i < |arts| :: arts[i].verified && Recorded(arts[i], ds, mats, rs, active, history, cs))
    && |arts| <= CompletedMilestones(ms)
  }

  ghost predicate Recorded(a: Artifact, ds: seq<Decision>, mats: seq<Materialization>, rs: seq<Request>,
                           active: seq<Delegation>, history: seq<Delegation>, cs: seq<Claim>) {
    && HasDecision(ds, a.decisionId) && HasMat(mats, a.matId) && HasRequest(rs, a.requestId)
    && (HasDelegation(active, a.delegationId) || HasDelegation(history, a.delegationId)) && HasClaim(cs, a.claimId)
  }

  /** In an artifact mission the expected type is carried along the chain, and recorded evidence of known source counts. */
  ghost predicate Typed(criterion: Criterion, mode: VerificationMode, missionId: Id, ms: seq<Milestone>, ds: seq<Decision>,
                        rs: seq<Request>, active: seq<Delegation>, arts: seq<Artifact>) {
    criterion.VerifiedArtifacts? ==>
      var t := criterion.artifactType;
      && (mode.QualifiedLeadCanary? ==> t.LeadArtifact?)
      && (forall i | 0 <= i < |ms| :: ms[i].spec.Some? && ms[i].spec.value.expected == t)
      && (forall i | 0 <= i < |ds| :: ds[i].expected == t)
      && (forall i | 0 <= i < |rs| :: rs[i].expected == t)
      && (forall i | 0 <= i < |active| :: active[i].expected == t)
      && (forall i | 0 <= i < |arts| :: !arts[i].source.Unknown? ==> ArtifactCounts(mode, t, missionId, arts[i]))
  }

  ghost predicate States(m: Mission) {
    && (m.status.Active? || m.status.Paused? || m.status.Completed? || m.status.WaitingDirector?)
    && (m.status.Completed? ==> m.objectiveAchieved)
    && (m.objectiveAchieved ==> CriteriaMet(m))
    && (TerminalStatus(m.status) ==> m.requests == [] || !ActiveRequest(m.requests[|m.requests| - 1].status))
    && (m.progression.PRunning? || m.execution.ERunning? ==> |m.active| == 1 && !m.active[0].status.DelPending?)
    && 0 <= m.progress <= 100
  }

  ghost predicate Inv(m: Mission) {
    && Chain(m.milestones, m.decisions, m.mats)
    && Plans(m.kind, m.criterion, m.planVersion, m.replanCount, m.outreachBatches, m.strategies, m.historicalPlans, m.milestones)
    && Requests(m.requests, m.milestones, m.decisions, m.mats)
    && Delegations(m.active, m.history, m.requests)
    && Claims(m.claims, m.active, m.history)
    && Lineage(m.lineage, m.milestones, m.decisions, m.mats, m.requests, m.active, m.history, m.claims)
    && Typed(m.criterion, m.mode, m.missionId, m.milestones, m.decisions, m.requests, m.active, m.lineage)
    && States(m)
  }

  // ---- the invariant implies what the validator checks ---------------------------------------------------

  lemma {:induction false} SurvivorsOfDistinct(ds: seq<Delegation>)
    requires forall i, j | 0 <= i < j < |ds| :: ds[i].id != ds[j].id
    ensures Survivors(ds) == ds
  {
    if ds != [] {
      SurvivorsOfDistinct(ds[1..]);
      assert !HasDelegation(ds[1..], ds[0].id);
    }
  }

  lemma ClosedIsNotNewest(active: seq<Delegation>, history: seq<Delegation>, rs: seq<Request>)
    requires Numbered(rs) && Delegations(active, history, rs) && |active| == 1
    ensures forall i | 0 <= i < |history| :: active[0].requestId != history[i].requestId
  {
    forall i | 0 <= i < |history| ensures active[0].requestId != history[i].requestId {
      assert ClosedWork(history[i], rs);
      var j :| 0 <= j < |rs| && SameWork(history[i], rs[j]) && !ActiveRequest(rs[j].status);
    }
  }

  lemma DelegationsAreDistinct(ms: seq<Milestone>, ds: seq<Decision>, mats: seq<Materialization>,
                               active: seq<Delegation>, history: seq<Delegation>, rs: seq<Request>)
    requires |mats| == |ds| <= |ms| && Requests(rs, ms, ds, mats)
    requires Delegations(active, history, rs)
    ensures forall i, j | 0 <= i < j < |active + history| :: (active + history)[i].id != (active + history)[j].id
    ensures forall i, j | 0 <= i < j < |active + history| :: (active + history)[i].requestId != (active + history)[j].requestId
  {
    assert Numbered(rs);
    hide *;
    DelegationsApart(active, history, rs);
    var all := active + history;
    forall i, j | 0 <= i < j < |all| ensures all[i].id != all[j].id && all[i].requestId != all[j].requestId {
      assert i >= |active| ==> all[i] == history[i - |active|];
      assert all[j] == history[j - |active|];
    }
  }

  lemma DelegationsApart(active: seq<Delegation>, history: seq<Delegation>, rs: seq<Request>)
    requires Numbered(rs) && Delegations(active, history, rs)
    ensures |active| <= 1
    ensures forall i, j | 0 <= i < j < |history| :: history[i].id != history[j].id && history[i].requestId != history[j].requestId
    ensures |active| == 1 ==>
              forall i | 0 <= i < |history| :: active[0].id != history[i].id && active[0].requestId != history[i].requestId
  {
    hide Numbered, ClosedWork, SameWork;
    if |active| == 1 {
      ClosedIsNotNewest(active, history, rs);
    }
  }

  lemma DelegationsHaveRequests(m: Mission)
    requires Inv(m)
    ensures !OrphanDelegations(m, AllDelegations(m))
  {
    hide Chain, Plans, Backed, Released, Claims, Lineage, Typed, States;
    forall i | 0 <= i < |AllDelegations(m)| ensures HasRequest(m.requests, AllDelegations(m)[i].requestId) {
      if i < |m.active| {
        assert m.requests[|m.requests| - 1].id == m.active[i].requestId;
      } else {
        var h := m.history[i - |m.active|];
        var j :| 0 <= j < |m.requests| && SameWork(h, m.requests[j]) && !ActiveRequest(m.requests[j].status);
      }
    }
  }

  lemma DelegationsSatisfyValidator(m: Mission)
    requires Inv(m)
    ensures Survivors(AllDelegations(m)) == AllDelegations(m)
    ensures !OrphanDelegations(m, AllDelegations(m)) && !DuplicateDelegations(AllDelegations(m))
  {
    hide Plans, Requests, Delegations, Claims, Lineage, Typed, States;
    DelegationsAreDistinct(m.milestones, m.decisions, m.mats, m.active, m.history, m.requests);
    SurvivorsOfDistinct(AllDelegations(m));
    DelegationsHaveRequests(m);
  }

  lemma ClaimsSatisfyValidator(cs: seq<Claim>, active: seq<Delegation>, history: seq<Delegation>, rs: seq<Request>)
    requires Claims(cs, active, history) && Delegations(active, history, rs)
    ensures !InactiveClaims(cs, active + history) && !DuplicateClaims(cs)
  {
    forall i | 0 <= i < |cs| && cs[i].status.ClaimActive? ensures HeldOnActive(active + history, cs[i].delegationId) {
      assert (active + history)[0] == active[0];
    }
  }

  lemma RecordsSatisfyValidator(m: Mission)
    requires Inv(m)
    ensures !OrphanMats(m) && !DuplicateMats(m) && !OrphanRequests(m) && !DuplicateRequests(m)
  {
    hide Plans, Released, OnlyNewestActive, Delegations, Claims, Lineage, Typed, States;
    forall i | 0 <= i < |m.mats| ensures HasDecision(m.decisions, m.mats[i].decisionId) {
      assert m.decisions[i].id == m.mats[i].decisionId;
    }
    forall i | 0 <= i < |m.requests| ensures HasMat(m.mats, m.requests[i].matId) {
      var k :| 0 <= k < |m.mats| && Backs(m.decisions, m.mats, k, m.requests[i]);
    }
  }

  lemma StateSatisfiesValidator(m: Mission)
    requires Inv(m)
    ensures HasActiveRequest(m) <==> m.requests != [] && ActiveRequest(m.requests[|m.requests| - 1].status)
    ensures HasActiveDelegation(m) <==> |m.active| == 1
    ensures HasActiveDelegation(m) ==> HasActiveRequest(m)
    ensures StateClear(m)
    ensures !ReportsGhostRunning(m)
  {
    hide Chain, Numbered, Backed, Released, Claims, Lineage, Typed;
  }

  predicate StateClear(m: Mission) {
    && 0 <= m.progress <= 100
    && (m.status.Completed? ==> CriteriaMet(m) && m.objectiveAchieved)
    && (TerminalStatus(m.status) ==> !HasActiveRequest(m) && !HasActiveDelegation(m))
    && (m.progression.PRunning? ==> HasActiveRequest(m) && HasActiveDelegation(m))
    && m.replanCount <= MAX_PLAN_LOOPS && m.planVersion <= MAX_PLAN_LOOPS + 1 && m.outreachBatches <= MAX_OUTREACH_BATCHES
  }

  lemma InAllDelegations(m: Mission, id: Id)
    requires HasDelegation(m.active, id) || HasDelegation(m.history, id)
    ensures HasDelegation(AllDelegations(m), id)
  {
    if HasDelegation(m.active, id) {
      var k :| 0 <= k < |m.active| && m.active[k].id == id;
      assert AllDelegations(m)[k].id == id;
    } else {
      var k :| 0 <= k < |m.history| && m.history[k].id == id;
      assert AllDelegations(m)[|m.active| + k].id == id;
    }
  }

  lemma ArtifactsSatisfyValidator(m: Mission)
    requires Inv(m)
    ensures !OrphanClaims(m) && !BrokenArtifacts(m) && !UnverifiedArtifacts(m)
  {
    hide Chain, Plans, Requests, Delegations, Typed, States;
    forall i | 0 <= i < |m.claims| ensures HasDelegation(AllDelegations(m), m.claims[i].delegationId) {
      InAllDelegations(m, m.claims[i].delegationId);
    }
    forall i | 0 <= i < |m.lineage| ensures ChainIntact(m, m.lineage[i]) {
      InAllDelegations(m, m.lineage[i].delegationId);
    }
  }

  lemma WorkerIsHeld(m: Mission)
    requires Inv(m) && |m.active| == 1
    ensures WorkerHolds(m)
  {
    hide Chain, Plans, Requests, Lineage, Typed, States;
    assert ActiveDelegation(m.active[0].status);
    if !m.active[0].status.DelPending? {
      var i :| 0 <= i < |m.claims| && Some(m.claims[i].id) == m.active[0].workerClaimId
               && m.claims[i].status.ClaimActive? && m.claims[i].delegationId == m.active[0].id;
      assert ActiveClaimOf(m.claims, m.active[0].id) <= i;
    }
  }

  lemma ClearMeansSound(m: Mission)
    requires StateClear(m)
    requires !OrphanMats(m) && !DuplicateMats(m) && !OrphanRequests(m) && !DuplicateRequests(m)
    requires !OrphanDelegations(m, Survivors(AllDelegations(m))) && !DuplicateDelegations(Survivors(AllDelegations(m)))
    requires !OrphanClaims(m) && !InactiveClaims(m.claims, Survivors(AllDelegations(m))) && !DuplicateClaims(m.claims)
    requires !BrokenArtifacts(m) && !UnverifiedArtifacts(m)
    ensures Sound(m)
  {
  }

  /** Whenever the invariant holds, the validator is silent and the truth resolver reports no ghost. */
  lemma InvariantSatisfiesValidator(m: Mission)
    requires Inv(m)
    ensures Sound(m)
    ensures !ReportsGhostRunning(m) && ExecutionIntegrityPassed(m)
  {
    hide Plans, Requests, Delegations, Claims, Lineage, Typed, States, StateClear, WorkerHolds, Sound;
    DelegationsSatisfyValidator(m);
    ClaimsSatisfyValidator(m.claims, m.active, m.history, m.requests);
    RecordsSatisfyValidator(m);
    StateSatisfiesValidator(m);
    ArtifactsSatisfyValidator(m);
    ClearMeansSound(m);
    if |m.active| == 1 {
      WorkerIsHeld(m);
    }
  }
}
