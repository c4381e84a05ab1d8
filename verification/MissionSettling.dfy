/** Failures, completions and outcomes keep the invariant: the active chain is closed and the next one may begin. */
module MissionSettling {
  import opened Search
  import opened MissionModel
  import opened MissionGuard
  import opened MissionValidator
  import opened MissionSteps
  import opened MissionInvariant
  import opened MissionSafety

  // ---- closing the active chain --------------------------------------------------------------------------

  /** The active delegation's request stands on the newest decision, whose materialization is released. */
  lemma ActiveChain(m: Mission)
    requires Inv(m) && |m.active| == 1
    ensures m.requests != [] && ActiveRequest(m.requests[|m.requests| - 1].status)
    ensures m.decisions != [] && |m.mats| == |m.decisions| <= |m.milestones|
    ensures Backs(m.decisions, m.mats, |m.mats| - 1, m.requests[|m.requests| - 1]) && m.mats[|m.mats| - 1].status.ExecutionReady?
    ensures m.requests[|m.requests| - 1].decisionId == m.decisions[|m.decisions| - 1].id
    ensures m.requests[|m.requests| - 1].milestoneId == m.decisions[|m.decisions| - 1].milestoneId
    ensures m.milestones[|m.decisions| - 1].status.MReady?
    ensures IndexOfMilestone(m.milestones, m.active[0].milestoneId) == |m.decisions| - 1
    ensures HasDecision(m.decisions, m.active[0].decisionId) && HasMat(m.mats, m.active[0].matId)
    ensures HasRequest(m.requests, m.active[0].requestId)
  {
    hide Plans, Claims, Lineage, Typed, States, Numbered, Released, Delegations;
    NewestDelegation(m);
    var last := m.requests[|m.requests| - 1];
    assert HasBacking(last, m.decisions, m.mats);
    var k :| 0 <= k < |m.mats| && Backs(m.decisions, m.mats, k, last);
    assert m.decisions[k].id == last.decisionId;
    assert m.milestones[|m.decisions| - 1].id == m.active[0].milestoneId;
  }

  lemma DelegationClosed(active: seq<Delegation>, history: seq<Delegation>, rs: seq<Request>, d: Delegation, q: Request)
    requires Delegations(active, history, rs) && |active| == 1 && rs != []
    requires d == active[0].(status := d.status) && !ActiveDelegation(d.status)
    requires SameRequest(q, rs[|rs| - 1]) && !ActiveRequest(q.status)
    requires forall i | 0 <= i < |history| :: history[i].requestId != active[0].requestId
    ensures Delegations([], history + [d], rs[|rs| - 1 := q])
  {
    var rs', history' := rs[|rs| - 1 := q], history + [d];
    forall h | 0 <= h < |history'| ensures ClosedWork(history'[h], rs') {
      if h < |history| {
        assert ClosedWork(history[h], rs);
        var j :| 0 <= j < |rs| && SameWork(history[h], rs[j]) && !ActiveRequest(rs[j].status);
        assert SameWork(history'[h], rs'[j]) && !ActiveRequest(rs'[j].status);
      } else {
        assert SameWork(history'[h], rs'[|rs| - 1]);
      }
    }
  }

  lemma HistoryHasOtherRequests(m: Mission)
    requires Inv(m) && |m.active| == 1
    ensures forall i | 0 <= i < |m.history| :: m.history[i].requestId != m.active[0].requestId
  {
    hide Plans, Claims, Lineage, Typed, States, Chain, Requests, Delegations;
    ChainSizes(m.milestones, m.decisions, m.mats);
    DelegationsAreDistinct(m.milestones, m.decisions, m.mats, m.active, m.history, m.requests);
    forall i | 0 <= i < |m.history| ensures m.history[i].requestId != m.active[0].requestId {
      assert (m.active + m.history)[i + 1] == m.history[i] && (m.active + m.history)[0] == m.active[0];
    }
  }

  lemma RemoveOnly(ds: seq<Delegation>)
    requires |ds| == 1
    ensures RemoveDelegation(ds, ds[0].id) == []
  {
    assert ds[1..] == [];
  }

  /** Closing the claim a delegation names leaves no active claim. */
  lemma ClaimsClosed(cs: seq<Claim>, active: seq<Delegation>, history: seq<Delegation>, d: Delegation, status: ClaimStatus)
    requires Claims(cs, active, history) && |active| == 1 && d.id == active[0].id && !status.ClaimActive?
    ensures var c := IndexOfClaim(cs, active[0].workerClaimId);
            var cs' := if c < |cs| then cs[c := cs[c].(status := status)] else cs;
            Claims(cs', [], history + [d]) && forall id :: HasClaim(cs, id) ==> HasClaim(cs', id)
  {
    var c := IndexOfClaim(cs, active[0].workerClaimId);
    var cs' := if c < |cs| then cs[c := cs[c].(status := status)] else cs;
    forall id | HasClaim(cs, id) ensures HasClaim(cs', id) {
      var k :| 0 <= k < |cs| && cs[k].id == id;
      assert cs'[k].id == id;
    }
    DelegationMoved(active, history, d);
    forall i | 0 <= i < |cs'| ensures HasDelegation(history + [d], cs'[i].delegationId) {
      assert cs'[i].delegationId == cs[i].delegationId;
    }
  }

  lemma DelegationMoved(active: seq<Delegation>, history: seq<Delegation>, d: Delegation)
    requires |active| == 1 && d.id == active[0].id
    ensures forall id :: HasDelegation(active, id) || HasDelegation(history, id) ==> HasDelegation(history + [d], id)
  {
    forall id | HasDelegation(active, id) || HasDelegation(history, id) ensures HasDelegation(history + [d], id) {
      if HasDelegation(active, id) {
        assert (history + [d])[|history|].id == id;
      } else {
        var k :| 0 <= k < |history| && history[k].id == id;
        assert (history + [d])[k].id == id;
      }
    }
  }

  // ---- failure -------------------------------------------------------------------------------------------

  /** A failed delegation closes its request, its claim and itself, before the retry or the escalation. */
  function Failed(m: Mission): Mission
    requires |m.active| == 1 && m.requests != []
  {
    var last := |m.requests| - 1;
    CloseDelegation(m, 0).(requests := m.requests[last := m.requests[last].(status := RFailed)])
  }

  /** Its parts, spelled out. */
  lemma FailedShape(m: Mission)
    requires |m.active| == 1 && m.requests != []
    ensures var last, d, c := |m.requests| - 1, m.active[0].(status := DelFailed), IndexOfClaim(m.claims, m.active[0].workerClaimId);
      Failed(m) == m.(active := [], history := m.history + [d],
                      requests := m.requests[last := m.requests[last].(status := RFailed)],
                      claims := if c < |m.claims| then m.claims[c := m.claims[c].(status := ClaimFailed)] else m.claims)
  {
    RemoveOnly(m.active);
  }

  lemma FailedWork(m: Mission)
    requires Inv(m) && |m.active| == 1
    ensures m.requests != [] && Failed(m).active == [] && |m.mats| == |m.decisions| <= |m.milestones|
    ensures Requests(Failed(m).requests, m.milestones, m.decisions, m.mats)
    ensures Delegations([], Failed(m).history, Failed(m).requests)
    ensures Claims(Failed(m).claims, [], Failed(m).history)
    ensures forall id :: HasClaim(m.claims, id) ==> HasClaim(Failed(m).claims, id)
  {
    hide Chain, Plans, Requests, Delegations, Claims, Lineage, Typed, States, Failed;
    ActiveChain(m);
    FailedShape(m);
    var last := |m.requests| - 1;
    var q, d := m.requests[last].(status := RFailed), m.active[0].(status := DelFailed);
    RequestUpdateKeepsRequests(m.requests, m.milestones, m.decisions, m.mats, last, q);
    HistoryHasOtherRequests(m);
    DelegationClosed(m.active, m.history, m.requests, d, q);
    ClaimsClosed(m.claims, m.active, m.history, d, ClaimFailed);
  }

  lemma FailedParts(m: Mission)
    requires Inv(m) && |m.active| == 1
    ensures m.requests != [] && Failed(m).active == []
    ensures Chain(m.milestones, m.decisions, m.mats)
    ensures |m.mats| == |m.decisions| <= |m.milestones| && Requests(Failed(m).requests, m.milestones, m.decisions, m.mats)
    ensures Delegations([], Failed(m).history, Failed(m).requests)
    ensures Claims(Failed(m).claims, [], Failed(m).history)
    ensures Lineage(m.lineage, m.milestones, m.decisions, m.mats, Failed(m).requests, [], Failed(m).history, Failed(m).claims)
    ensures Typed(m.criterion, m.mode, m.missionId, m.milestones, m.decisions, Failed(m).requests, [], m.lineage)
  {
    hide Chain, Plans, Requests, Delegations, Claims, Lineage, Typed, States, Failed;
    FailedWork(m);
    FailedShape(m);
    var last := |m.requests| - 1;
    var q, d := m.requests[last].(status := RFailed), m.active[0].(status := DelFailed);
    DelegationMoved(m.active, m.history, d);
    RequestUpdateKeepsIds(m.requests, last, q);
    var f := Failed(m);
    LineageKeeps(m.lineage, m.milestones, m.decisions, m.mats, m.requests, m.active, m.history, m.claims,
                 m.milestones, m.decisions, m.mats, f.requests, [], f.history, f.claims);
    TypedFollows(m, f.requests, []);
  }

  predicate Retries(m: Mission, report: FailureReport)
    requires m.requests != []
  {
    Classify(m.mode, report, true, m.requests[|m.requests| - 1].attempt).Retry?
  }

  function Retried(f: Mission, retry: Request): Mission {
    f.(retryCount := f.retryCount + 1, requests := f.requests + [retry], progression := PReady, execution := EReady,
       dispatch := DAwaiting, autoContinue := Running)
  }

  /** The failure of the active delegation is retried, or escalates. */
  lemma FailShape(m: Mission, delegationId: Id, report: FailureReport, retryId: Id)
    requires Inv(m) && HasDelegation(m.active, delegationId)
    ensures |m.active| == 1 && m.requests != []
    ensures var f, m' := Failed(m), Fail(m, delegationId, report, retryId);
      if Retries(m, report) then m' == Retried(f, RetryOf(m.requests[|m.requests| - 1].(status := RFailed), retryId))
      else exists reason :: m' == Escalate(f, reason)
  {
    hide Inv, FirstIndex, RemoveDelegation, Escalate;
    NewestDelegation(m);
    ActiveChain(m);
    NewestRequest(m, |m.requests| - 1);
    assert IndexOfDelegation(m.active, delegationId) == 0 && m.active[0].requestId == m.requests[|m.requests| - 1].id;
    var reason := match Classify(m.mode, report, true, m.requests[|m.requests| - 1].attempt)
      case GiveUp(reason) => reason
      case Retry => NoReason;
    assert !Retries(m, report) ==> Fail(m, delegationId, report, retryId) == Escalate(Failed(m), reason);
  }

  lemma RetryKeeps(m: Mission, report: FailureReport, retryId: Id)
    requires Inv(m) && |m.active| == 1 && m.requests != [] && Retries(m, report) && !HasRequest(m.requests, retryId)
    ensures Inv(Retried(Failed(m), RetryOf(m.requests[|m.requests| - 1].(status := RFailed), retryId)))
  {
    hide Chain, Plans, Requests, Delegations, Claims, Lineage, Typed, Identities;
    ActiveChain(m);
    FailedParts(m);
    FailedShape(m);
    var last := |m.requests| - 1;
    var f, retry := Failed(m), RetryOf(m.requests[last].(status := RFailed), retryId);
    hide Failed, CloseDelegation;
    RetryKeepsRequests(m, f.requests, retry);
    RequestAppendKeepsDelegations(f.history, f.requests, retry);
    RequestAppendKeepsIds(f.requests, retry);
    LineageKeeps(m.lineage, m.milestones, m.decisions, m.mats, f.requests, [], f.history, f.claims,
                 m.milestones, m.decisions, m.mats, f.requests + [retry], [], f.history, f.claims);
    TypedOverRetry(f, retry);
  }

  lemma EscalationKeeps(m: Mission, reason: Reason)
    requires Inv(m) && |m.active| == 1 && m.requests != []
    ensures Inv(Escalate(Failed(m), reason))
  {
    hide Chain, Plans, Requests, Delegations, Claims, Lineage, Typed, Identities;
    FailedParts(m);
    FailedShape(m);
    hide Failed, CloseDelegation;
  }

  lemma FailKeeps(m: Mission, delegationId: Id, report: FailureReport, retryId: Id)
    requires Inv(m) && HasDelegation(m.active, delegationId) && !HasRequest(m.requests, retryId)
    ensures Inv(Fail(m, delegationId, report, retryId))
  {
    hide *;
    FailShape(m, delegationId, report, retryId);
    if Retries(m, report) {
      RetryKeeps(m, report, retryId);
    } else {
      var reason :| Fail(m, delegationId, report, retryId) == Escalate(Failed(m), reason);
      EscalationKeeps(m, reason);
    }
  }

  lemma TypedOverRetry(f: Mission, retry: Request)
    requires Typed(f.criterion, f.mode, f.missionId, f.milestones, f.decisions, f.requests, f.active, f.lineage)
    requires f.requests != [] && retry.expected == f.requests[|f.requests| - 1].expected
    ensures Typed(f.criterion, f.mode, f.missionId, f.milestones, f.decisions, f.requests + [retry], f.active, f.lineage)
  {
  }

  lemma RetryKeepsRequests(m: Mission, rs: seq<Request>, retry: Request)
    requires Inv(m) && |m.active| == 1 && m.requests != [] && |m.mats| == |m.decisions| <= |m.milestones|
    requires rs == m.requests[|m.requests| - 1 := m.requests[|m.requests| - 1].(status := RFailed)]
    requires Requests(rs, m.milestones, m.decisions, m.mats)
    requires m.requests[|m.requests| - 1].attempt < MAX_EXECUTION_RETRIES
    requires retry == RetryOf(rs[|rs| - 1], retry.id) && !HasRequest(m.requests, retry.id)
    ensures Requests(rs + [retry], m.milestones, m.decisions, m.mats)
  {
    hide Chain, Plans, Delegations, Claims, Lineage, Typed, States, Backed;
    ActiveChain(m);
    forall i | 0 <= i < |rs| ensures rs[i].id != retry.id {
      assert rs[i].id == m.requests[i].id;
    }
    RequestAppendKeepsNumbered(rs, retry);
    RequestAppendKeepsBacked(rs, m.decisions, m.mats, retry, |m.mats| - 1);
    RequestAppendKeepsReleased(rs, m.mats, retry);
  }

  // ---- completion ----------------------------------------------------------------------------------------

  lemma {:induction false} CompletedOneMore(ms: seq<Milestone>, i: nat, x: Milestone)
    requires i < |ms| && !ms[i].status.MCompleted? && x.status.MCompleted?
    ensures CompletedMilestones(ms[i := x]) == CompletedMilestones(ms) + 1
  {
    var ms' := ms[i := x];
    if i == |ms| - 1 {
      assert ms'[..|ms| - 1] == ms[..|ms| - 1];
    } else {
      CompletedOneMore(ms[..|ms| - 1], i, x);
      assert ms'[..|ms| - 1] == ms[..|ms| - 1][i := x];
    }
  }

  lemma MilestoneCompletedKeepsChain(ms: seq<Milestone>, ds: seq<Decision>, mats: seq<Materialization>, x: Milestone)
    requires Chain(ms, ds, mats) && ds != [] && mats[|mats| - 1].status.ExecutionReady?
    requires x == ms[|ds| - 1].(status := MCompleted, artifactId := x.artifactId)
    ensures Chain(ms[|ds| - 1 := x], ds, mats)
  {
  }

  lemma PlansOverMilestone(m: Mission, i: nat, x: Milestone)
    requires Plans(m.kind, m.criterion, m.planVersion, m.replanCount, m.outreachBatches, m.strategies, m.historicalPlans, m.milestones)
    requires i < |m.milestones| && x == m.milestones[i].(status := x.status, artifactId := x.artifactId)
    requires m.milestones[i].plan < m.planVersion ==> x.status.MCompleted?
    ensures Plans(m.kind, m.criterion, m.planVersion, m.replanCount, m.outreachBatches, m.strategies, m.historicalPlans, m.milestones[i := x])
  {
  }

  lemma IdleKeepsRequests(rs: seq<Request>, ms: seq<Milestone>, ds: seq<Decision>, mats: seq<Materialization>, ms': seq<Milestone>)
    requires |mats| == |ds| <= |ms| && Requests(rs, ms, ds, mats) && Idle(rs) && |ds| <= |ms'|
    ensures Requests(rs, ms', ds, mats)
  {
    hide Numbered, Backed, Released;
  }

  /** More evidence never makes met criteria unmet. */
  lemma CriteriaStayMet(m: Mission, m': Mission)
    requires m'.criterion == m.criterion && m'.mode == m.mode && m'.missionId == m.missionId && m'.required == m.required
    requires VerifiedIdentities(m) <= VerifiedIdentities(m')
    ensures VerifiedCount(m) <= VerifiedCount(m')
    ensures CriteriaMet(m) ==> CriteriaMet(m')
  {
    SubsetCardinality(VerifiedIdentities(m), VerifiedIdentities(m'));
  }

  lemma LineageGrowsIdentities(m: Mission, a: Artifact)
    ensures VerifiedIdentities(m) <= VerifiedIdentities(m.(lineage := m.lineage + [a]))
  {
    if m.criterion.VerifiedArtifacts? {
      CountedSnoc(m.mode, m.criterion.artifactType, m.missionId, m.lineage, a);
    }
  }

  lemma AcceptParts(m: Mission, ev: Evidence)
    requires Inv(m) && |m.active| == 1 && CompletionGate(m, 0, ev).Admitted?
    ensures var m' := Accept(m, 0, ev);
      && m'.active == [] && Idle(m'.requests)
      && Chain(m'.milestones, m'.decisions, m'.mats)
      && Plans(m'.kind, m'.criterion, m'.planVersion, m'.replanCount, m'.outreachBatches, m'.strategies, m'.historicalPlans, m'.milestones)
      && Requests(m'.requests, m'.milestones, m'.decisions, m'.mats)
      && Delegations(m'.active, m'.history, m'.requests)
      && Claims(m'.claims, m'.active, m'.history)
  {
    hide Chain, Plans, Requests, Delegations, Claims, Lineage, Typed, States, UpdateProgress;
    var m' := Accept(m, 0, ev);
    UpdateProgressFrame(m);
    NewestDelegation(m);
    ActiveChain(m);
    var last, at := |m.requests| - 1, |m.decisions| - 1;
    NewestRequest(m, last);
    var q, d := m.requests[last].(status := RCompleted), m.active[0].(status := DelCompleted);
    var x := m.milestones[at].(status := MCompleted, artifactId := Some(ev.artifactId));
    AcceptShape(m, ev);
    RequestUpdateKeepsRequests(m.requests, m.milestones, m.decisions, m.mats, last, q);
    IdleKeepsRequests(m'.requests, m.milestones, m.decisions, m.mats, m'.milestones);
    MilestoneCompletedKeepsChain(m.milestones, m.decisions, m.mats, x);
    PlansOverMilestone(m, at, x);
    HistoryHasOtherRequests(m);
    DelegationClosed(m.active, m.history, m.requests, d, q);
    ClaimsClosed(m.claims, m.active, m.history, d, ClaimCompleted);
  }

  lemma UpdateProgressFrame(m: Mission)
    ensures UpdateProgress(m) == m.(progress := UpdateProgress(m).progress)
    ensures 0 <= UpdateProgress(m).progress <= 100
  {
  }

  /** What accepting evidence does to each collection. */
  lemma AcceptShape(m: Mission, ev: Evidence)
    requires Inv(m) && |m.active| == 1 && CompletionGate(m, 0, ev).Admitted?
    ensures m.requests != [] && m.decisions != [] && |m.decisions| <= |m.milestones|
    ensures var m' := Accept(m, 0, ev);
      var last, at, d := |m.requests| - 1, |m.decisions| - 1, m.active[0].(status := DelCompleted);
      var c := IndexOfClaim(m.claims, d.workerClaimId);
      && c < |m.claims| && m.claims[c].status.ClaimActive?
      && m' == m.(requests := m.requests[last := m.requests[last].(status := RCompleted)],
                  claims := m.claims[c := m.claims[c].(status := ClaimCompleted)],
                  history := m.history + [d], active := [],
                  milestones := m.milestones[at := m.milestones[at].(status := MCompleted, artifactId := Some(ev.artifactId))],
                  lineage := m'.lineage, progress := m'.progress, execution := EReady, progression := PReady,
                  dispatch := DNone, autoContinue := Running, retryCount := 0)
      && (m'.lineage == m.lineage || m'.lineage == m.lineage + [LineageOf(m.missionId, d, m.claims[c].id, ev)])
      && 0 <= m'.progress <= 100
  {
    hide Chain, Plans, Requests, Delegations, Claims, Lineage, Typed, States, Inv, FirstIndex, AdmissionGate, CompletedMilestones,
         RoundHalfEven, Backs;
    NewestDelegation(m);
    ActiveChain(m);
    RemoveOnly(m.active);
    NewestRequest(m, |m.requests| - 1);
  }

  lemma CompletionKeeps(m: Mission, delegationId: Id, ev: Evidence, retryId: Id)
    requires Inv(m) && !HasRequest(m.requests, retryId)
    ensures Inv(Complete(m, delegationId, ev, retryId))
  {
    hide Chain, Plans, Requests, Delegations, Claims, Lineage, Typed, States, CompletionGate, Accept, Fail;
    var d := IndexOfDelegation(m.active, delegationId);
    if !CompletedBefore(m, delegationId) && d < |m.active| {
      NewestDelegation(m);
      assert m.active[d].id == delegationId;
      if CompletionGate(m, d, ev).Admitted? {
        AcceptKeeps(m, ev);
      } else {
        FailKeeps(m, delegationId, FailureReport(CompletionGate(m, d, ev).error, ev.terminalEntity), retryId);
      }
    }
  }

  lemma AcceptKeeps(m: Mission, ev: Evidence)
    requires Inv(m) && |m.active| == 1 && CompletionGate(m, 0, ev).Admitted?
    ensures Inv(Accept(m, 0, ev))
  {
    hide Chain, Plans, Requests, Delegations, Claims, Lineage, Typed, States, Accept;
    AcceptParts(m, ev);
    AcceptLineage(m, ev);
    AcceptTyped(m, ev);
    AcceptStates(m, ev);
  }

  lemma LineageAppends(arts: seq<Artifact>, a: Artifact, ms: seq<Milestone>, ds: seq<Decision>, mats: seq<Materialization>,
                       rs: seq<Request>, active: seq<Delegation>, history: seq<Delegation>, cs: seq<Claim>)
    requires Lineage(arts, ms, ds, mats, rs, active, history, cs) && |arts| < CompletedMilestones(ms)
    requires a.verified && Recorded(a, ds, mats, rs, active, history, cs)
    ensures Lineage(arts + [a], ms, ds, mats, rs, active, history, cs)
  {
    hide Recorded, CompletedMilestones;
  }

  /** What was recorded before stays recorded, and there is room for one more artifact. */
  lemma AcceptKeepsLineage(m: Mission, ev: Evidence)
    requires Inv(m) && |m.active| == 1 && CompletionGate(m, 0, ev).Admitted?
    ensures var m' := Accept(m, 0, ev);
      && Lineage(m.lineage, m'.milestones, m'.decisions, m'.mats, m'.requests, m'.active, m'.history, m'.claims)
      && |m.lineage| < CompletedMilestones(m'.milestones)
  {
    hide Chain, Plans, Requests, Delegations, Claims, Typed, States, Accept, CompletionGate, CompletedMilestones, Recorded;
    var m' := Accept(m, 0, ev);
    AcceptShape(m, ev);
    ActiveChain(m);
    var last, at, d := |m.requests| - 1, |m.decisions| - 1, m.active[0].(status := DelCompleted);
    CompletedOneMore(m.milestones, at, m'.milestones[at]);
    RequestUpdateKeepsIds(m.requests, last, m'.requests[last]);
    DelegationMoved(m.active, m.history, d);
    ClaimsClosed(m.claims, m.active, m.history, d, ClaimCompleted);
    LineageKeeps(m.lineage, m.milestones, m.decisions, m.mats, m.requests, m.active, m.history, m.claims,
                 m'.milestones, m.decisions, m.mats, m'.requests, m'.active, m'.history, m'.claims);
  }

  lemma AcceptedIsRecorded(m: Mission, ev: Evidence)
    requires Inv(m) && |m.active| == 1 && CompletionGate(m, 0, ev).Admitted?
    ensures var m' := Accept(m, 0, ev); var d := m.active[0].(status := DelCompleted);
      var c := IndexOfClaim(m.claims, d.workerClaimId);
      && c < |m.claims| && LineageOf(m.missionId, d, m.claims[c].id, ev).verified
      && Recorded(LineageOf(m.missionId, d, m.claims[c].id, ev), m'.decisions, m'.mats, m'.requests, m'.active, m'.history, m'.claims)
  {
    hide Chain, Plans, Requests, Delegations, Claims, Lineage, Typed, States, Accept, CompletionGate;
    var m' := Accept(m, 0, ev);
    AcceptShape(m, ev);
    ActiveChain(m);
    var last, d := |m.requests| - 1, m.active[0].(status := DelCompleted);
    RequestUpdateKeepsIds(m.requests, last, m'.requests[last]);
    DelegationMoved(m.active, m.history, d);
    ClaimsClosed(m.claims, m.active, m.history, d, ClaimCompleted);
    var c := IndexOfClaim(m.claims, d.workerClaimId);
    assert HasClaim(m.claims, m.claims[c].id);
    assert HasDelegation(m.active, d.id);
  }

  lemma AcceptLineage(m: Mission, ev: Evidence)
    requires Inv(m) && |m.active| == 1 && CompletionGate(m, 0, ev).Admitted?
    ensures var m' := Accept(m, 0, ev);
      Lineage(m'.lineage, m'.milestones, m'.decisions, m'.mats, m'.requests, m'.active, m'.history, m'.claims)
  {
    hide *;
    var m' := Accept(m, 0, ev);
    AcceptShape(m, ev);
    AcceptKeepsLineage(m, ev);
    AcceptedIsRecorded(m, ev);
    var d := m.active[0].(status := DelCompleted);
    LineageAppends(m.lineage, LineageOf(m.missionId, d, m.claims[IndexOfClaim(m.claims, d.workerClaimId)].id, ev),
                   m'.milestones, m'.decisions, m'.mats, m'.requests, m'.active, m'.history, m'.claims);
  }

  lemma AcceptTyped(m: Mission, ev: Evidence)
    requires Inv(m) && |m.active| == 1 && CompletionGate(m, 0, ev).Admitted?
    ensures var m' := Accept(m, 0, ev);
      Typed(m'.criterion, m'.mode, m'.missionId, m'.milestones, m'.decisions, m'.requests, m'.active, m'.lineage)
  {
    hide Chain, Plans, Requests, Delegations, Claims, Lineage, States, Accept, AdmissionGate, ArtifactCounts;
    AcceptShape(m, ev);
    var d := m.active[0].(status := DelCompleted);
    var c := IndexOfClaim(m.claims, d.workerClaimId);
    AdmittedCountsExactly(m.missionId, m.mode, d, m.claims[c].id, ev);
  }

  lemma AcceptStates(m: Mission, ev: Evidence)
    requires Inv(m) && |m.active| == 1 && CompletionGate(m, 0, ev).Admitted?
    ensures States(Accept(m, 0, ev))
  {
    hide Chain, Plans, Requests, Delegations, Claims, Lineage, Typed, Accept, Identities;
    var m' := Accept(m, 0, ev);
    AcceptShape(m, ev);
    ActiveChain(m);
    var c := IndexOfClaim(m.claims, m.active[0].workerClaimId);
    LineageGrowsIdentities(m, LineageOf(m.missionId, m.active[0].(status := DelCompleted), m.claims[c].id, ev));
    CriteriaStayMet(m, m');
  }

  // ---- outcomes ------------------------------------------------------------------------------------------

  lemma OutcomeGrowsIdentities(m: Mission, o: Outcome)
    ensures VerifiedIdentities(m) <= VerifiedIdentities(RecordOutcome(m, o))
  {
    var m' := RecordOutcome(m, o);
    if m.criterion.VerifiedWonClients? {
      forall x | x in CountedOutcomes(m.outcomes) ensures x in CountedOutcomes(m'.outcomes) {
        var p :| p in m.outcomes && OutcomeCounts(p) && p.identity == x;
        var k :| 0 <= k < |m.outcomes| && m.outcomes[k] == p;
        assert m'.outcomes[k] == p;
      }
    }
  }

  lemma RecordOutcomeKeeps(m: Mission, o: Outcome)
    requires Inv(m)
    ensures Inv(RecordOutcome(m, o))
  {
    hide Chain, Plans, Requests, Delegations, Claims, Lineage, Typed, Identities;
    OutcomeGrowsIdentities(m, o);
    CriteriaStayMet(m, RecordOutcome(m, o));
  }
}
