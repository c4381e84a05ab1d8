/** An artifact mission can be completed, and exactly when a single artifact is required. */
module MissionLiveness {
  import opened Search
  import opened MissionModel
  import opened MissionGuard
  import opened MissionValidator
  import opened MissionSteps
  import opened MissionInvariant
  import opened MissionRuns
  import opened MissionEvidence

  const FIRST_IDS := FreshIds(0, 0, 0)
  const NEXT_IDS := FreshIds(1, 1, 1)

  /** Evidence that every verification mode admits. */
  function GoodEvidence(t: ArtifactType): Evidence {
    Evidence(true, 0, t, true, LiveExternal, false, true, true, true, false, ErrorText(false, false, false, false))
  }

  /** What all stages before completion share: one decided milestone of plan 1, nothing recorded yet. */
  predicate Underway(m: Mission, spec: Spec)
    requires spec.ArtifactSpec?
  {
    && m.status.Active? && m.kind.ArtifactProduction? && m.mode == spec.mode && m.criterion == VerifiedArtifacts(spec.artifactType)
    && m.required == 1 && m.planVersion == 1 && m.replanCount == 0
    && |m.milestones| == 1 && m.milestones[0].id == 1 && m.milestones[0].plan == 1 && m.milestones[0].status.MReady?
    && |m.decisions| == 1 && |m.mats| == 1 && m.decisions[0].id == 0 && m.mats[0].id == MatId(0) && m.mats[0].decisionId == 0
    && m.decisions[0].milestoneId == 1 && m.decisions[0].expected == spec.artifactType
    && m.lineage == [] && m.history == []
  }

  /** The mission's only request in the given status. */
  predicate Requesting(m: Mission, spec: Spec, s: RequestStatus)
    requires spec.ArtifactSpec?
  {
    && Underway(m, spec) && |m.requests| == 1
    && m.requests[0].id == 0 && m.requests[0].status == s && m.requests[0].milestoneId == 1 && m.requests[0].expected == spec.artifactType
  }

  lemma Started(id: Id, spec: Spec)
    requires SpecOk(spec) && spec.ArtifactSpec? && spec.required == 1
    ensures var m := Bootstrap(Create(id, spec), FIRST_IDS);
      Underway(m, spec) && m.active == [] && m.claims == []
      && (Requesting(m, spec, RReady) || (m.requests == [] && m.mats[0].status.ApprovalRequired?))
  {
    hide NeedsApproval, FirstIndex, FinishPlan;
    var m := Create(id, spec);
    assert FirstMilestoneOfPlan(m.milestones, 1) == 0 && FirstOpenMilestone(m.milestones, 1) == 0;
    assert !MilestoneBusy(m, 1);
  }

  lemma Approved(m: Mission, spec: Spec)
    requires spec.ArtifactSpec? && Underway(m, spec) && m.requests == [] && m.mats[0].status.ApprovalRequired?
    ensures var m' := Approve(m, MatId(0), 0);
      Requesting(m', spec, RReady) && m'.active == m.active && m'.claims == m.claims
  {
    hide FirstIndex;
    assert IndexOfMat(m.mats, MatId(0)) == 0 && IndexOfDecision(m.decisions, 0) == 0;
  }

  lemma Worked(m: Mission, spec: Spec)
    requires spec.ArtifactSpec? && Requesting(m, spec, RReady) && m.active == [] && m.claims == []
    ensures Legal(ClaimReadyRequest(m), EvCreateDelegation(0, 0))
    ensures Legal(CreateDelegation(ClaimReadyRequest(m), 0, 0), EvClaimDelegation(0, 0))
    ensures var m' := ClaimDelegation(CreateDelegation(ClaimReadyRequest(m), 0, 0), 0, 0);
      && Requesting(m', spec, RRunning) && |m'.active| == 1 && |m'.claims| == 1
      && m'.active[0].id == 0 && m'.active[0].requestId == 0 && m'.active[0].milestoneId == 1
      && m'.active[0].expected == spec.artifactType && m'.active[0].workerClaimId == Some(0)
      && m'.claims[0].id == 0 && m'.claims[0].status.ClaimActive?
  {
    hide FirstIndex;
    assert FirstReadyRequest(m.requests) == 0;
    var m1 := ClaimReadyRequest(m);
    assert m1.requests[0].id == 0;
    assert IndexOfRequest(m1.requests, 0) == 0 && CanDelegate(m1, 0);
    var m2 := CreateDelegation(m1, 0, 0);
    assert m2.active[0].status.DelPending? && m2.requests[0].id == 0;
    assert FirstPendingDelegation(m2.active) == 0 && CanClaim(m2) && IndexOfRequest(m2.requests, 0) == 0;
  }

  lemma Delivered(m: Mission, spec: Spec)
    requires SpecOk(spec) && spec.ArtifactSpec? && Requesting(m, spec, RRunning) && |m.active| == 1 && |m.claims| == 1
    requires m.active[0].id == 0 && m.active[0].requestId == 0 && m.active[0].milestoneId == 1
    requires m.active[0].expected == spec.artifactType && m.active[0].workerClaimId == Some(0)
    requires m.claims[0].id == 0 && m.claims[0].status.ClaimActive?
    ensures var m' := Complete(m, 0, GoodEvidence(spec.artifactType), 1);
      && m'.status.Active? && m'.planVersion == 1 && m'.replanCount == 0 && m'.required == 1
      && |m'.milestones| == 1 && m'.milestones[0].plan == 1 && m'.milestones[0].status.MCompleted?
      && CriteriaMet(m') && m'.decisions == m.decisions && |m'.requests| == 1 && m'.requests[0].id == 0
  {
    hide FirstIndex, UpdateProgress, ArtifactCounts, Identities;
    var ev := GoodEvidence(spec.artifactType);
    assert IndexOfRequest(m.requests, 0) == 0 && IndexOfClaim(m.claims, Some(0)) == 0;
    assert IndexOfDelegation(m.active, 0) == 0 && IndexOfMilestone(m.milestones, 1) == 0;
    assert CompletionGate(m, 0, ev).Admitted?;
    var d := m.active[0].(status := DelCompleted);
    AdmittedCountsExactly(m.missionId, m.mode, d, 0, ev);
    var m' := Complete(m, 0, ev, 1);
    AcceptedFirst(m, ev);
    CountsOne(m', LineageOf(m.missionId, d, 0, ev));
  }

  lemma AcceptedFirst(m: Mission, ev: Evidence)
    requires |m.active| == 1 && CompletionGate(m, 0, ev).Admitted? && m.lineage == []
    requires IndexOfRequest(m.requests, m.active[0].requestId) == 0 && IndexOfClaim(m.claims, m.active[0].workerClaimId) == 0
    requires IndexOfMilestone(m.milestones, m.active[0].milestoneId) == 0 < |m.milestones|
    ensures var m' := Accept(m, 0, ev);
      && m'.lineage == [LineageOf(m.missionId, m.active[0].(status := DelCompleted), m.claims[0].id, ev)]
      && m' == m.(requests := m.requests[0 := m.requests[0].(status := RCompleted)], claims := m'.claims, lineage := m'.lineage,
                  history := m'.history, active := m'.active,
                  milestones := m.milestones[0 := m.milestones[0].(status := MCompleted, artifactId := Some(ev.artifactId))],
                  execution := EReady, progression := PReady, dispatch := DNone, autoContinue := Running, retryCount := 0,
                  progress := m'.progress)
  {
    hide FirstIndex, CompletedMilestones, RoundHalfEven, RemoveDelegation, AdmissionGate;
  }

  lemma CountsOne(m: Mission, a: Artifact)
    requires m.criterion.VerifiedArtifacts? && m.lineage == [a] && ArtifactCounts(m.mode, m.criterion.artifactType, m.missionId, a)
    ensures VerifiedCount(m) == 1
  {
    CountedSnoc(m.mode, m.criterion.artifactType, m.missionId, [], a);
    assert [] + [a] == [a];
    assert CountedArtifacts(m.mode, m.criterion.artifactType, m.missionId, []) == {};
  }

  lemma Finished(m: Mission)
    requires m.status.Active? && m.planVersion == 1 && m.replanCount == 0 && m.required == 1 && CriteriaMet(m)
    requires |m.milestones| == 1 && m.milestones[0].plan == 1 && m.milestones[0].status.MCompleted?
    ensures Bootstrap(m, NEXT_IDS).status.Completed?
  {
    hide FirstIndex, CriteriaMet, CompletedMilestones, RoundHalfEven;
    assert FirstMilestoneOfPlan(m.milestones, 1) == 0 && FirstOpenMilestone(m.milestones, 1) == 1;
  }

  /** A run that completes a single-artifact mission: decide, approve if needed, dispatch, work, deliver. */
  lemma CompletingRun(id: Id, spec: Spec) returns (es: seq<Event>)
    requires SpecOk(spec) && spec.ArtifactSpec? && spec.required == 1
    ensures LegalRun(Create(id, spec), es) && Run(Create(id, spec), es).status.Completed?
  {
    hide Create, Bootstrap, Approve, ClaimReadyRequest, CreateDelegation, ClaimDelegation, Complete, CriteriaMet;
    var m0 := Create(id, spec);
    var start := [EvBootstrap(FIRST_IDS)];
    var m1 := Bootstrap(m0, FIRST_IDS);
    Started(id, spec);
    assert Legal(m0, EvBootstrap(FIRST_IDS)) by { FreshAtStart(id, spec); }
    assert start[1..] == [];
    assert LegalRun(m0, start) && Run(m0, start) == m1;
    var ready := start;
    if m1.requests == [] {
      var approve := [EvApprove(MatId(0), 0)];
      Approved(m1, spec);
      assert approve[1..] == [];
      assert LegalRun(m1, approve) && Run(m1, approve) == Approve(m1, MatId(0), 0);
      RunConcat(m0, start, approve);
      ready := start + approve;
    }
    var m2 := Run(m0, ready);
    var rest := FinishingRun(m2, spec);
    RunConcat(m0, ready, rest);
    es := ready + rest;
  }

  lemma FreshAtStart(id: Id, spec: Spec)
    ensures Create(id, spec).decisions == [] && Create(id, spec).requests == []
  {
  }

  lemma FinishingRun(m: Mission, spec: Spec) returns (es: seq<Event>)
    requires SpecOk(spec) && spec.ArtifactSpec? && Requesting(m, spec, RReady) && m.active == [] && m.claims == []
    ensures LegalRun(m, es) && Run(m, es).status.Completed?
  {
    hide Bootstrap, ClaimReadyRequest, CreateDelegation, ClaimDelegation, Complete, CriteriaMet;
    Worked(m, spec);
    var m1 := ClaimReadyRequest(m);
    var m2 := CreateDelegation(m1, 0, 0);
    var m3 := ClaimDelegation(m2, 0, 0);
    Delivered(m3, spec);
    var m4 := Complete(m3, 0, GoodEvidence(spec.artifactType), 1);
    Finished(m4);
    var tail: seq<Event> := [];
    tail := Prepend(m4, EvBootstrap(NEXT_IDS), tail);
    tail := Prepend(m3, EvComplete(0, GoodEvidence(spec.artifactType), 1), tail);
    tail := Prepend(m2, EvClaimDelegation(0, 0), tail);
    tail := Prepend(m1, EvCreateDelegation(0, 0), tail);
    es := Prepend(m, EvClaimRequest, tail);
  }

  lemma Prepend(m: Mission, e: Event, es: seq<Event>) returns (fs: seq<Event>)
    requires Legal(m, e) && LegalRun(Apply(m, e), es)
    ensures LegalRun(m, fs) && Run(m, fs) == Run(Apply(m, e), es)
  {
    fs := [e] + es;
    assert fs[1..] == es;
  }

  /** An artifact mission can reach completion exactly when one artifact is required; with more, no run completes it. */
  lemma ArtifactMissionCompletableExactly(id: Id, spec: Spec)
    requires SpecOk(spec) && spec.ArtifactSpec?
    ensures (exists es :: LegalRun(Create(id, spec), es) && Run(Create(id, spec), es).status.Completed?) <==> spec.required == 1
  {
    hide *;
    if spec.required == 1 {
      var es := CompletingRun(id, spec);
    }
    forall es | LegalRun(Create(id, spec), es) && Run(Create(id, spec), es).status.Completed? ensures spec.required == 1 {
      ArtifactMissionYieldsAtMostOne(id, spec, es);
    }
  }
}
