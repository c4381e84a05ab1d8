/** Operations outside the safe set, and exactly when they leave the record sound. */
module MissionUnsafe {
  import opened Search
  import opened MissionModel
  import opened MissionGuard
  import opened MissionValidator
  import opened MissionSteps
  import opened MissionInvariant
  import opened MissionSafety
  import opened MissionSettling
  import opened MissionRuns
  import opened MissionAcquisition

  /** A terminal status set from outside leaves the record sound exactly when no work is left, and for a completion
      exactly when the objective was reached as well. */
  lemma TerminalUpdateSafeExactly(m: Mission, status: MissionStatus)
    requires Inv(m) && TerminalStatus(status)
    ensures Sound(UpdateStatus(m, status)) <==>
            !HasActiveRequest(m) && (status.Completed? ==> CriteriaMet(m) && m.objectiveAchieved)
  {
    hide Chain, Plans, Requests, Delegations, Claims, Lineage, Typed, States, Identities;
    var m' := UpdateStatus(m, status);
    StateSatisfiesValidator(m);
    TerminalSoundness(m, m');
  }

  /** Changing only the mission's state fields of a sound record. */
  lemma TerminalSoundness(m: Mission, m': Mission)
    requires Inv(m) && TerminalStatus(m'.status)
    requires m' == m.(status := m'.status, progression := m'.progression, execution := m'.execution, dispatch := m'.dispatch,
                      autoContinue := m'.autoContinue, reason := m'.reason, requests := m'.requests, claims := m'.claims)
    requires m'.requests == m.requests && m'.claims == m.claims
    requires m'.progression.PRunning? ==> m.progression.PRunning?
    ensures Sound(m') <==>
            !HasActiveRequest(m) && (m'.status.Completed? ==> CriteriaMet(m) && m.objectiveAchieved)
  {
    hide Chain, Plans, Requests, Delegations, Claims, Lineage, Typed, States, Identities;
    StateSatisfiesValidator(m);
    if !HasActiveRequest(m) && (m'.status.Completed? ==> CriteriaMet(m) && m.objectiveAchieved) {
      DelegationsSatisfyValidator(m);
      ClaimsSatisfyValidator(m.claims, m.active, m.history, m.requests);
      RecordsSatisfyValidator(m);
      ArtifactsSatisfyValidator(m);
      SameRecordsSameFindings(m, m');
      ClearMeansSound(m');
    } else if HasActiveRequest(m) {
      assert Violates(m', TerminalActiveRequest);
    } else {
      assert Violates(m', UnverifiedCompletion);
    }
  }

  lemma SameRecordsSameFindings(m: Mission, m': Mission)
    requires m'.decisions == m.decisions && m'.mats == m.mats && m'.requests == m.requests && m'.active == m.active
    requires m'.history == m.history && m'.claims == m.claims && m'.lineage == m.lineage
    ensures OrphanMats(m') == OrphanMats(m) && DuplicateMats(m') == DuplicateMats(m)
    ensures OrphanRequests(m') == OrphanRequests(m) && DuplicateRequests(m') == DuplicateRequests(m)
    ensures AllDelegations(m') == AllDelegations(m)
    ensures OrphanDelegations(m', Survivors(AllDelegations(m'))) == OrphanDelegations(m, Survivors(AllDelegations(m)))
    ensures OrphanClaims(m') == OrphanClaims(m)
    ensures BrokenArtifacts(m') == BrokenArtifacts(m) && UnverifiedArtifacts(m') == UnverifiedArtifacts(m)
  {
    hide HasDecision, HasMat, HasRequest, HasDelegation, HasClaim, Survivors;
    assert forall a :: ChainIntact(m', a) == ChainIntact(m, a);
  }

  /** A failure report about a delegation that is no longer active always escalates. The record it leaves is sound
      exactly when no other work is active. */
  lemma StaleFailureSafeExactly(m: Mission, delegationId: Id, report: FailureReport, retryId: Id)
    requires Inv(m) && !HasDelegation(m.active, delegationId)
    ensures Fail(m, delegationId, report, retryId).status.WaitingDirector?
    ensures Sound(Fail(m, delegationId, report, retryId)) <==> !HasActiveRequest(m)
  {
    hide Chain, Plans, Requests, Delegations, Claims, Lineage, Typed, States, Identities;
    TerminalSoundness(m, Fail(m, delegationId, report, retryId));
  }

  /** The stall detector's escalation keeps claimed or delegated work; it is sound exactly when there is none. */
  lemma StallEscalationSafeExactly(m: Mission)
    requires Inv(m)
    ensures Sound(StallEscalate(m)) <==> !HasActiveRequest(m)
  {
    hide Chain, Plans, Requests, Delegations, Claims, Lineage, Typed, States, Identities;
    TerminalSoundness(m, StallEscalate(m));
  }

  // ---- and that they need not ---------------------------------------------------------------------------------

  ghost predicate TerminalUpdatesBreak(m: Mission) {
    forall status: MissionStatus | TerminalStatus(status) :: !Sound(UpdateStatus(m, status))
  }

  /** Whatever delegation a report names that is not active. */
  ghost predicate StaleFailuresBreak(m: Mission) {
    forall id, report, retryId | !HasDelegation(m.active, id) :: !Sound(Fail(m, id, report, retryId))
  }

  /** From this sound record each of the three operations leads to an unsound one. */
  ghost predicate Exposed(m: Mission) {
    Sound(m) && TerminalUpdatesBreak(m) && StaleFailuresBreak(m) && !Sound(StallEscalate(m)) && m.active == []
  }

  lemma ActiveWorkIsExposed(m: Mission)
    requires Inv(m) && HasActiveRequest(m) && m.active == []
    ensures Exposed(m)
  {
    hide Inv, Sound, HasActiveRequest, HasDelegation, StallEscalate, UpdateStatus, Fail, TerminalStatus, CriteriaMet;
    InvariantSatisfiesValidator(m);
    StallEscalationSafeExactly(m);
    forall status: MissionStatus | TerminalStatus(status) ensures !Sound(UpdateStatus(m, status)) {
      TerminalUpdateSafeExactly(m, status);
    }
    forall id: Id, report, retryId: Id | !HasDelegation(m.active, id) ensures !Sound(Fail(m, id, report, retryId)) {
      StaleFailureSafeExactly(m, id, report, retryId);
    }
  }

  /** A mission gets there in at most two steps: it decides, and is approved if it asked to be. */
  lemma ExposedSoon(id: Id, spec: Spec)
    requires SpecOk(spec) && spec.AcquisitionSpec?
    ensures exists es :: |es| <= 2 && LegalRun(Create(id, spec), es) && Exposed(Run(Create(id, spec), es))
  {
    var m := Create(id, spec);
    assert Between(m, 0);
    hide *;
    var es := ReadyRun(m, 0);
    CreateEstablishes(id, spec);
    RunKeeps(m, es);
    ReadyIsActive(Run(m, es));
    ActiveWorkIsExposed(Run(m, es));
  }

  lemma ReadyIsActive(m: Mission)
    requires Ready(m, 0)
    ensures HasActiveRequest(m) && m.active == []
  {
    assert ActiveRequest(m.requests[0].status);
  }
}
