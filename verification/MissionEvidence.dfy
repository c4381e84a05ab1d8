/** Verified evidence over runs: it is never lost, and a completion is backed by it for good. */
module MissionEvidence {
  import opened Search
  import opened MissionModel
  import opened MissionGuard
  import opened MissionValidator
  import opened MissionSteps
  import opened MissionInvariant
  import opened MissionSafety
  import opened MissionSettling
  import opened MissionRuns
  import opened MissionEffects
  import opened MissionBounds

  /** No operation changes the goal or loses verified evidence. */
  lemma EvidenceOnlyGrows(m: Mission, e: Event)
    ensures SameGoal(m, Apply(m, e)) && VerifiedIdentities(m) <= VerifiedIdentities(Apply(m, e))
  {
    hide Bootstrap, Complete, Fail, FirstIndex, CountedArtifacts, CountedOutcomes, RecordOutcome, Approve, Reject, Revoke,
         ClaimReadyRequest, CreateDelegation, ClaimDelegation, MarkRunning, FailDispatch, UpdateStatus;
    match e {
      case EvBootstrap(ids) => BootstrapEffect(m, ids);
      case EvComplete(id, ev, retryId) =>
        CompleteEffect(m, id, ev, retryId);
        var m' := Apply(m, e);
        if m'.lineage != m.lineage {
          assert m'.lineage == m.lineage + [m'.lineage[|m'.lineage| - 1]];
          LineageGrowsIdentities(m, m'.lineage[|m'.lineage| - 1]);
        }
      case EvFail(id, report, retryId) => FailEffect(m, id, report, retryId);
      case EvRecordOutcome(o) => OutcomeGrowsIdentities(m, o); RecordOutcomeGoal(m, o);
      case _ => OtherEventsKeepEvidence(m, e);
    }
  }

  lemma OtherEventsKeepEvidence(m: Mission, e: Event)
    requires !e.EvBootstrap? && !e.EvComplete? && !e.EvFail? && !e.EvRecordOutcome?
    ensures SameGoal(m, Apply(m, e)) && Apply(m, e).lineage == m.lineage && Apply(m, e).outcomes == m.outcomes
  {
    hide FirstIndex, CanApprove, CanReject, CanRevoke, CanDelegate, CanClaim, CanRun, Approve, Reject, Revoke;
    if e.EvApprove? || e.EvReject? || e.EvRevoke? {
      GatesKeepWork(m, e);
    }
  }

  lemma RecordOutcomeGoal(m: Mission, o: Outcome)
    ensures SameGoal(m, RecordOutcome(m, o))
  {
  }

  /** Along a run the verified count never decreases, so met criteria stay met. */
  lemma {:induction false} VerifiedCountNeverDecreases(m: Mission, es: seq<Event>)
    ensures SameGoal(m, Run(m, es)) && VerifiedCount(m) <= VerifiedCount(Run(m, es))
    ensures CriteriaMet(m) ==> CriteriaMet(Run(m, es))
    decreases |es|
  {
    hide Apply, VerifiedIdentities;
    if es != [] {
      EvidenceOnlyGrows(m, es[0]);
      CriteriaStayMet(m, Apply(m, es[0]));
      VerifiedCountNeverDecreases(Apply(m, es[0]), es[1..]);
    }
  }

  /** A mission is completed only with enough distinct verified identities, and then has them for good. */
  lemma CompletionIsSoundAndStable(id: Id, spec: Spec, es: seq<Event>, fs: seq<Event>)
    requires SpecOk(spec) && LegalRun(Create(id, spec), es + fs)
    requires Run(Create(id, spec), es).status.Completed?
    ensures VerifiedCount(Run(Create(id, spec), es)) >= spec.required
    ensures VerifiedCount(Run(Create(id, spec), es + fs)) >= spec.required
    ensures Run(Create(id, spec), es).objectiveAchieved
  {
    hide Inv, Apply, Legal, VerifiedCount;
    var m := Create(id, spec);
    RunConcat(m, es, fs);
    CreateEstablishes(id, spec);
    RunKeeps(m, es);
    VerifiedCountNeverDecreases(m, es);
    VerifiedCountNeverDecreases(Run(m, es), fs);
    StateSatisfiesValidator(Run(m, es));
  }

  /** An artifact mission records at most one artifact, so it cannot be completed when more than one is required. */
  lemma ArtifactMissionYieldsAtMostOne(id: Id, spec: Spec, es: seq<Event>)
    requires SpecOk(spec) && spec.ArtifactSpec? && LegalRun(Create(id, spec), es)
    ensures |Run(Create(id, spec), es).lineage| <= 1
    ensures Run(Create(id, spec), es).status.Completed? ==> spec.required == 1
  {
    hide Inv, Apply, Legal;
    var m := Create(id, spec);
    CreateEstablishes(id, spec);
    RunKeeps(m, es);
    VerifiedCountNeverDecreases(m, es);
    var m' := Run(m, es);
    InvariantBoundsWork(m');
    CountedAtMostLineage(m'.mode, spec.artifactType, m'.missionId, m'.lineage);
    StateSatisfiesValidator(m');
  }

  /** Gate and guard agree on everything a run records: an artifact of known source in an artifact mission counts. */
  lemma RecordedArtifactsCount(id: Id, spec: Spec, es: seq<Event>, a: Artifact)
    requires SpecOk(spec) && spec.ArtifactSpec? && LegalRun(Create(id, spec), es)
    requires a in Run(Create(id, spec), es).lineage && !a.source.Unknown?
    ensures a.id in VerifiedIdentities(Run(Create(id, spec), es))
  {
    hide Inv, Apply, Legal;
    var m := Create(id, spec);
    CreateEstablishes(id, spec);
    RunKeeps(m, es);
    VerifiedCountNeverDecreases(m, es);
    TypedArtifactsCount(Run(m, es), a);
  }

  lemma TypedArtifactsCount(m: Mission, a: Artifact)
    requires Inv(m) && m.criterion.VerifiedArtifacts? && a in m.lineage && !a.source.Unknown?
    ensures ArtifactCounts(m.mode, m.criterion.artifactType, m.missionId, a)
  {
    hide Chain, Plans, Requests, Delegations, Claims, Lineage, States, ArtifactCounts;
  }
}
