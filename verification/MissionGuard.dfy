/** The admission gate for specialist evidence and the completion guard, and how far the two agree. */
module MissionGuard {
  import opened Search
  import opened MissionModel

  predicate QualifiesForProduction(s: EvidenceSource) {
    s.LiveExternal? || s.UserProvided? || s.DatabaseExisting?
  }

  // ---- the completion guard ------------------------------------------------------------------------------

  /** Whether the guard counts an artifact of the lineage towards success. */
  predicate ArtifactCounts(mode: VerificationMode, expected: ArtifactType, missionId: Id, a: Artifact) {
    && a.artifactType == expected && a.verified && a.missionId == missionId && a.provenanceComplete
    && !a.source.Unknown?
    && (mode.ProductionSuccess? ==>
          if expected.LeadArtifact? then
            a.source.LiveExternal? && !a.simulation && a.hasProvider && a.requestSucceeded && a.entityQualified
          else QualifiesForProduction(a.source))
    && (mode.LiveEvidenceCanary? || mode.QualifiedLeadCanary? ==>
          && a.source.LiveExternal? && !a.simulation && a.hasProvider && a.requestSucceeded
          && (mode.QualifiedLeadCanary? ==> a.entityQualified))
  }

  predicate OutcomeCounts(o: Outcome) {
    o.dealWon && o.verified && QualifiesForProduction(o.source)
  }

  function CountedArtifacts(mode: VerificationMode, expected: ArtifactType, missionId: Id, arts: seq<Artifact>): set<Id> {
    set a | a in arts && ArtifactCounts(mode, expected, missionId, a) :: a.id
  }

  function CountedOutcomes(os: seq<Outcome>): set<Id> {
    set o | o in os && OutcomeCounts(o) :: o.identity
  }

  function Identities(criterion: Criterion, mode: VerificationMode, missionId: Id, arts: seq<Artifact>, os: seq<Outcome>): set<Id> {
    match criterion
    case VerifiedArtifacts(expected) => CountedArtifacts(mode, expected, missionId, arts)
    case VerifiedWonClients => CountedOutcomes(os)
  }

  /** The distinct identities that count towards success. */
  function VerifiedIdentities(m: Mission): set<Id> {
    Identities(m.criterion, m.mode, m.missionId, m.lineage, m.outcomes)
  }

  function VerifiedCount(m: Mission): nat { |VerifiedIdentities(m)| }

  function RequiredCount(m: Mission): int { if m.required < 1 then 1 else m.required }

  predicate CriteriaMet(m: Mission) { VerifiedCount(m) >= RequiredCount(m) }

  /** The guard's own loops collect the identities in order, each once. */
  method VerifiedSuccessIds(m: Mission) returns (identities: seq<Id>)
    ensures Elements(identities) == VerifiedIdentities(m)
    ensures |identities| == VerifiedCount(m)
    ensures forall i, j | 0 <= i < j < |identities| :: identities[i] != identities[j]
  {
    identities := [];
    match m.criterion {
      case VerifiedArtifacts(expected) =>
        for n := 0 to |m.lineage|
          invariant Elements(identities) == CountedArtifacts(m.mode, expected, m.missionId, m.lineage[..n])
          invariant forall i, j | 0 <= i < j < |identities| :: identities[i] != identities[j]
        {
          var a := m.lineage[n];
          assert m.lineage[..n + 1] == m.lineage[..n] + [a];
          CountedSnoc(m.mode, expected, m.missionId, m.lineage[..n], a);
          ElementsSnoc(identities, a.id);
          if ArtifactCounts(m.mode, expected, m.missionId, a) && a.id !in identities {
            identities := identities + [a.id];
          }
        }
        assert m.lineage[..|m.lineage|] == m.lineage;
      case VerifiedWonClients =>
        for n := 0 to |m.outcomes|
          invariant Elements(identities) == CountedOutcomes(m.outcomes[..n])
          invariant forall i, j | 0 <= i < j < |identities| :: identities[i] != identities[j]
        {
          var o := m.outcomes[n];
          assert m.outcomes[..n + 1] == m.outcomes[..n] + [o];
          OutcomesSnoc(m.outcomes[..n], o);
          ElementsSnoc(identities, o.identity);
          if OutcomeCounts(o) && o.identity !in identities {
            identities := identities + [o.identity];
          }
        }
        assert m.outcomes[..|m.outcomes|] == m.outcomes;
    }
    DistinctCardinality(identities);
  }

  function Elements(s: seq<Id>): set<Id> { set x | x in s }

  lemma ElementsSnoc(s: seq<Id>, x: Id)
    ensures Elements(s + [x]) == Elements(s) + {x}
  {
  }

  lemma CountedSnoc(mode: VerificationMode, expected: ArtifactType, missionId: Id, arts: seq<Artifact>, a: Artifact)
    ensures CountedArtifacts(mode, expected, missionId, arts + [a])
            == CountedArtifacts(mode, expected, missionId, arts)
               + (if ArtifactCounts(mode, expected, missionId, a) then {a.id} else {})
  {
    forall x | x in CountedArtifacts(mode, expected, missionId, arts)
      ensures x in CountedArtifacts(mode, expected, missionId, arts + [a])
    {
      var b :| b in arts && ArtifactCounts(mode, expected, missionId, b) && b.id == x;
      assert b in arts + [a];
    }
    assert a in arts + [a];
  }

  lemma OutcomesSnoc(os: seq<Outcome>, o: Outcome)
    ensures CountedOutcomes(os + [o]) == CountedOutcomes(os) + (if OutcomeCounts(o) then {o.identity} else {})
  {
    forall x | x in CountedOutcomes(os) ensures x in CountedOutcomes(os + [o]) {
      var b :| b in os && OutcomeCounts(b) && b.identity == x;
      assert b in os + [o];
    }
    assert o in os + [o];
  }

  lemma {:induction false} DistinctCardinality(s: seq<Id>)
    requires forall i, j | 0 <= i < j < |s| :: s[i] != s[j]
    ensures |Elements(s)| == |s|
  {
    if s == [] {
      assert Elements(s) == {};
    } else {
      var rest, last := s[..|s| - 1], s[|s| - 1];
      DistinctCardinality(rest);
      assert s == rest + [last];
      ElementsSnoc(rest, last);
      assert last !in Elements(rest);
    }
  }

  lemma {:induction false} SubsetCardinality(a: set<Id>, b: set<Id>)
    requires a <= b
    ensures |a| <= |b|
  {
    if a != {} {
      var x :| x in a;
      SubsetCardinality(a - {x}, b - {x});
    }
  }

  /** The guard never counts more artifacts than the lineage holds. */
  lemma {:induction false} CountedAtMostLineage(mode: VerificationMode, expected: ArtifactType, missionId: Id, arts: seq<Artifact>)
    ensures |CountedArtifacts(mode, expected, missionId, arts)| <= |arts|
  {
    if arts == [] {
      assert CountedArtifacts(mode, expected, missionId, arts) == {};
    } else {
      var rest, last := arts[..|arts| - 1], arts[|arts| - 1];
      CountedAtMostLineage(mode, expected, missionId, rest);
      assert arts == rest + [last];
      CountedSnoc(mode, expected, missionId, rest, last);
    }
  }

  // ---- the admission gate --------------------------------------------------------------------------------

  datatype Gate = Admitted | Refused(error: ErrorText)

  const LIVE_EVIDENCE_UNAVAILABLE := ErrorText(false, false, true, false)
  const PRODUCTION_EVIDENCE_UNAVAILABLE := ErrorText(false, false, false, false)
  const BUSINESS_ENTITY_UNVERIFIED := ErrorText(false, true, false, false)
  const EXECUTION_LINEAGE_VALIDATION_FAILED := ErrorText(false, false, false, false)

  predicate LiveProof(ev: Evidence) {
    ev.source.LiveExternal? && !ev.simulation && ev.hasProvider && ev.requestSucceeded
  }

  /** The checks a delegation's evidence passes through before it may enter the lineage. */
  function AdmissionGate(mode: VerificationMode, expected: ArtifactType, ev: Evidence): Gate {
    if !(ev.hasArtifactId && ev.artifactType == expected && ev.verified) then
      Refused(ev.rendered)
    else if (mode.LiveEvidenceCanary? || mode.QualifiedLeadCanary?) && !LiveProof(ev) then
      Refused(LIVE_EVIDENCE_UNAVAILABLE)
    else if expected.LeadArtifact? && mode.ProductionSuccess? && !LiveProof(ev) then
      Refused(PRODUCTION_EVIDENCE_UNAVAILABLE)
    else if expected.LeadArtifact? && (mode.ProductionSuccess? || mode.QualifiedLeadCanary?) && !ev.entityQualified then
      Refused(BUSINESS_ENTITY_UNVERIFIED)
    else if mode.ProductionSuccess? && !expected.LeadArtifact? && !QualifiesForProduction(ev.source) then
      Refused(PRODUCTION_EVIDENCE_UNAVAILABLE)
    else Admitted
  }

  /** The lineage record written for admitted evidence. */
  function LineageOf(missionId: Id, d: Delegation, claimId: Id, ev: Evidence): Artifact {
    Artifact(ev.artifactId, ev.artifactType, true, missionId, true, d.plan, d.milestoneId, d.decisionId, d.matId,
             d.requestId, d.id, claimId, d.target, ev.source, ev.simulation, ev.hasProvider, ev.requestSucceeded,
             ev.entityQualified)
  }

  /** What the gate admits, the guard counts: except evidence of unknown source, and except unqualified entities
      in the qualified-lead mode when the artifact is not a lead. Both exceptions are exact. */
  lemma AdmittedCountsExactly(missionId: Id, mode: VerificationMode, d: Delegation, claimId: Id, ev: Evidence)
    requires AdmissionGate(mode, d.expected, ev) == Admitted
    ensures ArtifactCounts(mode, d.expected, missionId, LineageOf(missionId, d, claimId, ev))
            <==> !ev.source.Unknown? && !(mode.QualifiedLeadCanary? && !d.expected.LeadArtifact? && !ev.entityQualified)
  {
    assert AdmissionGate(mode, d.expected, ev).Admitted?;
  }

  /** Verified evidence with a complete proof, of any source and any verdict on its entity. */
  function Unexceptional(t: ArtifactType, source: EvidenceSource, entityQualified: bool): Evidence {
    Evidence(true, 0, t, true, source, false, true, true, entityQualified, false, ErrorText(false, false, false, false))
  }

  /** Both exceptions occur: for any artifact type in the structural mode, and for any that is not a lead in the
      qualified-lead mode, the gate admits evidence that the guard then never counts. */
  lemma AdmittedMayNotCount(missionId: Id, d: Delegation, claimId: Id)
    ensures var ev := Unexceptional(d.expected, Unknown, true);
      && AdmissionGate(StructuralCanary, d.expected, ev) == Admitted
      && !ArtifactCounts(StructuralCanary, d.expected, missionId, LineageOf(missionId, d, claimId, ev))
    ensures var ev := Unexceptional(d.expected, LiveExternal, false);
      !d.expected.LeadArtifact? ==>
        && AdmissionGate(QualifiedLeadCanary, d.expected, ev) == Admitted
        && !ArtifactCounts(QualifiedLeadCanary, d.expected, missionId, LineageOf(missionId, d, claimId, ev))
  {
    AdmittedCountsExactly(missionId, StructuralCanary, d, claimId, Unexceptional(d.expected, Unknown, true));
    if !d.expected.LeadArtifact? {
      AdmittedCountsExactly(missionId, QualifiedLeadCanary, d, claimId, Unexceptional(d.expected, LiveExternal, false));
    }
  }

  /** And what the gate refuses would not have counted either, had it been recorded for this delegation. */
  lemma RefusedNeverCounts(missionId: Id, mode: VerificationMode, d: Delegation, claimId: Id, ev: Evidence)
    requires AdmissionGate(mode, d.expected, ev).Refused?
    requires ev.hasArtifactId && ev.verified
    ensures !ArtifactCounts(mode, d.expected, missionId, LineageOf(missionId, d, claimId, ev))
  {
    assert AdmissionGate(mode, d.expected, ev) != Admitted;
  }
}
