/** The approval gates: nobody is contacted without approval, and a refusal is final. */
module MissionGates {
  import opened Search
  import opened MissionModel
  import opened MissionGuard
  import opened MissionValidator
  import opened MissionSteps
  import opened MissionInvariant
  import opened MissionSafety
  import opened MissionSettling
  import opened MissionRuns
  import opened MissionEffects

  /** A delegation that reaches out has an approved materialization. */
  lemma OutreachIsApproved(m: Mission, d: Delegation)
    requires Inv(m) && d in AllDelegations(m) && d.target.Communication?
    ensures IsApproved(m.mats, d.matId)
  {
    hide Plans, Numbered, Released, OnlyNewestActive, Claims, Lineage, Typed, States, Chain;
    ChainSizes(m.milestones, m.decisions, m.mats);
    var r: Request;
    if d in m.active {
      NewestDelegation(m);
      r := m.requests[|m.requests| - 1];
    } else {
      var i :| 0 <= i < |m.history| && m.history[i] == d;
      assert ClosedWork(m.history[i], m.requests);
      var j :| 0 <= j < |m.requests| && SameWork(d, m.requests[j]) && !ActiveRequest(m.requests[j].status);
      r := m.requests[j];
    }
    assert HasBacking(r, m.decisions, m.mats);
    var k :| 0 <= k < |m.mats| && Backs(m.decisions, m.mats, k, r);
  }

  /** An approval on record was given by an approval event of the run. */
  lemma {:induction false} ApprovalWasGiven(m: Mission, es: seq<Event>, x: MatId)
    requires IsApproved(Run(m, es).mats, x) && !IsApproved(m.mats, x)
    ensures exists i | 0 <= i < |es| :: es[i].EvApprove? && es[i].matId == x && CanApprove(Run(m, es[..i]), x)
    decreases |es|
  {
    hide Apply, IsApproved, CanApprove;
    if es != [] {
      MatsEffect(m, es[0], x);
      if IsApproved(Apply(m, es[0]).mats, x) {
        assert es[..0] == [];
        assert es[0].EvApprove? && es[0].matId == x && CanApprove(Run(m, es[..0]), x);
      } else {
        ApprovalWasGiven(Apply(m, es[0]), es[1..], x);
        var i :| 0 <= i < |es[1..]| && es[1..][i].EvApprove? && es[1..][i].matId == x
                 && CanApprove(Run(Apply(m, es[0]), es[1..][..i]), x);
        assert es[..i + 1][0] == es[0] && es[..i + 1][1..] == es[1..][..i];
        assert es[i + 1].EvApprove? && es[i + 1].matId == x && CanApprove(Run(m, es[..i + 1]), x);
      }
    }
  }

  /** No outreach without approval: every delegation to the communication agent, active or past, was preceded by an
      approval of its materialization that took effect. */
  lemma OutreachWasApproved(id: Id, spec: Spec, es: seq<Event>, d: Delegation)
    requires SpecOk(spec) && LegalRun(Create(id, spec), es)
    requires d in AllDelegations(Run(Create(id, spec), es)) && d.target.Communication?
    ensures exists i | 0 <= i < |es| :: es[i].EvApprove? && es[i].matId == d.matId && CanApprove(Run(Create(id, spec), es[..i]), d.matId)
  {
    hide Inv, Apply, Legal, CanApprove;
    CreateEstablishes(id, spec);
    RunKeeps(Create(id, spec), es);
    OutreachIsApproved(Run(Create(id, spec), es), d);
    ApprovalWasGiven(Create(id, spec), es, d.matId);
  }

  lemma ClaimsAreDelegated(m: Mission, c: Claim)
    requires Inv(m) && c in m.claims
    ensures exists d :: d in AllDelegations(m) && d.id == c.delegationId
  {
    hide Chain, Plans, Requests, Delegations, Lineage, Typed, States;
    var i :| 0 <= i < |m.claims| && m.claims[i] == c;
    var ds := if HasDelegation(m.active, c.delegationId) then m.active else m.history;
    var j :| 0 <= j < |ds| && ds[j].id == c.delegationId;
    assert ds[j] in AllDelegations(m);
  }

  /** So was every claim of work by the communication agent: it belongs to a delegation on record, and if that reaches
      out, an approval of its materialization had taken effect. */
  lemma ClaimedOutreachWasApproved(id: Id, spec: Spec, es: seq<Event>, c: Claim)
    requires SpecOk(spec) && LegalRun(Create(id, spec), es) && c in Run(Create(id, spec), es).claims
    ensures exists d :: d in AllDelegations(Run(Create(id, spec), es)) && d.id == c.delegationId
    ensures forall d | d in AllDelegations(Run(Create(id, spec), es)) && d.id == c.delegationId && d.target.Communication? ::
              exists i | 0 <= i < |es| :: es[i].EvApprove? && es[i].matId == d.matId && CanApprove(Run(Create(id, spec), es[..i]), d.matId)
  {
    hide *;
    CreateEstablishes(id, spec);
    RunKeeps(Create(id, spec), es);
    var m := Run(Create(id, spec), es);
    ClaimsAreDelegated(m, c);
    forall d | d in AllDelegations(m) && d.id == c.delegationId && d.target.Communication?
      ensures exists i | 0 <= i < |es| :: es[i].EvApprove? && es[i].matId == d.matId && CanApprove(Run(Create(id, spec), es[..i]), d.matId)
    {
      OutreachWasApproved(id, spec, es, d);
    }
  }

  // ---- refusal is final ----------------------------------------------------------------------------------

  predicate NoDelegationFor(m: Mission, x: MatId) {
    (forall d | d in m.active :: d.matId != x) && (forall d | d in m.history :: d.matId != x)
  }

  /** A refused materialization gets no delegation: only a request it backs could be delegated. */
  lemma RefusedIsNotDelegated(m: Mission, e: Event, x: MatId)
    requires Inv(m) && Legal(m, e) && IsRefused(m.mats, x) && NoDelegationFor(m, x)
    ensures NoDelegationFor(Apply(m, e), x)
  {
    hide Inv, Legal, Bootstrap, Complete, Fail, FirstIndex, IsRefused, Approve, Reject, Revoke, ClaimReadyRequest,
         FailDispatch, RecordOutcome, UpdateStatus;
    match e {
      case EvBootstrap(ids) => BootstrapEffect(m, ids);
      case EvComplete(id, ev, retryId) => CompleteEffect(m, id, ev, retryId);
      case EvFail(id, report, retryId) => FailEffect(m, id, report, retryId);
      case EvCreateDelegation(requestId, delegationId) =>
        if CanDelegate(m, requestId) {
          ClaimedIsNotRefused(m, IndexOfRequest(m.requests, requestId), x);
        }
      case EvClaimDelegation(_, _) => WorkKeepsMatIds(m, e);
      case EvMarkRunning(_) => WorkKeepsMatIds(m, e);
      case _ => OtherEventsKeepDelegations(m, e);
    }
  }

  lemma WorkKeepsMatIds(m: Mission, e: Event)
    requires e.EvClaimDelegation? || e.EvMarkRunning?
    ensures Apply(m, e).history == m.history
    ensures forall d | d in Apply(m, e).active :: exists q :: q in m.active && d.matId == q.matId
  {
    hide FirstIndex, IndexOfClaim, ActiveClaimOf;
    var m' := Apply(m, e);
    forall d | d in m'.active ensures exists q :: q in m.active && d.matId == q.matId {
      var k :| 0 <= k < |m'.active| && m'.active[k] == d;
      assert m.active[k] in m.active && d.matId == m.active[k].matId;
    }
  }

  lemma OtherEventsKeepDelegations(m: Mission, e: Event)
    requires !e.EvBootstrap? && !e.EvComplete? && !e.EvFail? && !e.EvCreateDelegation? && !e.EvClaimDelegation? && !e.EvMarkRunning?
    ensures Apply(m, e).active == m.active && Apply(m, e).history == m.history
  {
    hide FirstIndex, CanApprove, CanReject, CanRevoke, Approve, Reject, Revoke;
    if e.EvApprove? || e.EvReject? || e.EvRevoke? {
      GatesKeepWork(m, e);
    }
  }

  lemma ClaimedIsNotRefused(m: Mission, r: nat, x: MatId)
    requires Inv(m) && r < |m.requests| && ActiveRequest(m.requests[r].status) && IsRefused(m.mats, x)
    ensures m.requests[r].matId != x
  {
    hide Plans, Numbered, Released, OnlyNewestActive, Delegations, Claims, Lineage, Typed, States;
    assert HasBacking(m.requests[r], m.decisions, m.mats);
    var k :| 0 <= k < |m.mats| && Backs(m.decisions, m.mats, k, m.requests[r]);
  }

  lemma {:induction false} RefusedStaysUndelegated(m: Mission, es: seq<Event>, x: MatId)
    requires Inv(m) && LegalRun(m, es) && IsRefused(m.mats, x) && NoDelegationFor(m, x)
    ensures NoDelegationFor(Run(m, es), x)
    decreases |es|
  {
    hide Inv, Apply, Legal, IsRefused, NoDelegationFor;
    if es != [] {
      ApplyKeeps(m, es[0]);
      MatsEffect(m, es[0], x);
      RefusedIsNotDelegated(m, es[0], x);
      RefusedStaysUndelegated(Apply(m, es[0]), es[1..], x);
    }
  }

  lemma RefusalFindsNoDelegation(m: Mission, x: MatId)
    requires Inv(m) && (CanReject(m, x) || CanRevoke(m, x))
    ensures NoDelegationFor(m, x)
    ensures CanReject(m, x) ==> IsRefused(Reject(m, x).mats, x)
    ensures CanRevoke(m, x) ==> IsRefused(Revoke(m, x).mats, x)
    ensures NoDelegationFor(Reject(m, x), x) && NoDelegationFor(Revoke(m, x), x)
  {
    hide Plans, Numbered, Backed, Released, Claims, Lineage, Typed, States, FirstIndex, Chain, OnlyNewestActive;
    var k := IndexOfMat(m.mats, x);
    if CanReject(m, x) {
      AwaitingApproval(m, k);
      assert Reject(m, x).mats[k].id == x;
    } else {
      RevocableIsNewest(m, x);
      assert Revoke(m, x).mats[k].id == x;
    }
    forall d | d in m.history ensures d.matId != x {
      var i :| 0 <= i < |m.history| && m.history[i] == d;
      assert ClosedWork(m.history[i], m.requests);
      var j :| 0 <= j < |m.requests| && SameWork(d, m.requests[j]) && !ActiveRequest(m.requests[j].status);
    }
  }

  /** Once a rejection or a revocation has taken effect, no delegation for that materialization ever exists again,
      whatever follows, a resumption included. */
  lemma RefusalIsFinal(id: Id, spec: Spec, es: seq<Event>, x: MatId, e: Event, fs: seq<Event>)
    requires SpecOk(spec) && LegalRun(Create(id, spec), es + [e] + fs)
    requires (e == EvReject(x) && CanReject(Run(Create(id, spec), es), x)) || (e == EvRevoke(x) && CanRevoke(Run(Create(id, spec), es), x))
    ensures NoDelegationFor(Run(Create(id, spec), es + [e] + fs), x)
  {
    hide Inv, Legal, CanReject, CanRevoke, Reject, Revoke, NoDelegationFor, IsRefused, Create;
    var m := Create(id, spec);
    CreateEstablishes(id, spec);
    RunConcat(m, es + [e], fs);
    RunConcat(m, es, [e]);
    RunKeeps(m, es);
    var before := Run(m, es);
    assert Run(before, [e]) == Run(Apply(before, e), [e][1..]) == Apply(before, e);
    RefusalFindsNoDelegation(before, x);
    RunKeeps(m, es + [e]);
    RefusedStaysUndelegated(Apply(before, e), fs, x);
  }
}
