/** Creation, requests, delegations and the approval gates keep the invariant. */
module MissionSafety {
  import opened Search
  import opened MissionModel
  import opened MissionGuard
  import opened MissionValidator
  import opened MissionSteps
  import opened MissionInvariant

  // ---- what the parts of the invariant say about the newest records --------------------------------------

  ghost predicate Idle(rs: seq<Request>) { rs == [] || !ActiveRequest(rs[|rs| - 1].status) }

  lemma ActiveDelegationIsNewest(active: seq<Delegation>, history: seq<Delegation>, rs: seq<Request>)
    requires Delegations(active, history, rs)
    ensures |active| <= 1
    ensures |active| == 1 <==> rs != [] && (rs[|rs| - 1].status.RDispatched? || rs[|rs| - 1].status.RRunning?)
    ensures |active| == 1 ==> SameWork(active[0], rs[|rs| - 1]) && active[0].milestoneId == rs[|rs| - 1].milestoneId
    ensures |active| == 1 ==> (active[0].status.DelPending? <==> active[0].workerClaimId.None?) && ActiveDelegation(active[0].status)
    ensures |active| == 1 ==> !HasDelegation(history, active[0].id)
    ensures Idle(rs) ==> active == []
  {
  }

  lemma NoDelegationNoActiveClaim(cs: seq<Claim>, active: seq<Delegation>, history: seq<Delegation>)
    requires Claims(cs, active, history)
    requires active == [] || (|active| == 1 && active[0].workerClaimId.None?)
    ensures forall i | 0 <= i < |cs| :: !cs[i].status.ClaimActive?
  {
  }

  // ---- changing one request ------------------------------------------------------------------------------

  /** The fields of a request that no status change touches. */
  predicate SameRequest(q: Request, r: Request) {
    q.id == r.id && q.matId == r.matId && q.decisionId == r.decisionId && q.attempt == r.attempt && q.key == r.key
    && q.target == r.target && q.milestoneId == r.milestoneId && q.expected == r.expected
  }

  lemma UpdateKeepsNumbered(rs: seq<Request>, i: nat, q: Request)
    requires Numbered(rs) && i < |rs| && SameRequest(q, rs[i])
    ensures Numbered(rs[i := q])
  {
  }

  lemma UpdateKeepsBacked(rs: seq<Request>, ds: seq<Decision>, mats: seq<Materialization>, i: nat, q: Request)
    requires |mats| == |ds| && Backed(rs, ds, mats)
    requires i < |rs| && SameRequest(q, rs[i])
    requires ActiveRequest(q.status) ==> ActiveRequest(rs[i].status)
    ensures Backed(rs[i := q], ds, mats)
  {
    var rs' := rs[i := q];
    forall j | 0 <= j < |rs'| ensures HasBacking(rs'[j], ds, mats) {
      assert HasBacking(rs[j], ds, mats);
      var k :| 0 <= k < |mats| && Backs(ds, mats, k, rs[j]);
      assert Backs(ds, mats, k, rs'[j]);
    }
  }

  lemma UpdateKeepsReleased(rs: seq<Request>, mats: seq<Materialization>, i: nat, q: Request)
    requires Released(rs, mats) && i < |rs| && SameRequest(q, rs[i])
    ensures Released(rs[i := q], mats)
  {
    forall k | 0 <= k < |mats| && mats[k].status.ExecutionReady? ensures Requested(rs[i := q], mats[k].id) {
      var j :| 0 <= j < |rs| && rs[j].matId == mats[k].id;
      assert rs[i := q][j].matId == mats[k].id;
    }
  }

  lemma RequestUpdateKeepsRequests(rs: seq<Request>, ms: seq<Milestone>, ds: seq<Decision>, mats: seq<Materialization>, i: nat, q: Request)
    requires |mats| == |ds| <= |ms| && Requests(rs, ms, ds, mats)
    requires i < |rs| && SameRequest(q, rs[i])
    requires ActiveRequest(q.status) ==> ActiveRequest(rs[i].status)
    ensures Requests(rs[i := q], ms, ds, mats)
  {
    hide Numbered, Backed, Released;
    UpdateKeepsNumbered(rs, i, q);
    UpdateKeepsBacked(rs, ds, mats, i, q);
    UpdateKeepsReleased(rs, mats, i, q);
  }

  lemma RequestUpdateKeepsDelegations(active: seq<Delegation>, history: seq<Delegation>, rs: seq<Request>, i: nat, q: Request)
    requires Delegations(active, history, rs)
    requires i < |rs| && SameRequest(q, rs[i])
    requires ActiveRequest(q.status) ==> ActiveRequest(rs[i].status)
    requires if i == |rs| - 1 then active == [] && !q.status.RDispatched? && !q.status.RRunning? else true
    ensures Delegations(active, history, rs[i := q])
  {
    forall h | 0 <= h < |history| ensures ClosedWork(history[h], rs[i := q]) {
      assert ClosedWork(history[h], rs);
      var j :| 0 <= j < |rs| && SameWork(history[h], rs[j]) && !ActiveRequest(rs[j].status);
      assert SameWork(history[h], rs[i := q][j]) && !ActiveRequest(rs[i := q][j].status);
    }
  }

  lemma RequestUpdateKeepsIds(rs: seq<Request>, i: nat, q: Request)
    requires i < |rs| && q.id == rs[i].id
    ensures forall id :: HasRequest(rs, id) ==> HasRequest(rs[i := q], id)
  {
    forall id | HasRequest(rs, id) ensures HasRequest(rs[i := q], id) {
      var k :| 0 <= k < |rs| && rs[k].id == id;
      assert rs[i := q][k].id == id;
    }
  }

  lemma RequestAppendKeepsIds(rs: seq<Request>, q: Request)
    ensures forall id :: HasRequest(rs, id) ==> HasRequest(rs + [q], id)
  {
    forall id | HasRequest(rs, id) ensures HasRequest(rs + [q], id) {
      var k :| 0 <= k < |rs| && rs[k].id == id;
      assert (rs + [q])[k].id == id;
    }
  }

  /** Recorded artifacts stay recorded when no collection loses an id. */
  lemma LineageKeeps(arts: seq<Artifact>, ms: seq<Milestone>, ds: seq<Decision>, mats: seq<Materialization>, rs: seq<Request>,
                     active: seq<Delegation>, history: seq<Delegation>, cs: seq<Claim>,
                     ms': seq<Milestone>, ds': seq<Decision>, mats': seq<Materialization>, rs': seq<Request>,
                     active': seq<Delegation>, history': seq<Delegation>, cs': seq<Claim>)
    requires Lineage(arts, ms, ds, mats, rs, active, history, cs)
    requires CompletedMilestones(ms) <= CompletedMilestones(ms')
    requires forall id :: HasDecision(ds, id) ==> HasDecision(ds', id)
    requires forall id :: HasMat(mats, id) ==> HasMat(mats', id)
    requires forall id :: HasRequest(rs, id) ==> HasRequest(rs', id)
    requires forall id :: HasDelegation(active, id) || HasDelegation(history, id) ==> HasDelegation(active', id) || HasDelegation(history', id)
    requires forall id :: HasClaim(cs, id) ==> HasClaim(cs', id)
    ensures Lineage(arts, ms', ds', mats', rs', active', history', cs')
  {
    hide HasDecision, HasMat, HasRequest, HasDelegation, HasClaim, CompletedMilestones;
  }

  lemma LineageKeepsOverRequest(m: Mission, rs': seq<Request>)
    requires Lineage(m.lineage, m.milestones, m.decisions, m.mats, m.requests, m.active, m.history, m.claims)
    requires forall id :: HasRequest(m.requests, id) ==> HasRequest(rs', id)
    ensures Lineage(m.lineage, m.milestones, m.decisions, m.mats, rs', m.active, m.history, m.claims)
  {
    hide *;
    LineageKeeps(m.lineage, m.milestones, m.decisions, m.mats, m.requests, m.active, m.history, m.claims,
                 m.milestones, m.decisions, m.mats, rs', m.active, m.history, m.claims);
  }

  lemma TypedOverRequest(m: Mission, i: nat, q: Request)
    requires Typed(m.criterion, m.mode, m.missionId, m.milestones, m.decisions, m.requests, m.active, m.lineage)
    requires i < |m.requests| && q.expected == m.requests[i].expected
    ensures Typed(m.criterion, m.mode, m.missionId, m.milestones, m.decisions, m.requests[i := q], m.active, m.lineage)
  {
  }

  lemma CreateEstablishes(id: Id, spec: Spec)
    requires SpecOk(spec)
    ensures Inv(Create(id, spec))
  {
    hide Identities, CompletedMilestones, Chain, Plans;
    NewMilestones(spec);
  }

  lemma NewMilestonesChain(spec: Spec)
    requires SpecOk(spec)
    ensures Chain(SpecMilestones(spec), [], [])
  {
  }

  lemma NewMilestones(spec: Spec)
    requires SpecOk(spec)
    ensures Chain(SpecMilestones(spec), [], [])
    ensures var m := Create(0, spec); Plans(m.kind, m.criterion, 1, 0, 0, [], [], SpecMilestones(spec))
  {
    NewMilestonesChain(spec);
    hide Chain;
  }

  lemma UpdateStatusKeeps(m: Mission, status: MissionStatus)
    requires Inv(m) && (status.Paused? || status.Active?)
    ensures Inv(UpdateStatus(m, status))
  {
    hide Chain, Plans, Requests, Delegations, Claims, Lineage, Typed, Identities;
  }

  /** A status change of one request, together with changes to the mission's own state fields. */
  lemma RequestStepKeeps(m: Mission, i: nat, q: Request, m': Mission)
    requires Inv(m) && i < |m.requests| && SameRequest(q, m.requests[i])
    requires ActiveRequest(q.status) ==> ActiveRequest(m.requests[i].status)
    requires i == |m.requests| - 1 ==> m.active == [] && !q.status.RDispatched? && !q.status.RRunning?
    requires m' == m.(requests := m.requests[i := q], status := m'.status, dispatch := m'.dispatch, progression := m'.progression,
                      execution := m'.execution, autoContinue := m'.autoContinue, reason := m'.reason)
    requires States(m')
    ensures Inv(m')
  {
    RequestUpdateKeepsRequests(m.requests, m.milestones, m.decisions, m.mats, i, q) by { hide Plans, Delegations, Claims, Lineage, Typed, States; }
    hide Chain, Plans, Requests, Delegations, Claims, Lineage, Typed, States;
    RequestUpdateKeepsDelegations(m.active, m.history, m.requests, i, q);
    RequestUpdateKeepsIds(m.requests, i, q);
    LineageKeepsOverRequest(m, m.requests[i := q]);
    TypedOverRequest(m, i, q);
  }

  // ---- facts about a mission's newest records ------------------------------------------------------------

  lemma ChainSizes(ms: seq<Milestone>, ds: seq<Decision>, mats: seq<Materialization>)
    requires Chain(ms, ds, mats)
    ensures |mats| == |ds| <= |ms|
  {
  }

  lemma NewestRequest(m: Mission, i: nat)
    requires Inv(m) && i < |m.requests|
    ensures IndexOfRequest(m.requests, m.requests[i].id) == i
    ensures ActiveRequest(m.requests[i].status) ==> i == |m.requests| - 1
  {
    hide Chain, Plans, Backed, Released, Delegations, Claims, Lineage, Typed, States;
  }

  lemma NewestDelegation(m: Mission)
    requires Inv(m)
    ensures |m.active| <= 1
    ensures |m.active| == 1 <==> m.requests != [] && (m.requests[|m.requests| - 1].status.RDispatched? || m.requests[|m.requests| - 1].status.RRunning?)
    ensures |m.active| == 1 ==> SameWork(m.active[0], m.requests[|m.requests| - 1]) && m.active[0].milestoneId == m.requests[|m.requests| - 1].milestoneId
    ensures |m.active| == 1 ==> (m.active[0].status.DelPending? <==> m.active[0].workerClaimId.None?) && ActiveDelegation(m.active[0].status)
    ensures |m.active| == 1 ==> !HasDelegation(m.history, m.active[0].id)
    ensures Idle(m.requests) ==> m.active == []
  {
    hide Chain, Plans, Requests, Claims, Lineage, Typed, States;
    ActiveDelegationIsNewest(m.active, m.history, m.requests);
  }

  // ---- claiming, delegating, working ---------------------------------------------------------------------

  lemma ClaimReadyRequestKeeps(m: Mission)
    requires Inv(m)
    ensures Inv(ClaimReadyRequest(m))
  {
    hide Chain, Plans, Requests, Delegations, Claims, Lineage, Typed, Identities;
    var r := FirstReadyRequest(m.requests);
    if m.status.Active? && r < |m.requests| {
      NewestRequest(m, r);
      NewestDelegation(m);
      RequestStepKeeps(m, r, m.requests[r].(status := RClaimed), ClaimReadyRequest(m));
    }
  }

  lemma FailDispatchKeeps(m: Mission, requestId: Id)
    requires Inv(m) && !Delegated(m, requestId)
    ensures Inv(FailDispatch(m, requestId))
  {
    hide Chain, Plans, Requests, Delegations, Claims, Lineage, Typed, Identities;
    var r := IndexOfRequest(m.requests, requestId);
    NewestDelegation(m);
    if r < |m.requests| {
      RequestStepKeeps(m, r, m.requests[r].(status := RFailed), FailDispatch(m, requestId));
    }
  }

  lemma EnsureTruthfulKeeps(m: Mission)
    requires Inv(m)
    ensures Inv(EnsureTruthful(m))
  {
    hide Chain, Plans, Requests, Delegations, Claims, Lineage, Typed, Identities, HasRunnableWork;
  }

  /** In a sound mission work can run exactly when some request is active and not merely claimed: between claiming a
      request and creating its delegation nothing counts as runnable. */
  lemma RunnableWorkExactly(m: Mission)
    requires Inv(m)
    ensures HasRunnableWork(m) <==> HasActiveRequest(m) && !m.requests[|m.requests| - 1].status.RClaimed?
  {
    hide Chain, Plans, Requests, Delegations, Claims, Lineage, Typed, States;
    NewestDelegation(m);
    var last := |m.requests| - 1;
    forall i | 0 <= i < |m.requests| ensures ActiveRequest(m.requests[i].status) ==> i == last {
      NewestRequest(m, i);
    }
    if HasActiveRequest(m) && !m.requests[last].status.RClaimed? {
      assert m.requests[last].status.RReady? ==> Runnable(m.active, m.requests[last]);
      assert |m.active| == 1 ==> ActiveDelegation(m.active[0].status);
    }
    if i :| 0 <= i < |m.requests| && Runnable(m.active, m.requests[i]) {
      assert ActiveRequest(m.requests[i].status);
    }
  }

  /** The only active delegation changes its status, and its request and claims may change with it. */
  lemma DelegationUpdateKeepsDelegations(active: seq<Delegation>, history: seq<Delegation>, rs: seq<Request>, d: Delegation, q: Request)
    requires Delegations(active, history, rs) && |active| == 1
    requires d == active[0].(status := d.status, workerClaimId := d.workerClaimId)
    requires d.status.DelClaimed? || d.status.DelRunning?
    requires d.workerClaimId.Some?
    requires rs != [] && SameRequest(q, rs[|rs| - 1]) && q.status.RRunning?
    ensures Delegations([d], history, rs[|rs| - 1 := q])
  {
    var rs' := rs[|rs| - 1 := q];
    forall h | 0 <= h < |history| ensures ClosedWork(history[h], rs') {
      assert ClosedWork(history[h], rs);
      var j :| 0 <= j < |rs| && SameWork(history[h], rs[j]) && !ActiveRequest(rs[j].status);
      assert SameWork(history[h], rs'[j]) && !ActiveRequest(rs'[j].status);
    }
  }

  lemma SameDelegationIds(active: seq<Delegation>, d: Delegation)
    requires |active| == 1 && d.id == active[0].id
    ensures forall id :: HasDelegation(active, id) ==> HasDelegation([d], id)
  {
    forall id | HasDelegation(active, id) ensures HasDelegation([d], id) {
      assert [d][0].id == id;
    }
  }

  lemma MarkRunningKeeps(m: Mission, delegationId: Id)
    requires Inv(m)
    ensures Inv(MarkRunning(m, delegationId))
  {
    hide Chain, Plans, Requests, Delegations, Claims, Lineage, Typed, Identities;
    if CanRun(m, delegationId) {
      NewestDelegation(m);
      var d := m.active[0].(status := DelRunning);
      var last := |m.requests| - 1;
      assert m.requests[last].status.RRunning? by { PendingIffDispatched(m); }
      DelegationUpdateKeepsDelegations(m.active, m.history, m.requests, d, m.requests[last]);
      assert m.requests[last := m.requests[last]] == m.requests;
      assert MarkRunning(m, delegationId).active == [d];
      SameDelegationIds(m.active, d);
      ClaimsFollow(m.claims, m.active, m.history, d);
      LineageKeeps(m.lineage, m.milestones, m.decisions, m.mats, m.requests, m.active, m.history, m.claims,
                   m.milestones, m.decisions, m.mats, m.requests, [d], m.history, m.claims);
      TypedFollows(m, m.requests, [d]);
    }
  }

  lemma PendingIffDispatched(m: Mission)
    requires Inv(m) && |m.active| == 1
    ensures m.requests != [] && m.requests[|m.requests| - 1].status == (if m.active[0].status.DelPending? then RDispatched else RRunning)
  {
    hide Chain, Plans, Requests, Claims, Lineage, Typed, States;
  }

  lemma ClaimsFollow(cs: seq<Claim>, active: seq<Delegation>, history: seq<Delegation>, d: Delegation)
    requires Claims(cs, active, history) && |active| == 1
    requires d.id == active[0].id && d.workerClaimId == active[0].workerClaimId
    ensures Claims(cs, [d], history)
  {
    SameDelegationIds(active, d);
  }

  lemma TypedFollows(m: Mission, rs: seq<Request>, active: seq<Delegation>)
    requires Typed(m.criterion, m.mode, m.missionId, m.milestones, m.decisions, m.requests, m.active, m.lineage)
    requires |rs| == |m.requests| && forall i | 0 <= i < |rs| :: rs[i].expected == m.requests[i].expected
    requires forall i | 0 <= i < |active| :: (|active| == |m.active| && active[i].expected == m.active[i].expected)
                                             || (exists k | 0 <= k < |rs| :: rs[k].expected == active[i].expected)
    ensures Typed(m.criterion, m.mode, m.missionId, m.milestones, m.decisions, rs, active, m.lineage)
  {
  }

  lemma ClaimDelegationKeeps(m: Mission, claimId: Id, worker: Id)
    requires Inv(m) && !HasClaim(m.claims, claimId)
    ensures Inv(ClaimDelegation(m, claimId, worker))
  {
    hide Chain, Plans, Requests, Delegations, Claims, Lineage, Typed, Identities;
    if CanClaim(m) {
      var m' := ClaimDelegation(m, claimId, worker);
      NewestDelegation(m);
      var last := |m.requests| - 1;
      NewestRequest(m, last);
      var d := m.active[0].(status := DelClaimed, workerClaimId := Some(claimId));
      var q := m.requests[last].(status := RRunning);
      assert m'.active == [d] && m'.requests == m.requests[last := q];
      DelegationUpdateKeepsDelegations(m.active, m.history, m.requests, d, q);
      PendingIffDispatched(m);
      ChainSizes(m.milestones, m.decisions, m.mats);
      RequestUpdateKeepsRequests(m.requests, m.milestones, m.decisions, m.mats, last, q);
      SameDelegationIds(m.active, d);
      var c := Claim(claimId, d.id, d.requestId, worker, ClaimActive);
      ClaimAdded(m.claims, m.active, m.history, d, c);
      RequestUpdateKeepsIds(m.requests, last, q);
      LineageKeeps(m.lineage, m.milestones, m.decisions, m.mats, m.requests, m.active, m.history, m.claims,
                   m.milestones, m.decisions, m.mats, m'.requests, [d], m.history, m'.claims);
      TypedFollows(m, m'.requests, [d]);
    }
  }

  lemma ClaimAdded(cs: seq<Claim>, active: seq<Delegation>, history: seq<Delegation>, d: Delegation, c: Claim)
    requires Claims(cs, active, history) && |active| == 1 && active[0].workerClaimId.None?
    requires d.id == active[0].id && d.workerClaimId == Some(c.id) && c.delegationId == d.id && c.status.ClaimActive?
    requires !HasClaim(cs, c.id)
    ensures Claims(cs + [c], [d], history)
    ensures forall id :: HasClaim(cs, id) ==> HasClaim(cs + [c], id)
  {
    NoDelegationNoActiveClaim(cs, active, history);
    SameDelegationIds(active, d);
    var cs' := cs + [c];
    assert cs'[|cs|] == c;
    assert [d][0].id == c.delegationId;
    forall id | HasClaim(cs, id) ensures HasClaim(cs', id) {
      var k :| 0 <= k < |cs| && cs[k].id == id;
      assert cs'[k].id == id;
    }
    forall i | 0 <= i < |cs'| ensures HasDelegation([d], cs'[i].delegationId) || HasDelegation(history, cs'[i].delegationId) {
      if i < |cs| {
        assert cs'[i] == cs[i];
      }
    }
  }

  lemma CreateDelegationKeeps(m: Mission, requestId: Id, id: Id)
    requires Inv(m) && !HasDelegation(m.active, id) && !HasDelegation(m.history, id)
    ensures Inv(CreateDelegation(m, requestId, id))
  {
    hide Chain, Plans, Requests, Delegations, Claims, Lineage, Typed, Identities;
    if CanDelegate(m, requestId) {
      var m' := CreateDelegation(m, requestId, id);
      NewestDelegation(m);
      var r := IndexOfRequest(m.requests, requestId);
      NewestRequest(m, r);
      var q := m.requests[r].(status := RDispatched, delegationId := Some(id));
      var d := m'.active[0];
      assert m'.active == [d] && m'.requests == m.requests[r := q];
      ChainSizes(m.milestones, m.decisions, m.mats);
      RequestUpdateKeepsRequests(m.requests, m.milestones, m.decisions, m.mats, r, q);
      DelegationAdded(m.history, m.requests, d, q);
      NoDelegationNoActiveClaim(m.claims, m.active, m.history);
      ClaimsOverNewDelegation(m.claims, m.history, d);
      RequestUpdateKeepsIds(m.requests, r, q);
      assert forall x :: !HasDelegation(m.active, x);
      LineageKeeps(m.lineage, m.milestones, m.decisions, m.mats, m.requests, m.active, m.history, m.claims,
                   m.milestones, m.decisions, m.mats, m'.requests, [d], m.history, m.claims);
      assert m'.requests[r].expected == d.expected;
      TypedFollows(m, m'.requests, [d]);
    }
  }

  lemma DelegationAdded(history: seq<Delegation>, rs: seq<Request>, d: Delegation, q: Request)
    requires Delegations([], history, rs) && rs != []
    requires SameRequest(q, rs[|rs| - 1]) && q.status.RDispatched? && ActiveRequest(rs[|rs| - 1].status)
    requires SameWork(d, q) && d.milestoneId == q.milestoneId && d.status.DelPending? && d.workerClaimId.None?
    requires !HasDelegation(history, d.id)
    ensures Delegations([d], history, rs[|rs| - 1 := q])
  {
    var rs' := rs[|rs| - 1 := q];
    forall h | 0 <= h < |history| ensures ClosedWork(history[h], rs') {
      assert ClosedWork(history[h], rs);
      var j :| 0 <= j < |rs| && SameWork(history[h], rs[j]) && !ActiveRequest(rs[j].status);
      assert SameWork(history[h], rs'[j]) && !ActiveRequest(rs'[j].status);
    }
  }

  lemma ClaimsOverNewDelegation(cs: seq<Claim>, history: seq<Delegation>, d: Delegation)
    requires Claims(cs, [], history) && d.workerClaimId.None?
    requires forall i | 0 <= i < |cs| :: !cs[i].status.ClaimActive?
    ensures Claims(cs, [d], history)
  {
    assert forall id :: !HasDelegation([], id);
  }

  // ---- the approval gates --------------------------------------------------------------------------------

  /** A materialization awaiting approval is the newest, has no request, and nothing is active. */
  lemma AwaitingApproval(m: Mission, k: nat)
    requires Inv(m) && k < |m.mats| && m.mats[k].status.ApprovalRequired?
    ensures k == |m.mats| - 1 == |m.decisions| - 1 < |m.milestones|
    ensures m.milestones[k].status.MReady? && m.milestones[k].id == m.decisions[k].milestoneId
    ensures m.mats[k].id == MatId(m.decisions[k].id)
    ensures IndexOfDecision(m.decisions, m.mats[k].decisionId) == k
    ensures FirstRequestOfMat(m.requests, m.mats[k].id) == |m.requests|
    ensures Idle(m.requests) && m.active == []
  {
    hide Plans, Claims, Lineage, Typed, States, Numbered, Released, Delegations;
    NewestDelegation(m);
    forall i | 0 <= i < |m.requests| ensures m.requests[i].matId != m.mats[k].id {
      assert HasBacking(m.requests[i], m.decisions, m.mats);
      var b :| 0 <= b < |m.mats| && Backs(m.decisions, m.mats, b, m.requests[i]);
    }
  }

  lemma MatUpdateKeepsIds(mats: seq<Materialization>, k: nat, x: Materialization)
    requires k < |mats| && x.id == mats[k].id
    ensures forall id :: HasMat(mats, id) ==> HasMat(mats[k := x], id)
  {
    forall id | HasMat(mats, id) ensures HasMat(mats[k := x], id) {
      var i :| 0 <= i < |mats| && mats[i].id == id;
      assert mats[k := x][i].id == id;
    }
  }

  lemma MatUpdateKeepsChain(ms: seq<Milestone>, ds: seq<Decision>, mats: seq<Materialization>, k: nat, x: Materialization)
    requires Chain(ms, ds, mats) && k < |mats|
    requires x == mats[k].(status := x.status, approved := x.approved) && !x.status.ApprovalRequired?
    ensures Chain(ms, ds, mats[k := x])
  {
  }

  /** A materialization without requests may change its status freely. */
  lemma MatUpdateKeepsBacked(rs: seq<Request>, ds: seq<Decision>, mats: seq<Materialization>, k: nat, x: Materialization)
    requires |mats| == |ds| && Backed(rs, ds, mats) && k < |mats|
    requires forall i | 0 <= i < |rs| :: rs[i].matId != mats[k].id
    ensures Backed(rs, ds, mats[k := x])
  {
    var mats' := mats[k := x];
    forall i | 0 <= i < |rs| ensures HasBacking(rs[i], ds, mats') {
      assert HasBacking(rs[i], ds, mats);
      var b :| 0 <= b < |mats| && Backs(ds, mats, b, rs[i]);
      assert Backs(ds, mats', b, rs[i]);
    }
  }

  lemma RejectKeeps(m: Mission, matId: MatId)
    requires Inv(m)
    ensures Inv(Reject(m, matId))
  {
    hide Chain, Plans, Backed, Numbered, OnlyNewestActive, Delegations, Claims, Lineage, Typed, Identities;
    if CanReject(m, matId) {
      var m' := Reject(m, matId);
      var k := IndexOfMat(m.mats, matId);
      AwaitingApproval(m, k);
      var x := m.mats[k].(status := Rejected);
      assert m'.mats == m.mats[k := x];
      MatUpdateKeepsChain(m.milestones, m.decisions, m.mats, k, x);
      MatUpdateKeepsBacked(m.requests, m.decisions, m.mats, k, x);
      MatUpdateKeepsIds(m.mats, k, x);
      LineageKeeps(m.lineage, m.milestones, m.decisions, m.mats, m.requests, m.active, m.history, m.claims,
                   m.milestones, m.decisions, m'.mats, m.requests, m.active, m.history, m.claims);
    }
  }

  /** A request appended for the newest materialization, while nothing is active. */
  lemma RequestAppendKeepsNumbered(rs: seq<Request>, q: Request)
    requires Numbered(rs) && !HasRequest(rs, q.id)
    requires 1 <= q.attempt <= MAX_EXECUTION_RETRIES && q.key == RequestKey(q.matId, q.attempt)
    requires forall i | 0 <= i < |rs| :: rs[i].matId == q.matId ==> rs[i].attempt < q.attempt
    ensures Numbered(rs + [q])
  {
  }

  lemma RequestAppendKeepsBacked(rs: seq<Request>, ds: seq<Decision>, mats: seq<Materialization>, q: Request, k: nat)
    requires |mats| == |ds| && Backed(rs, ds, mats) && k < |mats| && Backs(ds, mats, k, q)
    ensures Backed(rs + [q], ds, mats)
  {
    var rs' := rs + [q];
    forall i | 0 <= i < |rs'| ensures HasBacking(rs'[i], ds, mats) {
      if i < |rs| {
        assert HasBacking(rs[i], ds, mats);
      } else {
        assert Backs(ds, mats, k, rs'[i]);
      }
    }
  }

  lemma RequestAppendKeepsReleased(rs: seq<Request>, mats: seq<Materialization>, q: Request)
    requires forall k | 0 <= k < |mats| && mats[k].status.ExecutionReady? :: Requested(rs, mats[k].id) || mats[k].id == q.matId
    ensures Released(rs + [q], mats)
  {
    forall k | 0 <= k < |mats| && mats[k].status.ExecutionReady? ensures Requested(rs + [q], mats[k].id) {
      if mats[k].id == q.matId {
        assert (rs + [q])[|rs|].matId == mats[k].id;
      } else {
        var i :| 0 <= i < |rs| && rs[i].matId == mats[k].id;
        assert (rs + [q])[i].matId == mats[k].id;
      }
    }
  }

  lemma RequestAppendKeepsDelegations(history: seq<Delegation>, rs: seq<Request>, q: Request)
    requires Delegations([], history, rs) && q.status.RReady?
    ensures Delegations([], history, rs + [q])
  {
    forall h | 0 <= h < |history| ensures ClosedWork(history[h], rs + [q]) {
      assert ClosedWork(history[h], rs);
      var j :| 0 <= j < |rs| && SameWork(history[h], rs[j]) && !ActiveRequest(rs[j].status);
      assert (rs + [q])[j] == rs[j];
    }
  }

  lemma ApproveKeeps(m: Mission, matId: MatId, requestId: Id)
    requires Inv(m) && !HasRequest(m.requests, requestId)
    ensures Inv(Approve(m, matId, requestId))
  {
    hide Chain, Plans, Backed, Numbered, Delegations, Claims, Lineage, Typed, Identities;
    if CanApprove(m, matId) {
      var m' := Approve(m, matId, requestId);
      var k := IndexOfMat(m.mats, matId);
      AwaitingApproval(m, k);
      var x := m.mats[k].(status := ExecutionReady, approved := true);
      var q := NewRequest(m.decisions[k], requestId);
      assert m'.mats == m.mats[k := x] && m'.requests == m.requests + [q];
      MatUpdateKeepsChain(m.milestones, m.decisions, m.mats, k, x);
      MatUpdateKeepsBacked(m.requests, m.decisions, m.mats, k, x);
      RequestAppendKeepsBacked(m.requests, m.decisions, m'.mats, q, k);
      RequestAppendKeepsNumbered(m.requests, q);
      RequestAppendKeepsReleased(m.requests, m'.mats, q);
      RequestAppendKeepsDelegations(m.history, m.requests, q);
      MatUpdateKeepsIds(m.mats, k, x);
      RequestAppendKeepsIds(m.requests, q);
      LineageKeeps(m.lineage, m.milestones, m.decisions, m.mats, m.requests, m.active, m.history, m.claims,
                   m.milestones, m.decisions, m'.mats, m'.requests, m.active, m.history, m.claims);
      TypedOverAppend(m, k, q);
    }
  }

  lemma TypedOverAppend(m: Mission, k: nat, q: Request)
    requires Typed(m.criterion, m.mode, m.missionId, m.milestones, m.decisions, m.requests, m.active, m.lineage)
    requires k < |m.decisions| && q.expected == m.decisions[k].expected
    ensures Typed(m.criterion, m.mode, m.missionId, m.milestones, m.decisions, m.requests + [q], m.active, m.lineage)
  {
  }

  /** What a revocation finds: the materialization's only request, not yet delegated. */
  lemma RevocableIsNewest(m: Mission, matId: MatId)
    requires Inv(m) && CanRevoke(m, matId)
    ensures FirstRequestOfMat(m.requests, matId) == |m.requests| - 1
    ensures m.active == []
    ensures forall i | 0 <= i < |m.requests| - 1 :: m.requests[i].matId != matId
  {
    hide Chain, Plans, Numbered, Backed, Delegations, Claims, Lineage, Typed, States;
    var k := IndexOfMat(m.mats, matId);
    assert Requested(m.requests, m.mats[k].id);
    NewestDelegation(m);
  }

  lemma RevokeKeepsRequests(m: Mission, matId: MatId)
    requires Inv(m) && CanRevoke(m, matId)
    ensures Requests(Revoke(m, matId).requests, m.milestones, m.decisions, Revoke(m, matId).mats)
  {
    hide Chain, Plans, Backed, Numbered, Delegations, Claims, Lineage, Typed, States;
    var k := IndexOfMat(m.mats, matId);
    RevocableIsNewest(m, matId);
    var last := |m.requests| - 1;
    var q := m.requests[last].(status := RBlocked);
    ChainSizes(m.milestones, m.decisions, m.mats);
    RequestUpdateKeepsRequests(m.requests, m.milestones, m.decisions, m.mats, last, q);
    RevokeKeepsBacked(m.requests[last := q], m.decisions, m.mats, k, m.mats[k].(status := Revoked));
  }

  lemma NothingRevoked(m: Mission, matId: MatId)
    ensures !CanRevoke(m, matId) ==> Revoke(m, matId) == m
  {}

  lemma RevokeShape(m: Mission, matId: MatId)
    requires Inv(m) && CanRevoke(m, matId)
    ensures m.requests != [] && IndexOfMat(m.mats, matId) < |m.mats|
    ensures var k, last := IndexOfMat(m.mats, matId), |m.requests| - 1;
      Revoke(m, matId) == m.(mats := m.mats[k := m.mats[k].(status := Revoked)],
                             requests := m.requests[last := m.requests[last].(status := RBlocked)], status := WaitingDirector,
                             progression := PBlocked, execution := EBlocked, dispatch := DBlocked, autoContinue := Stopped,
                             reason := ApprovalRevoked)
  {
    hide Chain, Plans, Requests, Delegations, Claims, Lineage, Typed, States, FirstIndex, Inv;
    RevocableIsNewest(m, matId);
  }

  lemma RevokeKeeps(m: Mission, matId: MatId)
    requires Inv(m)
    ensures Inv(Revoke(m, matId))
  {
    hide Chain, Plans, Requests, Delegations, Claims, Lineage, Typed, Identities, FirstIndex, Revoke, CanRevoke;
    if !CanRevoke(m, matId) {
      NothingRevoked(m, matId);
    } else {
      var m' := Revoke(m, matId);
      var k := IndexOfMat(m.mats, matId);
      RevocableIsNewest(m, matId);
      RevokeShape(m, matId);
      var last := |m.requests| - 1;
      var x := m.mats[k].(status := Revoked);
      var q := m.requests[last].(status := RBlocked);
      MatUpdateKeepsChain(m.milestones, m.decisions, m.mats, k, x);
      ChainSizes(m.milestones, m.decisions, m.mats);
      RevokeKeepsRequests(m, matId);
      RequestUpdateKeepsDelegations(m.active, m.history, m.requests, last, q);
      MatUpdateKeepsIds(m.mats, k, x);
      RequestUpdateKeepsIds(m.requests, last, q);
      LineageKeeps(m.lineage, m.milestones, m.decisions, m.mats, m.requests, m.active, m.history, m.claims,
                   m.milestones, m.decisions, m'.mats, m'.requests, m.active, m.history, m.claims);
      TypedOverRequest(m, last, q);
    }
  }

  lemma RevokeKeepsBacked(rs: seq<Request>, ds: seq<Decision>, mats: seq<Materialization>, k: nat, x: Materialization)
    requires |mats| == |ds| && Backed(rs, ds, mats) && k < |mats|
    requires x == mats[k].(status := Revoked)
    requires forall i | 0 <= i < |rs| :: rs[i].matId == mats[k].id ==> !ActiveRequest(rs[i].status)
    ensures Backed(rs, ds, mats[k := x])
  {
    var mats' := mats[k := x];
    forall i | 0 <= i < |rs| ensures HasBacking(rs[i], ds, mats') {
      assert HasBacking(rs[i], ds, mats);
      var b :| 0 <= b < |mats| && Backs(ds, mats, b, rs[i]);
      assert Backs(ds, mats', b, rs[i]);
    }
  }
}
