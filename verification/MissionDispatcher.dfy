/** The dispatcher: claim and delegate until no request is ready. */
module MissionDispatcher {
  import opened Search
  import opened MissionModel
  import opened MissionValidator
  import opened MissionInvariant
  import opened MissionSafety
  import Steps = MissionSteps
  import Registry = MissionRegistry

  function ReadyCount(rs: seq<Request>): nat {
    if rs == [] then 0 else ReadyCount(rs[..|rs| - 1]) + if rs[|rs| - 1].status.RReady? then 1 else 0
  }

  /** Taking a request out of READY leaves one fewer. */
  lemma {:induction false} ReadyCountUpdate(rs: seq<Request>, i: nat, q: Request)
    requires i < |rs| && !q.status.RReady?
    ensures ReadyCount(rs[i := q]) == ReadyCount(rs) - if rs[i].status.RReady? then 1 else 0
  {
    var front := rs[..|rs| - 1];
    if i < |rs| - 1 {
      ReadyCountUpdate(front, i, q);
      assert rs[i := q][..|rs| - 1] == front[i := q];
    } else {
      assert rs[i := q][..|rs| - 1] == front;
    }
  }

  predicate HasReady(m: Mission) { m.status.Active? && FirstReadyRequest(m.requests) < |m.requests| }

  /** A round takes at least one request out of READY, even in a corrupted mission. */
  lemma RoundTakesOne(m: Mission, delegationId: Id)
    requires HasReady(m)
    ensures ReadyCount(Steps.Dispatch(m, delegationId).requests) < ReadyCount(m.requests)
  {
    hide FirstIndex, Steps.Delegated;
    var r := FirstReadyRequest(m.requests);
    var claimed := Steps.ClaimReadyRequest(m);
    var q := IndexOfRequest(claimed.requests, m.requests[r].id);
    ReadyCountUpdate(m.requests, r, m.requests[r].(status := RClaimed));
    assert claimed.requests[r].id == m.requests[r].id;
    if Steps.CanDelegate(claimed, m.requests[r].id) {
      ReadyCountUpdate(claimed.requests, q, claimed.requests[q].(status := RDispatched, delegationId := Some(delegationId)));
    } else {
      ReadyCountUpdate(claimed.requests, q, claimed.requests[q].(status := RFailed));
    }
  }

  /** The ready request of a sound mission has no delegation yet and gets one, and no other request is ready. */
  lemma RoundDelegates(m: Mission, delegationId: Id)
    requires Inv(m) && HasReady(m)
    ensures var r := FirstReadyRequest(m.requests); var claimed := Steps.ClaimReadyRequest(m);
      && Steps.CanDelegate(claimed, m.requests[r].id) && Steps.HasOrGetsDelegation(claimed, m.requests[r].id)
      && Steps.Dispatch(m, delegationId) == Steps.CreateDelegation(claimed, m.requests[r].id, delegationId)
      && !HasReady(Steps.Dispatch(m, delegationId))
  {
    hide Chain, Plans, Requests, Claims, Lineage, Typed, States;
    var r := FirstReadyRequest(m.requests);
    NewestRequest(m, r);
    NewestDelegation(m);
    forall i | 0 <= i < |m.requests| - 1 ensures !ActiveRequest(m.requests[i].status) && m.requests[i].id != m.requests[r].id {
      NewestRequest(m, i);
    }
    forall d | d in m.history ensures d.requestId != m.requests[r].id {
      var i :| 0 <= i < |m.history| && m.history[i] == d;
      assert ClosedWork(m.history[i], m.requests);
      var j :| 0 <= j < |m.requests| && SameWork(d, m.requests[j]) && !ActiveRequest(m.requests[j].status);
      NewestRequest(m, j);
    }
    var claimed := Steps.ClaimReadyRequest(m);
    assert m.active == [] && r == |m.requests| - 1;
    assert IndexOfRequest(claimed.requests, m.requests[r].id) == r by {
      assert claimed.requests[r].id == m.requests[r].id;
      assert forall i | 0 <= i < r :: claimed.requests[i].id == m.requests[i].id != m.requests[r].id;
    }
    assert !Steps.Delegated(claimed, m.requests[r].id);
    hide Inv;
    var after := Steps.CreateDelegation(claimed, m.requests[r].id, delegationId);
    assert forall i | 0 <= i < r :: after.requests[i] == m.requests[i];
  }

  /** A round keeps the invariant. */
  lemma DispatchKeeps(m: Mission, delegationId: Id)
    requires Inv(m) && !HasDelegation(m.active, delegationId) && !HasDelegation(m.history, delegationId)
    ensures Inv(Steps.Dispatch(m, delegationId))
  {
    hide Inv, FirstIndex, FirstReadyRequest, Steps.CreateDelegation;
    if HasReady(m) {
      RoundDelegates(m, delegationId);
      ClaimReadyRequestKeeps(m);
      var claimed := Steps.ClaimReadyRequest(m);
      assert claimed.active == m.active && claimed.history == m.history;
      CreateDelegationKeeps(claimed, m.requests[FirstReadyRequest(m.requests)].id, delegationId);
    }
  }

  /** Is there a ready request, or one that an active delegation works on? */
  method HasRunnableWork(m: Mission) returns (runnable: bool)
    ensures runnable == Steps.HasRunnableWork(m)
  {
    var active := set i | 0 <= i < |m.active| && ActiveDelegation(m.active[i].status) :: m.active[i].requestId;
    for i := 0 to |m.requests|
      invariant forall j | 0 <= j < i :: !Steps.Runnable(m.active, m.requests[j])
    {
      var request := m.requests[i];
      assert request.id in active <==> Steps.WorkedOn(m.active, request.id);
      if request.status.RReady? {
        return true;
      }
      if (request.status.RDispatched? || request.status.RRunning?) && request.id in active {
        return true;
      }
    }
    runnable := active != {};
    if HasActiveDelegation(m) {
      var i :| 0 <= i < |m.active| && ActiveDelegation(m.active[i].status);
      assert m.active[i].requestId in active;
    }
  }

  lemma DispatchKept(m: Mission, delegationId: Id)
    ensures Inv(m) && !HasDelegation(m.active, delegationId) && !HasDelegation(m.history, delegationId) ==>
              Inv(Steps.Dispatch(m, delegationId))
  {
    hide *;
    if Inv(m) && !HasDelegation(m.active, delegationId) && !HasDelegation(m.history, delegationId) {
      DispatchKeeps(m, delegationId);
    }
  }

  class MissionExecutionDispatcher {
    const registry: Registry.MissionRegistry

    constructor (r: Registry.MissionRegistry)
      ensures registry == r
    {
      registry := r;
    }

    /** The failure branch: the request fails and the mission is blocked. */
    method FailDispatch(id: Id, requestId: Id)
      requires registry.Filed() && id in registry.missions
      modifies registry
      ensures registry.Filed()
      ensures registry.missions == old(registry.missions)[id := Steps.FailDispatch(old(registry.missions)[id], requestId)]
    {
      var mission := registry.missions[id];
      var r := IndexOfRequest(mission.requests, requestId);
      if r < |mission.requests| {
        mission := mission.(requests := mission.requests[r := mission.requests[r].(status := RFailed)]);
      }
      mission := Steps.Block(mission, RequestUndispatched);
      registry.SaveMission(mission);
    }

    /** Claim one ready request and delegate it; a request that cannot be delegated fails. */
    method Round(id: Id, delegationId: Id) returns (claimed: bool, delegated: bool)
      requires registry.Filed()
      modifies registry
      ensures registry.Filed()
      ensures claimed <==> id in old(registry.missions) && HasReady(old(registry.missions)[id])
      ensures registry.missions == if claimed then
                old(registry.missions)[id := Steps.Dispatch(old(registry.missions)[id], delegationId)]
              else old(registry.missions)
      ensures claimed && Inv(old(registry.missions)[id]) ==> delegated
      ensures !claimed ==> !delegated
    {
      hide Inv, FirstReadyRequest, Steps.ClaimReadyRequest, Steps.CreateDelegation, Steps.CanDelegate,
           Steps.HasOrGetsDelegation, Steps.FailDispatch;
      claimed, delegated := false, false;
      ghost var m := registry.missions;
      var request := registry.ClaimReadyRequest(id);
      if request.None? {
        return;
      }
      claimed := true;
      if Inv(m[id]) {
        RoundDelegates(m[id], delegationId);
      }
      var created := registry.CreateDelegation(id, request.value.id, delegationId);
      if created.None? {
        FailDispatch(id, request.value.id);
      } else {
        delegated := true;
      }
    }

    /** Dispatch a mission's ready requests. From any stored state the loop ends, with nothing left ready; in a sound
        mission exactly the one ready request, if there is one, is delegated. */
    method ProcessReadyRequests(id: Id, ids: nat -> Id) returns (dispatched: nat)
      requires registry.Filed()
      modifies registry
      ensures registry.Filed() && registry.missions.Keys == old(registry.missions).Keys
      ensures forall k | k in registry.missions && k != id :: registry.missions[k] == old(registry.missions)[k]
      ensures id in registry.missions ==> !HasReady(registry.missions[id])
      ensures id in registry.missions && Inv(old(registry.missions)[id]) ==>
                && registry.missions[id] == Steps.Dispatch(old(registry.missions)[id], ids(0))
                && dispatched == if HasReady(old(registry.missions)[id]) then 1 else 0
      ensures id in registry.missions && Inv(old(registry.missions)[id])
              && !HasDelegation(old(registry.missions)[id].active, ids(0)) && !HasDelegation(old(registry.missions)[id].history, ids(0)) ==>
                Inv(registry.missions[id])
    {
      hide Inv, FirstReadyRequest, Steps.ClaimReadyRequest, Steps.CreateDelegation, Steps.CanDelegate,
           Steps.HasOrGetsDelegation, Steps.FailDispatch, ReadyCount;
      ghost var first := registry.missions;
      ghost var rounds := 0;
      if id in first {
        DispatchKept(first[id], ids(0));
      }
      dispatched := 0;
      while true
        invariant registry.Filed() && registry.missions.Keys == first.Keys
        invariant forall k | k in registry.missions && k != id :: registry.missions[k] == first[k]
        invariant rounds == 0 ==> registry.missions == first && dispatched == 0
        invariant rounds > 0 ==> id in first
        invariant rounds > 0 && Inv(first[id]) ==>
                    && HasReady(first[id]) && dispatched == 1
                    && registry.missions[id] == Steps.Dispatch(first[id], ids(0)) && !HasReady(registry.missions[id])
        decreases if id in registry.missions then ReadyCount(registry.missions[id].requests) else 0
      {
        ghost var m := registry.missions;
        var claimed, delegated := Round(id, ids(dispatched));
        if !claimed {
          assert id in m && !HasReady(m[id]) ==> Steps.Dispatch(m[id], ids(0)) == m[id];
          break;
        }
        RoundTakesOne(m[id], ids(dispatched));
        if Inv(m[id]) {
          RoundDelegates(m[id], ids(dispatched));
        }
        if delegated {
          dispatched := dispatched + 1;
        }
        rounds := rounds + 1;
      }
    }
  }
}
