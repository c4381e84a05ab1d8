/** An acquisition mission can be completed, and exactly when enough distinct clients are on record as won. */
module MissionAcquisition {
  import opened Search
  import opened MissionModel
  import opened MissionGuard
  import opened MissionValidator
  import opened MissionSteps
  import opened MissionInvariant
  import opened MissionSafety
  import opened MissionRuns
  import opened MissionEffects
  import opened MissionEvidence
  import opened MissionLiveness

  // ---- what is recorded -------------------------------------------------------------------------------------

  /** The outcomes a run records, in order. */
  function Recorded(es: seq<Event>): seq<Outcome> {
    if es == [] then []
    else (if es[0].EvRecordOutcome? then [es[0].outcome] else []) + Recorded(es[1..])
  }

  function Store(os: seq<Outcome>, o: Outcome): seq<Outcome> {
    var i := IndexOfOutcome(os, o.identity);
    if i == |os| then os + [o] else if os[i].verified || !o.verified then os else os[i := o]
  }

  /** What is on record afterwards: one outcome for each identity, the first verified one if there is any. */
  function StoreAll(os: seq<Outcome>, more: seq<Outcome>): seq<Outcome>
    decreases |more|
  {
    if more == [] then os else StoreAll(Store(os, more[0]), more[1..])
  }

  lemma OutcomesOfEvent(m: Mission, e: Event)
    ensures Apply(m, e).outcomes == if e.EvRecordOutcome? then Store(m.outcomes, e.outcome) else m.outcomes
  {
    hide Bootstrap, Complete, Fail, FirstIndex, Approve, Reject, Revoke, ClaimReadyRequest, CreateDelegation, ClaimDelegation,
         MarkRunning, FailDispatch, UpdateStatus;
    match e {
      case EvBootstrap(ids) => BootstrapEffect(m, ids);
      case EvComplete(id, ev, retryId) => CompleteEffect(m, id, ev, retryId);
      case EvFail(id, report, retryId) => FailEffect(m, id, report, retryId);
      case EvRecordOutcome(o) =>
      case _ => OtherEventsKeepEvidence(m, e);
    }
  }

  /** Nothing but recording changes the outcomes. */
  lemma {:induction false} OutcomesOfRun(m: Mission, es: seq<Event>)
    ensures Run(m, es).outcomes == StoreAll(m.outcomes, Recorded(es))
    decreases |es|
  {
    hide Apply, Store;
    if es != [] {
      OutcomesOfEvent(m, es[0]);
      OutcomesOfRun(Apply(m, es[0]), es[1..]);
      var rest := Recorded(es[1..]);
      if es[0].EvRecordOutcome? {
        assert ([es[0].outcome] + rest)[1..] == rest;
      } else {
        assert [] + rest == rest;
      }
    }
  }

  lemma {:induction false} RecordedConcat(es: seq<Event>, fs: seq<Event>)
    ensures Recorded(es + fs) == Recorded(es) + Recorded(fs)
  {
    if es == [] {
      assert es + fs == fs;
    } else {
      assert (es + fs)[0] == es[0] && (es + fs)[1..] == es[1..] + fs;
      RecordedConcat(es[1..], fs);
    }
  }

  // ---- working through the plan -----------------------------------------------------------------------------

  /** Milestones 1 to `done` are delivered, those up to `decided` decided; nothing else was ever decided or worked on. */
  predicate Reached(m: Mission, done: nat, decided: nat) {
    && m.status.Active? && m.kind.ClientAcquisition? && m.mode.ProductionSuccess? && m.planVersion == 1 && m.replanCount == 0
    && done <= decided <= 4 && Delivered(m.milestones, done) && Chosen(m.decisions, m.mats, decided)
  }

  predicate Delivered(ms: seq<Milestone>, done: nat) {
    |ms| == 4 && forall i | 0 <= i < 4 :: Planned(ms[i], i) && (i < done <==> ms[i].status.MCompleted?)
  }

  predicate Planned(ms: Milestone, i: nat) {
    ms.id == i + 1 && ms.plan == 1 && ms.spec.Some? && !ms.spec.value.target.UnresolvedAgent?
  }

  predicate Chosen(ds: seq<Decision>, mats: seq<Materialization>, n: nat) {
    |ds| == |mats| == n && forall i | 0 <= i < n :: Numbered(ds[i], mats[i], i)
  }

  predicate Numbered(d: Decision, mat: Materialization, i: nat) {
    d.id == i && d.milestoneId == i + 1 && mat.id == MatId(i) && mat.decisionId == i
  }

  predicate Worked(history: seq<Delegation>, n: nat) {
    |history| == n && forall i | 0 <= i < n :: history[i].id == i && history[i].requestId == i
  }

  predicate Claimed(cs: seq<Claim>, n: nat) { |cs| == n && forall i | 0 <= i < n :: cs[i].id == i && cs[i].delegationId == i }

  /** The requests made so far, one for each decision, all closed but perhaps the newest. */
  predicate Asked(rs: seq<Request>, n: nat, newest: RequestStatus) {
    && |rs| == n && (forall i | 0 <= i < n :: rs[i].id == i && rs[i].matId == MatId(i) && rs[i].milestoneId == i + 1)
    && (forall i | 0 <= i < n - 1 :: rs[i].status.RCompleted?) && (n > 0 ==> rs[n - 1].status == newest)
  }

  predicate Calm(m: Mission, done: nat) { m.active == [] && Worked(m.history, done) && Claimed(m.claims, done) }

  predicate Between(m: Mission, done: nat) { Reached(m, done, done) && Asked(m.requests, done, RCompleted) && Calm(m, done) }

  predicate Ready(m: Mission, done: nat) { Reached(m, done, done + 1) && Asked(m.requests, done + 1, RReady) && Calm(m, done) }

  predicate AwaitsApproval(m: Mission, done: nat) {
    && Reached(m, done, done + 1) && Asked(m.requests, done, RCompleted) && Calm(m, done)
    && m.mats[done].status.ApprovalRequired?
  }

  /** The newest request is delegated, and claimed by a worker from `claimed` on. */
  predicate Busy(m: Mission, done: nat, claimed: bool) {
    && Reached(m, done, done + 1) && Asked(m.requests, done + 1, if claimed then RRunning else RDispatched)
    && Worked(m.history, done) && Claimed(m.claims, if claimed then done + 1 else done)
    && |m.active| == 1 && m.active[0].id == done && m.active[0].requestId == done && m.active[0].milestoneId == done + 1
    && m.active[0].status == (if claimed then DelClaimed else DelPending)
    && m.active[0].workerClaimId == (if claimed then Some(done) else None)
    && (claimed ==> m.claims[done].status.ClaimActive?)
  }

  lemma Decided(m: Mission, done: nat)
    requires Between(m, done) && done < 4
    ensures var m' := Bootstrap(m, FreshIds(done, done, done));
      Legal(m, EvBootstrap(FreshIds(done, done, done))) && (Ready(m', done) || AwaitsApproval(m', done))
  {
    hide Advance, FinishPlan, FirstIndex;
    assert FirstMilestoneOfPlan(m.milestones, 1) == 0 by { assert m.milestones[0].plan == 1; }
    assert FirstOpenMilestone(m.milestones, 1) == done by {
      assert m.milestones[done].plan == 1 && !m.milestones[done].status.MCompleted?;
    }
    assert Bootstrap(m, FreshIds(done, done, done)) == Advance(m, done, FreshIds(done, done, done));
    NextDecided(m, done);
  }

  lemma NextDecided(m: Mission, done: nat)
    requires Between(m, done) && done < 4
    ensures var m' := Advance(m, done, FreshIds(done, done, done)); Ready(m', done) || AwaitsApproval(m', done)
  {
    var ids := FreshIds(done, done, done);
    var ms := m.milestones[done];
    assert Planned(ms, done) && !MilestoneBusy(m, done + 1) && LastDecisionFor(m.decisions, done + 1, 1) == -1;
    var d := Decision(done, done + 1, 1, ms.spec.value.action, ms.spec.value.target, ms.spec.value.expected);
    var started := m.(milestones := m.milestones[done := ms.(status := MReady)], decisions := m.decisions + [d]);
    assert Delivered(started.milestones, done);
    assert Advance(m, done, ids) == Materialize(started, d, ids);
    hide Advance, FirstIndex, MilestoneBusy, LastDecisionFor, Planned;
    NextMaterialized(m, started, d);
  }

  lemma NextMaterialized(m: Mission, started: Mission, d: Decision)
    requires d.id < 4 && Between(m, d.id) && d.milestoneId == d.id + 1 && !d.target.UnresolvedAgent?
    requires started == m.(milestones := started.milestones, decisions := m.decisions + [d])
    requires Delivered(started.milestones, d.id)
    ensures var m' := Materialize(started, d, FreshIds(d.id, d.id, d.id)); Ready(m', d.id) || AwaitsApproval(m', d.id)
  {
    var n := d.id;
    assert IndexOfMat(m.mats, MatId(n)) == n by {
      assert forall i | 0 <= i < n :: Numbered(m.decisions[i], m.mats[i], i);
    }
    forall mat: Materialization | mat.id == MatId(n) && mat.decisionId == n ensures Chosen(m.decisions + [d], m.mats + [mat], n + 1) {
      ChosenGrows(m.decisions, m.mats, d, mat, n);
    }
    AskedGrows(m.requests, NewRequest(d, n), n);
    hide NeedsApproval, FirstIndex, Delivered, Worked, Claimed, Chosen, Asked;
  }

  lemma ChosenGrows(ds: seq<Decision>, mats: seq<Materialization>, d: Decision, mat: Materialization, n: nat)
    requires Chosen(ds, mats, n) && Numbered(d, mat, n)
    ensures Chosen(ds + [d], mats + [mat], n + 1)
  {
    forall i | 0 <= i < n + 1 ensures Numbered((ds + [d])[i], (mats + [mat])[i], i) {
      assert i < n ==> Numbered(ds[i], mats[i], i);
    }
  }

  lemma AskedGrows(rs: seq<Request>, r: Request, n: nat)
    requires Asked(rs, n, RCompleted) && r.id == n && r.matId == MatId(n) && r.milestoneId == n + 1
    ensures Asked(rs + [r], n + 1, r.status)
  {}

  lemma Approved(m: Mission, done: nat)
    requires AwaitsApproval(m, done)
    ensures Legal(m, EvApprove(MatId(done), done)) && Ready(Approve(m, MatId(done), done), done)
  {
    hide FirstIndex, Delivered, Worked, Claimed;
    assert forall i | 0 <= i <= done :: Numbered(m.decisions[i], m.mats[i], i);
    assert IndexOfMat(m.mats, MatId(done)) == done && IndexOfDecision(m.decisions, done) == done;
    assert FirstRequestOfMat(m.requests, MatId(done)) == |m.requests|;
    var m' := Approve(m, MatId(done), done);
    assert Chosen(m'.decisions, m'.mats, done + 1) by {
      forall i | 0 <= i <= done ensures Numbered(m'.decisions[i], m'.mats[i], i) {
        assert Numbered(m.decisions[i], m.mats[i], i);
      }
    }
  }

  lemma Dispatched(m: Mission, done: nat)
    requires Ready(m, done)
    ensures Legal(ClaimReadyRequest(m), EvCreateDelegation(done, done))
    ensures Busy(CreateDelegation(ClaimReadyRequest(m), done, done), done, false)
  {
    hide FirstIndex, Delivered, Chosen;
    assert FirstReadyRequest(m.requests) == done;
    var m1 := ClaimReadyRequest(m);
    assert m1.requests[done].id == done;
    assert IndexOfRequest(m1.requests, done) == done && CanDelegate(m1, done);
  }

  lemma Taken(m: Mission, done: nat)
    requires Busy(m, done, false)
    ensures Legal(m, EvClaimDelegation(done, 0)) && Busy(ClaimDelegation(m, done, 0), done, true)
  {
    hide FirstIndex, Delivered, Chosen;
    assert m.active[0].status.DelPending? && m.requests[done].id == done;
    assert FirstPendingDelegation(m.active) == 0 && CanClaim(m) && IndexOfRequest(m.requests, done) == done;
  }

  /** What accepting evidence changes. */
  lemma Accepted(m: Mission, done: nat, ev: Evidence)
    requires Busy(m, done, true) && CompletionGate(m, 0, ev).Admitted?
    ensures var m' := Accept(m, 0, ev);
      && m'.status == m.status && m'.kind == m.kind && m'.mode == m.mode && m'.planVersion == m.planVersion
      && m'.replanCount == m.replanCount && m'.decisions == m.decisions && m'.mats == m.mats && m'.active == []
      && m'.requests == m.requests[done := m.requests[done].(status := RCompleted)]
      && m'.claims == m.claims[done := m.claims[done].(status := ClaimCompleted)]
      && m'.history == m.history + [m.active[0].(status := DelCompleted)]
      && m'.milestones == m.milestones[done := m.milestones[done].(status := MCompleted, artifactId := Some(ev.artifactId))]
  {
    hide FirstIndex, CompletedMilestones, RoundHalfEven, Chosen;
    assert m.requests[done].id == done && m.claims[done].id == done && Planned(m.milestones[done], done);
    assert IndexOfRequest(m.requests, done) == done && IndexOfClaim(m.claims, Some(done)) == done;
    assert IndexOfMilestone(m.milestones, done + 1) == done;
    assert RemoveDelegation(m.active, done) == RemoveDelegation(m.active[1..], done) == [];
  }

  lemma Done(m: Mission, done: nat)
    requires Busy(m, done, true)
    ensures Legal(m, EvComplete(done, GoodEvidence(m.active[0].expected), done + 1))
    ensures Between(Complete(m, done, GoodEvidence(m.active[0].expected), done + 1), done + 1)
  {
    hide FirstIndex, Accept, Fail;
    var ev := GoodEvidence(m.active[0].expected);
    assert m.requests[done].id == done && m.claims[done].id == done && Planned(m.milestones[done], done);
    assert IndexOfRequest(m.requests, done) == done && IndexOfClaim(m.claims, Some(done)) == done;
    assert IndexOfDelegation(m.active, done) == 0 && CompletionGate(m, 0, ev).Admitted?;
    assert Complete(m, done, ev, done + 1) == Accept(m, 0, ev);
    Accepted(m, done, ev);
  }

  /** One event in front of a run that records nothing. */
  lemma Preceded(m: Mission, e: Event, es: seq<Event>) returns (fs: seq<Event>)
    requires Legal(m, e) && LegalRun(Apply(m, e), es) && !e.EvRecordOutcome? && Recorded(es) == []
    ensures LegalRun(m, fs) && Run(m, fs) == Run(Apply(m, e), es) && Recorded(fs) == [] && |fs| == |es| + 1
  {
    hide Legal, Apply;
    fs := [e] + es;
    assert fs[1..] == es;
  }

  /** From a request to the next delivered milestone. */
  lemma WorkRun(m: Mission, done: nat) returns (es: seq<Event>)
    requires Ready(m, done)
    ensures LegalRun(m, es) && Between(Run(m, es), done + 1) && Recorded(es) == []
  {
    hide *;
    Dispatched(m, done);
    var m1 := ClaimReadyRequest(m);
    var m2 := CreateDelegation(m1, done, done);
    Taken(m2, done);
    var m3 := ClaimDelegation(m2, done, 0);
    BusyWorks(m3, done);
    Done(m3, done);
    var ev := GoodEvidence(m3.active[0].expected);
    WorkEvents(m, done, ev);
    WorkEvents(m1, done, ev);
    WorkEvents(m2, done, ev);
    WorkEvents(m3, done, ev);
    es := Quiet(Complete(m3, done, ev, done + 1));
    es := Preceded(m3, EvComplete(done, ev, done + 1), es);
    es := Preceded(m2, EvClaimDelegation(done, 0), es);
    es := Preceded(m1, EvCreateDelegation(done, done), es);
    es := Preceded(m, EvClaimRequest, es);
  }

  lemma Quiet(m: Mission) returns (es: seq<Event>)
    ensures es == [] && LegalRun(m, es) && Run(m, es) == m && Recorded(es) == []
  {
    es := [];
  }

  /** What the events of one piece of work apply. */
  lemma WorkEvents(m: Mission, n: nat, ev: Evidence)
    ensures Legal(m, EvClaimRequest) && Apply(m, EvClaimRequest) == ClaimReadyRequest(m)
    ensures Apply(m, EvCreateDelegation(n, n)) == CreateDelegation(m, n, n)
    ensures Apply(m, EvClaimDelegation(n, 0)) == ClaimDelegation(m, n, 0)
    ensures Apply(m, EvComplete(n, ev, n + 1)) == Complete(m, n, ev, n + 1)
  {
    hide ClaimReadyRequest, CreateDelegation, ClaimDelegation, Complete;
  }

  lemma BusyWorks(m: Mission, done: nat)
    requires Busy(m, done, true)
    ensures |m.active| == 1
  {}

  /** Decide on the next milestone, and approve it if asked to. */
  lemma ReadyRun(m: Mission, done: nat) returns (es: seq<Event>)
    requires Between(m, done) && done < 4
    ensures LegalRun(m, es) && Ready(Run(m, es), done) && Recorded(es) == [] && |es| <= 2
  {
    hide Between, Ready, AwaitsApproval, Bootstrap, Approve;
    Decided(m, done);
    var decide := EvBootstrap(FreshIds(done, done, done));
    var m1 := Apply(m, decide);
    es := [];
    if !Ready(m1, done) {
      Approved(m1, done);
      es := Preceded(m1, EvApprove(MatId(done), done), es);
    }
    es := Preceded(m, decide, es);
  }

  lemma MilestoneRun(m: Mission, done: nat) returns (es: seq<Event>)
    requires Between(m, done) && done < 4
    ensures LegalRun(m, es) && Between(Run(m, es), done + 1) && Recorded(es) == []
  {
    hide *;
    var first := ReadyRun(m, done);
    var rest := WorkRun(Run(m, first), done);
    RunConcat(m, first, rest);
    RecordedConcat(first, rest);
    assert [] + rest == rest;
    es := first + rest;
  }

  lemma AllDelivered(m: Mission)
    requires Between(m, 4) && CriteriaMet(m)
    ensures Legal(m, EvBootstrap(FreshIds(4, 4, 4))) && Bootstrap(m, FreshIds(4, 4, 4)).status.Completed?
  {
    hide FirstIndex, CriteriaMet, CompletedMilestones, RoundHalfEven;
    assert FirstMilestoneOfPlan(m.milestones, 1) == 0 by { assert Planned(m.milestones[0], 0); }
    assert FirstOpenMilestone(m.milestones, 1) == 4;
  }

  lemma {:induction false} PlanRun(m: Mission, done: nat) returns (es: seq<Event>)
    requires Between(m, done) && done <= 4 && CriteriaMet(m)
    ensures LegalRun(m, es) && Run(m, es).status.Completed? && Recorded(es) == []
    decreases 4 - done
  {
    hide Between, CriteriaMet, Bootstrap, Apply, Legal;
    if done == 4 {
      AllDelivered(m);
      assert Legal(m, EvBootstrap(FreshIds(4, 4, 4))) && Apply(m, EvBootstrap(FreshIds(4, 4, 4))).status.Completed? by { AppliedBootstrap(m); }
      es := Preceded(m, EvBootstrap(FreshIds(4, 4, 4)), []);
    } else {
      var first := MilestoneRun(m, done);
      VerifiedCountNeverDecreases(m, first);
      var rest := PlanRun(Run(m, first), done + 1);
      RunConcat(m, first, rest);
      RecordedConcat(first, rest);
      es := first + rest;
    }
  }

  lemma AppliedBootstrap(m: Mission)
    ensures Apply(m, EvBootstrap(FreshIds(4, 4, 4))) == Bootstrap(m, FreshIds(4, 4, 4))
  {}

  lemma {:induction false} RecordingRun(m: Mission, os: seq<Outcome>) returns (es: seq<Event>)
    ensures LegalRun(m, es) && Run(m, es) == m.(outcomes := StoreAll(m.outcomes, os)) && Recorded(es) == os
    decreases |os|
  {
    hide Apply, Legal, Store, IndexOfOutcome;
    es := [];
    if os != [] {
      var e := EvRecordOutcome(os[0]);
      RecordingEvent(m, os[0]);
      var rest := RecordingRun(Apply(m, e), os[1..]);
      es := [e] + rest;
      assert es[1..] == rest && os == [os[0]] + os[1..];
    }
  }

  lemma RecordingEvent(m: Mission, o: Outcome)
    ensures Legal(m, EvRecordOutcome(o)) && Apply(m, EvRecordOutcome(o)) == m.(outcomes := Store(m.outcomes, o))
  {
    hide FirstIndex;
  }

  // ---- completion ------------------------------------------------------------------------------------------

  /** A run that records given outcomes can complete an acquisition mission exactly when they leave enough distinct
      clients on record, each won, verified and of a source that qualifies for production. */
  lemma AcquisitionCompletableExactly(id: Id, spec: Spec, os: seq<Outcome>)
    requires SpecOk(spec) && spec.AcquisitionSpec?
    ensures (exists es :: LegalRun(Create(id, spec), es) && Recorded(es) == os && Run(Create(id, spec), es).status.Completed?)
            <==> |CountedOutcomes(StoreAll([], os))| >= spec.required
  {
    var m := Create(id, spec);
    assert Between(m, 0) && m.required == spec.required && m.criterion.VerifiedWonClients? && m.outcomes == [];
    hide Create, Between, CountedOutcomes, StoreAll, Recorded;
    if |CountedOutcomes(StoreAll([], os))| >= spec.required {
      var record := RecordingRun(m, os);
      var m1 := Run(m, record);
      BetweenIgnoresOutcomes(m, m1.outcomes, 0);
      var work := PlanRun(m1, 0);
      RunConcat(m, record, work);
      RecordedConcat(record, work);
      assert os + [] == os;
      assert LegalRun(m, record + work) && Recorded(record + work) == os && Run(m, record + work).status.Completed?;
    }
    forall es | LegalRun(m, es) && Recorded(es) == os && Run(m, es).status.Completed?
      ensures |CountedOutcomes(StoreAll([], os))| >= spec.required
    {
      OutcomesOfRun(m, es);
      assert es + [] == es;
      CompletionIsSoundAndStable(id, spec, es, []);
      VerifiedCountNeverDecreases(m, es);
    }
  }

  lemma BetweenIgnoresOutcomes(m: Mission, os: seq<Outcome>, done: nat)
    requires Between(m, done)
    ensures Between(m.(outcomes := os), done)
  {}

  // ---- what that asks of the outcomes -------------------------------------------------------------------------

  /** The distinct identities under which outcomes that count were recorded. */
  function Won(os: seq<Outcome>): set<Id> { set o | o in os && OutcomeCounts(o) :: o.identity }

  lemma {:induction false} StoredWereOffered(os: seq<Outcome>, more: seq<Outcome>)
    ensures forall o | o in StoreAll(os, more) :: o in os || o in more
    decreases |more|
  {
    if more != [] {
      StoredWereOffered(Store(os, more[0]), more[1..]);
      forall o | o in StoreAll(os, more) ensures o in os || o in more {
        assert o in Store(os, more[0]) || o in more[1..];
      }
    }
  }

  /** Completion takes at least the required number of distinct clients recorded as won during the run. */
  lemma CompletionTakesWonClients(id: Id, spec: Spec, es: seq<Event>)
    requires SpecOk(spec) && spec.AcquisitionSpec? && LegalRun(Create(id, spec), es)
    requires Run(Create(id, spec), es).status.Completed?
    ensures |Won(Recorded(es))| >= spec.required
  {
    hide Create, Recorded, StoreAll, OutcomeCounts, SpecOk;
    var os := Recorded(es);
    AcquisitionCompletableExactly(id, spec, os);
    StoredWereOffered([], os);
    assert CountedOutcomes(StoreAll([], os)) <= Won(os);
    SubsetCardinality(CountedOutcomes(StoreAll([], os)), Won(os));
  }

  /** What the reaction to a DEAL_WON event hands in: it names no source, which makes the source unknown. */
  function Reaction(identity: Id, confident: bool): Outcome { Outcome(identity, true, confident, Unknown) }

  /** So a mission whose outcomes all come from that reaction is never completed. */
  lemma ReactionsNeverComplete(id: Id, spec: Spec, es: seq<Event>)
    requires SpecOk(spec) && spec.AcquisitionSpec? && LegalRun(Create(id, spec), es)
    requires forall o | o in Recorded(es) :: o == Reaction(o.identity, o.verified)
    ensures !Run(Create(id, spec), es).status.Completed?
  {
    hide Create, Recorded, Run, LegalRun;
    assert Won(Recorded(es)) == {};
    hide Won, OutcomeCounts;
    if Run(Create(id, spec), es).status.Completed? {
      CompletionTakesWonClients(id, spec, es);
    }
  }

  function Deals(n: nat): seq<Outcome> { seq(n, i requires 0 <= i < n => Outcome(i, true, true, LiveExternal)) }

  lemma {:induction false} DealsCount(n: nat)
    ensures StoreAll([], Deals(n)) == Deals(n) && |CountedOutcomes(Deals(n))| == n
  {
    DealsStored(n, 0);
    assert Deals(0) == [] && Deals(n)[0..] == Deals(n);
    DealsCounted(n);
  }

  lemma {:induction false} DealsStored(n: nat, k: nat)
    requires k <= n
    ensures StoreAll(Deals(k), Deals(n)[k..]) == Deals(n)
    decreases n - k
  {
    if k < n {
      DealsStored(n, k + 1);
      assert IndexOfOutcome(Deals(k), k) == k;
      assert Store(Deals(k), Deals(n)[k..][0]) == Deals(k + 1);
      assert Deals(n)[k..][1..] == Deals(n)[k + 1..];
    }
  }

  lemma {:induction false} DealsCounted(n: nat)
    ensures |CountedOutcomes(Deals(n))| == n
  {
    if n > 0 {
      DealsCounted(n - 1);
      var o := Outcome(n - 1, true, true, LiveExternal);
      assert Deals(n) == Deals(n - 1) + [o];
      OutcomesSnoc(Deals(n - 1), o);
      assert n - 1 !in CountedOutcomes(Deals(n - 1));
    }
  }

  /** However many clients are required, some run completes the mission. */
  lemma AcquisitionCompletable(id: Id, spec: Spec)
    requires SpecOk(spec) && spec.AcquisitionSpec?
    ensures exists es :: LegalRun(Create(id, spec), es) && Run(Create(id, spec), es).status.Completed?
  {
    assert spec.required >= 0;
    hide *;
    DealsCount(spec.required);
    AcquisitionCompletableExactly(id, spec, Deals(spec.required));
    var es :| LegalRun(Create(id, spec), es) && Recorded(es) == Deals(spec.required) && Run(Create(id, spec), es).status.Completed?;
  }
}
