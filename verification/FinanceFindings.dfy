/** How the operations undo and imitate one another, and where the ledger's numbers are not what they seem. */
module FinanceFindings {
  import opened Search
  import opened MapSum
  import opened FinanceModel
  import Ledger = FinanceLedger
  import opened FinanceViews
  import opened FinanceInvariant
  import opened FinancePosting
  import opened FinanceSafety
  import opened FinanceOpening
  import opened FinanceRuns

  /** What an accepted event adds to the balances of its mission and objective. */
  function Change(s: State, e: Event): Balances {
    match e
    case CreateBudget(_, _, amount) => if SafeMoney(amount).Some? then Balances(SafeMoney(amount).value, 0, 0, 0, 0) else ZERO
    case Allocate(_, _, amount) => if SafeMoney(amount).Some? then Balances(0, SafeMoney(amount).value, 0, 0, 0) else ZERO
    case Reserve(_, _, amount, _) => if SafeMoney(amount).Some? then Balances(0, 0, SafeMoney(amount).value, 0, 0) else ZERO
    case Release(rid) => if rid in s.reservations then Balances(0, 0, -s.reservations[rid].amount, 0, 0) else ZERO
    case Convert(rid, _) =>
      if rid in s.reservations then Balances(0, 0, -s.reservations[rid].amount, s.reservations[rid].amount, 0) else ZERO
    case CommitDirectly(_, _, amount, _, _) =>
      if SafeMoney(amount).Some? then Balances(0, 0, 0, SafeMoney(amount).value, 0) else ZERO
    case RecordSpend(cid, amount, _) =>
      if cid in s.commitments && SafeMoney(amount).Some?
      then Balances(0, 0, 0, -s.commitments[cid].amount, SafeMoney(amount).value) else ZERO
  }

  /** Whose balances an event touches. */
  predicate Touches(s: State, e: Event, sc: Scope) {
    match e
    case CreateBudget(o, _, _) => In(sc, o, None)
    case Allocate(o, m, _) => In(sc, o, Some(m))
    case Reserve(o, m, _, _) => In(sc, o, Some(m))
    case CommitDirectly(o, m, _, _, _) => In(sc, o, Some(m))
    case Release(rid) => rid in s.reservations && In(sc, s.reservations[rid].objectiveId, Some(s.reservations[rid].missionId))
    case Convert(rid, _) => rid in s.reservations && In(sc, s.reservations[rid].objectiveId, Some(s.reservations[rid].missionId))
    case RecordSpend(cid, _, _) => cid in s.commitments && In(sc, s.commitments[cid].objectiveId, Some(s.commitments[cid].missionId))
  }

  /** An accepted event moves exactly the balances it names, by exactly its change; every other balance stays. */
  lemma EventsMoveBalances(s: State, e: Event, sc: Scope)
    requires Good(s) && Legal(s, e) && Accepts(s, e)
    ensures Stored(Apply(s, e), sc) == Plus(Stored(s, sc), if Touches(s, e, sc) then Change(s, e) else ZERO)
  {
    hide Good, Fresh, Reload, Outcome, Stored, Plus;
    ReloadKeeps(s);
    var t := Reload(s);
    assert Legal(t, e) && Outcome(t, e).Done? && Apply(s, e) == Outcome(t, e).state;
    OutcomeMoves(t, e, sc);
  }

  lemma OutcomeMoves(s: State, e: Event, sc: Scope)
    requires Good(s) && Fresh(s) && Legal(s, e) && Outcome(s, e).Done?
    ensures Stored(Outcome(s, e).state, sc) == Plus(Stored(s, sc), if Touches(s, e, sc) then Change(s, e) else ZERO)
  {
    hide Good, Fresh, Filed, Linked, Logged, AllValid, Agreement, Posted, Opened, Stored, Plus, Key, Ledger.Allocate,
         Ledger.Reserve, Ledger.Release, Ledger.Convert, Ledger.CommitDirectly, Ledger.RecordSpend;
    OutcomeExactly(s, e);
    GoodParts(s);
    match e
    case CreateBudget(o, currency, amount) =>
      var r := Ledger.CreateBudget(s, o, currency, amount);
      CreateOpens(s, o, currency, amount);
      OpenedStored(s, r.state, r.record, sc);
    case Allocate(o, m, amount) =>
      AllocatePosts(s, o, m, amount);
      var t := Ledger.Allocate(s, o, m, amount).state;
      PostedStored(s, t, Allotting(t, o, m, SafeMoney(amount).value), sc);
    case Reserve(o, m, amount, id) =>
      ReserveDone(s, o, m, amount, id);
      ReservePosts(s, o, m, amount, id);
      var r := Ledger.Reserve(s, o, m, amount, id);
      PostedStored(s, r.state, Reserving(s, r.state, r.record), sc);
    case Release(rid) =>
      ReleasePosts(s, rid);
      var r := Ledger.Release(s, rid);
      PostedStored(s, r.state, Releasing(s, r.state, r.record), sc);
    case Convert(rid, id) =>
      ConvertPosts(s, rid, id);
      var r := Ledger.Convert(s, rid, id);
      PostedStored(s, r.state, Converting(s, r.state, r.record), sc);
    case CommitDirectly(o, m, amount, currency, id) =>
      CommitDone(s, o, m, amount, currency, id);
      CommitPosts(s, o, m, amount, currency, id);
      var r := Ledger.CommitDirectly(s, o, m, amount, currency, id);
      PostedStored(s, r.state, Committing(s, r.state, r.record), sc);
    case RecordSpend(cid, amount, id) =>
      SpendPosts(s, cid, amount, id);
      var r := Ledger.RecordSpend(s, cid, amount, id);
      PostedStored(s, r.state, Spending(s, r.state, s.commitments[cid], r.record), sc);
  }

  // ---- operations against one another ----------------------------------------------------------------------

  lemma ReserveRecords(s: State, o: string, m: string, amount: Amount, id: string)
    requires Good(s) && Legal(s, Reserve(o, m, amount, id)) && Accepts(s, Reserve(o, m, amount, id))
    ensures var t := Apply(s, Reserve(o, m, amount, id));
      && SafeMoney(amount).Some? && Live(t, id) && t.commitments == s.commitments
      && var r := t.reservations[id]; r.objectiveId == o && r.missionId == m && r.amount == SafeMoney(amount).value
  {
    hide Good, Fresh, Reload, Ledger.Reserve, Posted, Stored;
    ReloadKeeps(s);
    ReserveDone(Reload(s), o, m, amount, id);
    ReservePosts(Reload(s), o, m, amount, id);
  }

  /** Releasing a fresh reservation always succeeds and restores every balance of every scope. */
  lemma ReleaseUndoesReserve(s: State, o: string, m: string, amount: Amount, id: string, sc: Scope)
    requires Good(s) && Legal(s, Reserve(o, m, amount, id)) && Accepts(s, Reserve(o, m, amount, id))
    ensures var t := Apply(s, Reserve(o, m, amount, id));
      Accepts(t, Release(id)) && Stored(Apply(t, Release(id)), sc) == Stored(s, sc)
  {
    hide Good, Apply, Accepts, Stored;
    var t := Apply(s, Reserve(o, m, amount, id));
    ReserveRecords(s, o, m, amount, id);
    StepKeeps(s, Reserve(o, m, amount, id));
    assert Legal(t, Release(id)) && Closes(Release(id), id);
    LiveAccepts(t, id, Release(id));
    EventsMoveBalances(s, Reserve(o, m, amount, id), sc);
    EventsMoveBalances(t, Release(id), sc);
  }

  lemma LiveAccepts(t: State, id: string, e: Event)
    requires Good(t) && Live(t, id) && Closes(e, id) && Legal(t, e)
    ensures Accepts(t, e)
  {
    hide Good, Reload, Fresh, Stored, Accepts, Legal;
    ReloadKeeps(t);
    OutcomeExactlyAfterReload(t, e);
  }

  lemma OutcomeExactlyAfterReload(s: State, e: Event)
    requires Good(s) && Legal(s, e)
    ensures Accepts(s, e) <==> Acceptable(Reload(s), e)
  {
    hide Good, Reload, Fresh, Stored, Outcome, Acceptable;
    ReloadKeeps(s);
    OutcomeExactly(Reload(s), e);
  }

  /** Reserving and then converting leaves the balances a direct commitment would have left. */
  lemma ConvertImitatesCommit(s: State, o: string, m: string, amount: Amount, rid: string, id: string, currency: string, sc: Scope)
    requires Good(s) && Legal(s, Reserve(o, m, amount, rid)) && Accepts(s, Reserve(o, m, amount, rid))
    requires id !in s.commitments && Accepts(s, CommitDirectly(o, m, amount, currency, id))
    ensures var t := Apply(s, Reserve(o, m, amount, rid));
      && Accepts(t, Convert(rid, id))
      && Stored(Apply(t, Convert(rid, id)), sc) == Stored(Apply(s, CommitDirectly(o, m, amount, currency, id)), sc)
  {
    hide Good, Apply, Accepts, Stored;
    var t := Apply(s, Reserve(o, m, amount, rid));
    ReserveRecords(s, o, m, amount, rid);
    StepKeeps(s, Reserve(o, m, amount, rid));
    assert Legal(t, Convert(rid, id)) && Legal(s, CommitDirectly(o, m, amount, currency, id)) && Closes(Convert(rid, id), rid);
    LiveAccepts(t, rid, Convert(rid, id));
    EventsMoveBalances(s, Reserve(o, m, amount, rid), sc);
    EventsMoveBalances(t, Convert(rid, id), sc);
    EventsMoveBalances(s, CommitDirectly(o, m, amount, currency, id), sc);
  }

  function Free(b: Balances): int { b.allotted - b.reserved - b.committed - b.spent }

  /** Spending less than was committed frees the difference, for the mission and for the objective. */
  lemma SpendFreesTheRest(s: State, cid: string, amount: Amount, id: string)
    requires Good(s) && Legal(s, RecordSpend(cid, amount, id)) && Accepts(s, RecordSpend(cid, amount, id))
    ensures var t := Apply(s, RecordSpend(cid, amount, id));
      && cid in s.commitments && SafeMoney(amount).Some?
      && var c, cents := s.commitments[cid], SafeMoney(amount).value;
      && cents <= c.amount
      && Free(Stored(t, OfMission(c.objectiveId, c.missionId))) == Free(Stored(s, OfMission(c.objectiveId, c.missionId))) + c.amount - cents
      && Free(Stored(t, OfObjective(c.objectiveId))) == Free(Stored(s, OfObjective(c.objectiveId))) + c.amount - cents
  {
    hide Good, Reload, Fresh, Apply, Accepts, Stored;
    var e := RecordSpend(cid, amount, id);
    ReloadKeeps(s);
    OutcomeExactlyAfterReload(s, e);
    var c := s.commitments[cid];
    EventsMoveBalances(s, e, OfMission(c.objectiveId, c.missionId));
    EventsMoveBalances(s, e, OfObjective(c.objectiveId));
  }

  // ---- numbers that are not what they seem -----------------------------------------------------------------

  /** An objective's `available` counts money put to use twice, once as allotted and once as held: it is what is really
      unallotted exactly when nothing is held or nothing is left, and OVER_BUDGET never means money was overspent. */
  lemma ObjectiveAvailabilityIsConservative(s: State, o: string)
    requires Good(s) && Fresh(s) && o in s.objectives
    ensures var b := s.objectives[o]; var held := b.reserved + b.committed + b.spent;
      && 0 <= b.available <= b.total - b.allotted
      && (b.available == b.total - b.allotted <==> held == 0 || b.allotted == b.total)
      && (b.status.OverBudget? <==> held > b.total - b.allotted)
      && held <= b.allotted <= b.total
  {
    GoodIsConserved(s, o);
    assert BudgetOk(s.objectives[o]) by { hide Filed, Linked, Logged, Agreement; }
    assert DeriveBudget(s.objectives[o]) == s.objectives[o];
  }

  /** The allocation handed back is up to date exactly when it was just opened or nothing was added. */
  lemma AllocateReturnsStaleExactly(s: State, o: string, m: string, amount: Amount)
    requires Good(s) && Fresh(s) && Ledger.Allocate(s, o, m, amount).Done?
    ensures SafeMoney(amount).Some?
    ensures var a := Ledger.Allocate(s, o, m, amount).record;
      a.available == MissionAvailable(a) <==> Key(o, m) !in s.allocations || SafeMoney(amount).value == 0
  {
    hide Good, Key, NormalizeCurrency, DeriveBudget, BudgetOk;
  }

  /** Without the admitted shape of identifiers two objectives can share an allocation, and then allocating to one of
      them breaks the other's accounts, always except for an allocation of nothing. */
  lemma SharedKeyBreaksConservation(s: State, o: string, p: string, n: string, amount: Amount)
    requires Key(p, n) in s.allocations && s.allocations[Key(p, n)].objectiveId == o && o != p
    requires AddsUp(s, o, Allotted) && o in s.objectives && Ledger.Allocate(s, p, n, amount).Done?
    ensures SafeMoney(amount).Some?
    ensures AddsUp(Ledger.Allocate(s, p, n, amount).state, o, Allotted) <==> SafeMoney(amount).value == 0
  {
    hide Key, NormalizeCurrency, DeriveBudget, BudgetOk;
    var t := Ledger.Allocate(s, p, n, amount).state;
    SumUpdate(s.allocations, Share(o, Allotted), Key(p, n), t.allocations[Key(p, n)]);
  }

  /** Such identifiers exist. */
  lemma SharedKeyExample()
    ensures Key("a", "b_c") == Key("a_b", "c") && !Admitted("a") && !Admitted("a_b")
  {
    KeysCollideExactly("a", "b_c", "a_b", "c");
  }
}
