/** Every run of the ledger: the three accounts agree, money is conserved, and nothing live is ever refused. */
module FinanceRuns {
  import opened Search
  import opened MapSum
  import opened FinanceModel
  import Ledger = FinanceLedger
  import opened FinanceViews
  import opened FinanceInvariant
  import opened FinancePosting
  import opened FinanceSafety
  import opened FinanceOpening

  datatype Event =
    | CreateBudget(o: string, currency: string, amount: Amount)
    | Allocate(o: string, m: string, amount: Amount)
    | Reserve(o: string, m: string, amount: Amount, id: string)
    | Release(rid: string)
    | Convert(rid: string, id: string)
    | CommitDirectly(o: string, m: string, amount: Amount, currency: string, id: string)
    | RecordSpend(cid: string, amount: Amount, id: string)

  function Outcome(s: State, e: Event): Ledger.Outcome<()> {
    match e
    case CreateBudget(o, currency, amount) => Plain(Ledger.CreateBudget(s, o, currency, amount))
    case Allocate(o, m, amount) => Plain(Ledger.Allocate(s, o, m, amount))
    case Reserve(o, m, amount, id) => Plain(Ledger.Reserve(s, o, m, amount, id))
    case Release(rid) => Plain(Ledger.Release(s, rid))
    case Convert(rid, id) => Plain(Ledger.Convert(s, rid, id))
    case CommitDirectly(o, m, amount, currency, id) => Plain(Ledger.CommitDirectly(s, o, m, amount, currency, id))
    case RecordSpend(cid, amount, id) => Plain(Ledger.RecordSpend(s, cid, amount, id))
  }

  function Plain<R>(r: Ledger.Outcome<R>): Ledger.Outcome<()> {
    if r.Done? then Ledger.Done(r.state, ()) else Ledger.Refused(r.error)
  }

  /** Objectives are admitted ones; generated identifiers are new. */
  predicate Legal(s: State, e: Event) {
    match e
    case CreateBudget(o, _, _) => Admitted(o)
    case Reserve(_, _, _, id) => id !in s.reservations
    case Convert(_, id) => id !in s.commitments
    case CommitDirectly(_, _, _, _, id) => id !in s.commitments
    case RecordSpend(_, _, id) => id !in s.spends
    case _ => true
  }

  /** Load, operate, persist unless refused. */
  function Apply(stored: State, e: Event): State { Ledger.Commit(stored, Outcome(Reload(stored), e)) }

  predicate Accepts(stored: State, e: Event) { Outcome(Reload(stored), e).Done? }

  function Run(es: seq<Event>): State
    decreases |es|
  {
    if es == [] then EMPTY else Apply(Run(es[..|es| - 1]), es[|es| - 1])
  }

  predicate LegalRun(es: seq<Event>)
    decreases |es|
  {
    es == [] || (LegalRun(es[..|es| - 1]) && Legal(Run(es[..|es| - 1]), es[|es| - 1]))
  }

  lemma OutcomeIsGood(s: State, e: Event)
    requires Good(s) && Fresh(s) && Legal(s, e) && Outcome(s, e).Done?
    ensures Good(Outcome(s, e).state)
  {
    hide Good, Fresh, Live, Spendable, Ledger.CreateBudget, Ledger.Allocate, Ledger.Reserve, Ledger.Release, Ledger.Convert,
         Ledger.CommitDirectly, Ledger.RecordSpend;
    match e
    case CreateBudget(o, currency, amount) =>
      CreateKeeps(s, o, currency, amount);
    case Allocate(o, m, amount) =>
      AllocateKeeps(s, o, m, amount);
    case Reserve(o, m, amount, id) =>
      ReserveKeeps(s, o, m, amount, id);
    case Release(rid) =>
      ReleaseDone(s, rid);
      ReleaseKeeps(s, rid);
    case Convert(rid, id) =>
      ConvertDone(s, rid, id);
      ConvertKeeps(s, rid, id);
    case CommitDirectly(o, m, amount, currency, id) =>
      CommitKeeps(s, o, m, amount, currency, id);
    case RecordSpend(cid, amount, id) =>
      SpendDone(s, cid, amount, id);
      SpendKeeps(s, cid, amount, id);
  }

  lemma StepKeeps(s: State, e: Event)
    requires Good(s) && Legal(s, e)
    ensures Good(Apply(s, e))
  {
    hide Good, Fresh, Reload, Outcome;
    ReloadKeeps(s);
    if Outcome(Reload(s), e).Done? {
      OutcomeIsGood(Reload(s), e);
    }
  }

  lemma EmptyIsGood()
    ensures Good(EMPTY)
  {
    assert forall sc :: AgreeAt(EMPTY, sc);
  }

  /** Every stored state of every run is good. */
  lemma {:induction false} RunsAreGood(es: seq<Event>)
    requires LegalRun(es)
    ensures Good(Run(es))
    decreases |es|
  {
    if es == [] {
      EmptyIsGood();
    } else {
      RunsAreGood(es[..|es| - 1]);
      StepKeeps(Run(es[..|es| - 1]), es[|es| - 1]);
    }
  }

  // ---- the theorems --------------------------------------------------------------------------------------

  /** A state this code wrote is never taken for a corrupt one: reading it back keeps every record and entry. */
  lemma NothingIsLostOnReload(es: seq<Event>)
    requires LegalRun(es)
    ensures var s := Run(es); var t := Reload(s);
      && AllValid(s) && t.ledger == s.ledger
      && t.reservations == s.reservations && t.commitments == s.commitments && t.spends == s.spends
      && (forall sc :: Stored(t, sc) == Stored(s, sc))
  {
    RunsAreGood(es);
    ReloadKeeps(Run(es));
  }

  /** Replaying the ledger rebuilds every balance of every objective and mission, and so does adding up the records. */
  lemma ThreeAccountsAgree(es: seq<Event>, sc: Scope)
    requires LegalRun(es)
    ensures var s := Run(es);
      && Replay(s, s.ledger, sc) == Stored(s, sc)
      && Stored(s, sc).reserved == Sum(s.reservations, ActiveIn(sc))
      && Stored(s, sc).committed == Sum(s.commitments, UnsettledIn(sc))
      && Stored(s, sc).spent == Sum(s.spends, SpentIn(sc))
  {
    RunsAreGood(es);
    assert AgreeAt(Run(es), sc);
  }

  /** Where a mission's money is. */
  ghost function Outlay(o: string): Allocation -> int {
    (a: Allocation) => if a.objectiveId == o then a.available + a.reserved + a.committed + a.spent else 0
  }

  ghost predicate Conserved(s: State, o: string)
    requires o in s.objectives
  {
    var b := s.objectives[o];
    && b.total == (b.total - b.allotted) + Sum(s.allocations, Outlay(o))
    && 0 <= b.reserved + b.committed + b.spent <= b.allotted <= b.total
  }

  /** Every cent of a budget is unallotted, or available, reserved, committed or spent in exactly one mission. */
  lemma MoneyIsConserved(es: seq<Event>, o: string)
    requires LegalRun(es) && o in Reload(Run(es)).objectives
    ensures Conserved(Reload(Run(es)), o)
    ensures forall part :: AddsUp(Reload(Run(es)), o, part)
  {
    hide *;
    RunsAreGood(es);
    ReloadKeeps(Run(es));
    GoodIsConserved(Reload(Run(es)), o);
  }

  lemma GoodIsConserved(s: State, o: string)
    requires Good(s) && Fresh(s) && o in s.objectives
    ensures Conserved(s, o) && forall part :: AddsUp(s, o, part)
  {
    hide AgreeAt, Filed, Linked, Logged, Fresh;
    RoomCovers(s, o, "");
    OutlayIsAllotted(s, o);
    assert AddsUp(s, o, Allotted);
  }

  lemma OutlayIsAllotted(s: State, o: string)
    requires Fresh(s)
    ensures Sum(s.allocations, Outlay(o)) == Sum(s.allocations, Share(o, Allotted))
  {
    hide DeriveBudget;
    SumSame(s.allocations, s.allocations, Outlay(o), Share(o, Allotted));
  }

  // ---- what is accepted ----------------------------------------------------------------------------------

  predicate Positive(amount: Amount, bound: int) { SafeMoney(amount).Some? && 0 < SafeMoney(amount).value <= bound }

  predicate Covered(s: State, o: string, m: string, amount: Amount) {
    Ledger.Placed(s, o, m) && Positive(amount, MissionAvailable(s.allocations[Key(o, m)]))
  }

  /** What a caller can check beforehand. */
  predicate Acceptable(s: State, e: Event) {
    match e
    case CreateBudget(o, _, amount) => o !in s.objectives && SafeMoney(amount).Some?
    case Allocate(o, m, amount) =>
      o in s.objectives && SafeMoney(amount).Some? && SafeMoney(amount).value <= ObjectiveAvailable(s.objectives[o])
    case Reserve(o, m, amount, _) => Covered(s, o, m, amount)
    case Release(rid) => Live(s, rid)
    case Convert(rid, _) => Live(s, rid)
    case CommitDirectly(o, m, amount, currency, _) =>
      Covered(s, o, m, amount) && s.objectives[o].currency == NormalizeCurrency(currency)
    case RecordSpend(cid, amount, _) =>
      cid in s.commitments && !s.commitments[cid].settled && Positive(amount, s.commitments[cid].amount)
  }

  lemma OutcomeExactly(s: State, e: Event)
    requires Good(s) && Fresh(s) && Legal(s, e)
    ensures Outcome(s, e).Done? <==> Acceptable(s, e)
  {
    hide Good, Key, NormalizeCurrency, DeriveBudget, ObjectiveAvailable, Ledger.CreateBudget, Ledger.Allocate, Ledger.Reserve,
         Ledger.Release, Ledger.Convert, Ledger.CommitDirectly, Ledger.RecordSpend;
    match e
    case CreateBudget(o, currency, amount) =>
      CreateDone(s, o, currency, amount);
    case Allocate(o, m, amount) =>
      AllocateDone(s, o, m, amount);
      if o in s.objectives {
        AllottedWithin(s, o, m);
      }
    case Reserve(o, m, amount, id) =>
      ReserveDone(s, o, m, amount, id);
    case Release(rid) =>
      ReleaseDone(s, rid);
    case Convert(rid, id) =>
      ConvertDone(s, rid, id);
    case CommitDirectly(o, m, amount, currency, id) =>
      CommitDone(s, o, m, amount, currency, id);
    case RecordSpend(cid, amount, id) =>
      SpendDone(s, cid, amount, id);
  }

  /** Each operation succeeds exactly when it should; in particular live records can always be released, converted
      and spent, and no validator ever refuses an operation that passed its own checks. */
  lemma AcceptedExactly(es: seq<Event>, e: Event)
    requires LegalRun(es) && Legal(Run(es), e)
    ensures Accepts(Run(es), e) <==> Acceptable(Reload(Run(es)), e)
  {
    hide Good, Fresh, Reload, Outcome, Acceptable, Stored;
    RunsAreGood(es);
    ReloadKeeps(Run(es));
    OutcomeExactly(Reload(Run(es)), e);
  }

  // ---- over time -----------------------------------------------------------------------------------------

  /** Records stay, and a closed record stays closed. */
  predicate RecordsFollow(s: State, t: State) {
    && (forall k | k in s.reservations :: k in t.reservations &&
          (s.reservations[k].status.Active? || t.reservations[k] == s.reservations[k]))
    && (forall k | k in s.commitments :: k in t.commitments && (!s.commitments[k].settled || t.commitments[k] == s.commitments[k]))
    && (forall k | k in s.spends :: k in t.spends && t.spends[k] == s.spends[k])
  }

  /** `t` may follow `s`: entries are only added, budgets and records stay, and nothing spent is unspent. */
  predicate Follows(s: State, t: State) {
    && s.ledger <= t.ledger && s.objectives.Keys <= t.objectives.Keys && s.allocations.Keys <= t.allocations.Keys
    && (forall o | o in s.objectives :: t.objectives[o].total == s.objectives[o].total && t.objectives[o].spent >= s.objectives[o].spent)
    && RecordsFollow(s, t)
  }

  lemma PostedFollows(s: State, t: State, p: Posting)
    requires Posted(s, t, p) && p.change.spent >= 0 && RecordsFollow(s, t)
    ensures Follows(s, t)
  {
    hide Key, RecordsFollow, Effect, Extends, Resolved, BudgetOk, AllocationOk;
  }

  lemma CreationFollows(s: State, o: string, currency: string, amount: Amount)
    requires Ledger.CreateBudget(s, o, currency, amount).Done?
    ensures Follows(s, Ledger.CreateBudget(s, o, currency, amount).state)
  {
    hide NormalizeCurrency;
  }

  lemma ReservationFollows(s: State, e: Event)
    requires Good(s) && Fresh(s) && Legal(s, e) && Outcome(s, e).Done? && (e.Reserve? || e.Release? || e.Convert?)
    ensures Follows(s, Outcome(s, e).state)
  {
    hide Good, Fresh, Follows, Posted, Key, Affordable, Allottable, Ledger.Reserve, Ledger.Release, Ledger.Convert;
    match e
    case Reserve(o, m, amount, id) =>
      ReserveDone(s, o, m, amount, id);
      ReservePosts(s, o, m, amount, id);
      var r := Ledger.Reserve(s, o, m, amount, id);
      PostedFollows(s, r.state, Reserving(s, r.state, r.record));
    case Release(rid) =>
      ReleaseDone(s, rid);
      ReleasePosts(s, rid);
      var r := Ledger.Release(s, rid);
      PostedFollows(s, r.state, Releasing(s, r.state, r.record));
    case Convert(rid, id) =>
      ConvertDone(s, rid, id);
      ConvertPosts(s, rid, id);
      var r := Ledger.Convert(s, rid, id);
      PostedFollows(s, r.state, Converting(s, r.state, r.record));
  }

  lemma OutcomeFollows(s: State, e: Event)
    requires Good(s) && Fresh(s) && Legal(s, e) && Outcome(s, e).Done?
    ensures Follows(s, Outcome(s, e).state)
  {
    hide Good, Fresh, Follows, Posted, Key, Affordable, Allottable, Ledger.CreateBudget, Ledger.Allocate, Ledger.Reserve,
         Ledger.Release, Ledger.Convert, Ledger.CommitDirectly, Ledger.RecordSpend;
    if e.Reserve? || e.Release? || e.Convert? {
      ReservationFollows(s, e);
      return;
    }
    match e
    case CreateBudget(o, currency, amount) =>
      CreationFollows(s, o, currency, amount);
    case Allocate(o, m, amount) =>
      AllocatePosts(s, o, m, amount);
      var t := Ledger.Allocate(s, o, m, amount).state;
      PostedFollows(s, t, Allotting(t, o, m, SafeMoney(amount).value));
    case CommitDirectly(o, m, amount, currency, id) =>
      CommitDone(s, o, m, amount, currency, id);
      CommitPosts(s, o, m, amount, currency, id);
      var r := Ledger.CommitDirectly(s, o, m, amount, currency, id);
      PostedFollows(s, r.state, Committing(s, r.state, r.record));
    case RecordSpend(cid, amount, id) =>
      SpendDone(s, cid, amount, id);
      SpendPosts(s, cid, amount, id);
      var r := Ledger.RecordSpend(s, cid, amount, id);
      PostedFollows(s, r.state, Spending(s, r.state, s.commitments[cid], r.record));
  }

  lemma ReservationNamed(s: State, id: string)
    requires Good(s) && id in s.reservations
    ensures var r := s.reservations[id]; r.id == id && (r.objectiveId in s.objectives ==> s.objectives[r.objectiveId].objectiveId == r.objectiveId)
  {
    hide Logged, Agreement, AllValid, SpendFits, At;
  }

  lemma CommitmentNamed(s: State, id: string)
    requires Good(s) && id in s.commitments
    ensures var c := s.commitments[id]; c.id == id && (c.objectiveId in s.objectives ==> s.objectives[c.objectiveId].objectiveId == c.objectiveId)
  {
    hide Logged, Agreement, AllValid, SpendFits, At;
  }

  lemma RederivedFollows(s: State, t: State)
    requires Rederived(s, t)
    ensures Follows(s, t) && Follows(s, s)
  {
    hide NormalizeCurrency, ObjectiveAvailable;
  }

  lemma StepFollows(s: State, e: Event)
    requires Good(s) && Legal(s, e)
    ensures Follows(s, Apply(s, e))
  {
    hide Good, Fresh, Reload, Outcome, Stored, Follows, Rederived, AllValid, Filed, Linked, Logged, Agreement;
    var t := Reload(s);
    ReloadKeeps(s);
    GoodParts(s);
    ReloadRederives(s);
    RederivedFollows(s, t);
    if Outcome(t, e).Done? {
      OutcomeFollows(t, e);
      FollowsTransitive(s, t, Outcome(t, e).state);
    }
  }

  lemma FollowsTransitive(s: State, t: State, u: State)
    requires Follows(s, t) && Follows(t, u)
    ensures Follows(s, u)
  {}

  /** Along a run nothing recorded is ever lost or reopened. */
  lemma {:induction false} RunsFollow(es: seq<Event>, n: nat)
    requires LegalRun(es) && n <= |es|
    ensures LegalRun(es[..n]) && Follows(Run(es[..n]), Run(es))
    decreases |es|
  {
    hide Good, Apply, Legal;
    if n == |es| {
      assert es[..n] == es;
      assert Follows(Run(es), Run(es));
    } else {
      var front := es[..|es| - 1];
      assert front[..n] == es[..n];
      RunsFollow(front, n);
      RunsAreGood(front);
      StepFollows(Run(front), es[|es| - 1]);
      FollowsTransitive(Run(es[..n]), Run(front), Run(es));
    }
  }

  /** The record an event closes for good. */
  predicate Closes(e: Event, id: string) {
    (e.Release? && e.rid == id) || (e.Convert? && e.rid == id)
  }

  lemma ClosingCloses(s: State, e: Event, id: string)
    requires Good(s) && Closes(e, id) && Accepts(s, e)
    ensures var t := Apply(s, e); Live(s, id) && id in t.reservations && !Live(t, id)
  {
    hide Good, Fresh, Reload, Stored;
    ReloadKeeps(s);
    if id in s.reservations {
      ReservationNamed(Reload(s), id);
    }
  }

  /** A reservation is released or converted at most once in a run, never both. */
  lemma ReservationsCloseOnce(es: seq<Event>, i: nat, j: nat, id: string)
    requires LegalRun(es) && i < j < |es| && Closes(es[i], id) && Closes(es[j], id)
    ensures !(Accepts(Run(es[..i]), es[i]) && Accepts(Run(es[..j]), es[j]))
  {
    RunPrefix(es, i, j);
    RunsAreGood(es[..i]);
    RunsAreGood(es[..j]);
    if Accepts(Run(es[..i]), es[i]) && Accepts(Run(es[..j]), es[j]) {
      ClosingCloses(Run(es[..i]), es[i], id);
      ClosingCloses(Run(es[..j]), es[j], id);
    }
  }

  lemma SpendingSettles(s: State, e: Event)
    requires Good(s) && e.RecordSpend? && Accepts(s, e)
    ensures var t := Apply(s, e);
      && e.cid in s.commitments && !s.commitments[e.cid].settled && e.cid in t.commitments && t.commitments[e.cid].settled
  {
    hide Good, Fresh, Reload, Stored;
    ReloadKeeps(s);
    if e.cid in s.commitments {
      CommitmentNamed(Reload(s), e.cid);
    }
  }

  /** A commitment is spent at most once in a run. */
  lemma CommitmentsAreSpentOnce(es: seq<Event>, i: nat, j: nat)
    requires LegalRun(es) && i < j < |es| && es[i].RecordSpend? && es[j].RecordSpend? && es[i].cid == es[j].cid
    ensures !(Accepts(Run(es[..i]), es[i]) && Accepts(Run(es[..j]), es[j]))
  {
    RunPrefix(es, i, j);
    RunsAreGood(es[..i]);
    RunsAreGood(es[..j]);
    if Accepts(Run(es[..i]), es[i]) && Accepts(Run(es[..j]), es[j]) {
      SpendingSettles(Run(es[..i]), es[i]);
      SpendingSettles(Run(es[..j]), es[j]);
    }
  }

  lemma RunPrefix(es: seq<Event>, i: nat, j: nat)
    requires LegalRun(es) && i < j < |es|
    ensures LegalRun(es[..i]) && LegalRun(es[..j]) && Run(es[..i + 1]) == Apply(Run(es[..i]), es[i])
    ensures Follows(Run(es[..i + 1]), Run(es[..j]))
  {
    hide Follows, Apply, Legal;
    RunsFollow(es, i);
    RunsFollow(es, j);
    RunsFollow(es[..j], i + 1);
    assert es[..j][..i + 1] == es[..i + 1] && es[..i + 1][..i] == es[..i];
  }
}
