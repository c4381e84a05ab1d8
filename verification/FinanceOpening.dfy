/** Opening a budget and allocating from it: the two operations that move no records. */
module FinanceOpening {
  import opened Search
  import opened MapSum
  import opened FinanceModel
  import opened FinanceLedger
  import opened FinanceViews
  import opened FinanceInvariant
  import opened FinancePosting
  import opened FinanceSafety

  // ---- allocate ------------------------------------------------------------------------------------------

  predicate Allottable(s: State, o: string, amount: Amount) {
    o in s.objectives && SafeMoney(amount).Some? && SafeMoney(amount).value <= s.objectives[o].available
  }

  lemma AllottedWithin(s: State, o: string, m: string)
    requires Good(s) && Fresh(s) && o in s.objectives
    ensures var b, key := s.objectives[o], Key(o, m);
      && BudgetOk(b) && b.objectiveId == o && Normal(b.currency) && b.available == ObjectiveAvailable(b)
      && (key in s.allocations ==>
            var a := s.allocations[key];
            && a.id == key && a.objectiveId == o && a.missionId == m && a.currency == b.currency && AllocationOk(a)
            && a.allotted <= b.allotted)
  {
    hide AgreeAt, Linked, Logged, Key, Admitted;
    var key := Key(o, m);
    if key in s.allocations {
      var a := s.allocations[key];
      KeysTellApart(s, o, m, a.objectiveId, a.missionId);
      assert AddsUp(s, o, Allotted);
      SumCovers(s.allocations, Share(o, Allotted), key);
    }
  }

  function Allotting(t: State, o: string, m: string, cents: int): Posting
    requires Placed(t, o, m)
  {
    PostingTo(t, o, m, Balances(0, cents, 0, 0, 0),
              Entry(o, Some(m), MissionAllocated, cents, t.objectives[o].currency, Key(o, m)))
  }

  lemma AllocateDone(s: State, o: string, m: string, amount: Amount)
    requires Good(s) && Fresh(s)
    ensures Allocate(s, o, m, amount).Done? <==> Allottable(s, o, amount)
  {
    hide Good, Key, Fresh, NormalizeCurrency;
    if o in s.objectives {
      AllottedWithin(s, o, m);
    }
  }

  lemma AllocateShape(s: State, o: string, m: string, amount: Amount)
    requires Allocate(s, o, m, amount).Done?
    ensures var r, key := Allocate(s, o, m, amount), Key(o, m); var t := r.state;
      && Allottable(s, o, amount) && Placed(t, o, m) && r.record == t.allocations[key]
      && t.objectives == s.objectives[o := t.objectives[o]] && t.allocations == s.allocations[key := t.allocations[key]]
      && t.ledger == s.ledger + [Entry(o, Some(m), MissionAllocated, SafeMoney(amount).value, t.objectives[o].currency, t.allocations[key].id)]
      && t == s.(objectives := t.objectives, allocations := t.allocations, ledger := t.ledger)
  {
  }

  lemma AllocateAdds(s: State, o: string, m: string, amount: Amount)
    requires Good(s) && Fresh(s) && Allocate(s, o, m, amount).Done?
    ensures Placed(Allocate(s, o, m, amount).state, o, m) && SafeMoney(amount).Some?
    ensures Adds(s, Allotting(Allocate(s, o, m, amount).state, o, m, SafeMoney(amount).value))
  {
    hide Good, Fresh, Key, NormalizeCurrency;
    AllocateShape(s, o, m, amount);
    AllottedWithin(s, o, m);
  }

  lemma AllocatePosts(s: State, o: string, m: string, amount: Amount)
    requires Good(s) && Fresh(s) && Allocate(s, o, m, amount).Done?
    ensures var r := Allocate(s, o, m, amount);
      && Placed(r.state, o, m) && SafeMoney(amount).Some?
      && Posted(s, r.state, Allotting(r.state, o, m, SafeMoney(amount).value))
      && r.state == s.(objectives := r.state.objectives, allocations := r.state.allocations, ledger := r.state.ledger)
  {
    hide Good, Fresh, Key, NormalizeCurrency, BudgetOk, AllocationOk;
    AllocateShape(s, o, m, amount);
    AllocateAdds(s, o, m, amount);
  }

  /** An allocation moves no record. */
  lemma AllottingMatches(s: State, t: State, o: string, m: string, cents: int)
    requires Placed(t, o, m) && t.reservations == s.reservations && t.commitments == s.commitments && t.spends == s.spends
    ensures Matches(s, t, Allotting(t, o, m, cents))
  {
    hide Key, Sum;
  }

  lemma AllocateKeeps(s: State, o: string, m: string, amount: Amount)
    requires Good(s) && Fresh(s) && Allocate(s, o, m, amount).Done?
    ensures Good(Allocate(s, o, m, amount).state)
  {
    hide *;
    var t := Allocate(s, o, m, amount).state;
    AllocatePosts(s, o, m, amount);
    var p := Allotting(t, o, m, SafeMoney(amount).value);
    AllottingMatches(s, t, o, m, SafeMoney(amount).value);
    GoodParts(s);
    RecordsKept(s, p);
    FitsWithoutSpend(s, t, p, "");
    PostingKeeps(s, t, p);
  }

  // ---- create --------------------------------------------------------------------------------------------

  lemma CreateDone(s: State, o: string, currency: string, amount: Amount)
    ensures CreateBudget(s, o, currency, amount).Done? <==> o !in s.objectives && SafeMoney(amount).Some?
  {
    hide NormalizeCurrency;
  }

  /** `t` is `s` with budget `b` of an objective nothing was recorded under. */
  predicate Opened(s: State, t: State, b: Budget) {
    && b.objectiveId !in s.objectives && Admitted(b.objectiveId) && Normal(b.currency) && BudgetOk(b)
    && OfBudget(b) == Balances(b.total, 0, 0, 0, 0)
    && t == s.(objectives := s.objectives[b.objectiveId := b],
               ledger := s.ledger + [Entry(b.objectiveId, None, BudgetCreated, b.total, b.currency, b.objectiveId)])
  }

  lemma OpenedShape(s: State, t: State, b: Budget)
    requires AllValid(s) && Filed(s) && Linked(s) && Logged(s) && Opened(s, t, b)
    ensures AllValid(t) && Filed(t) && Logged(t)
  {
    hide Key, Admitted, NormalizeCurrency, OfBudget, Payable, AllocationOk, Linked;
    forall e | e in t.ledger ensures Traceable(t, e) {
      assert e in s.ledger ==> Traceable(s, e);
    }
  }

  lemma OpenedLinks(s: State, t: State, b: Budget)
    requires Linked(s) && Opened(s, t, b)
    ensures Linked(t)
  {
    hide Key, Admitted, NormalizeCurrency, OfBudget, BudgetOk;
    assert forall k | k in s.spends :: SpendFits(s, s.spends[k]);
  }

  lemma NothingFiled(s: State, o: string, m: string)
    requires Filed(s) && o !in s.objectives && Admitted(o)
    ensures Key(o, m) !in s.allocations
  {
    hide Key, Admitted;
    if Key(o, m) in s.allocations {
      var a := s.allocations[Key(o, m)];
      assert Admitted(s.objectives[a.objectiveId].objectiveId);
      AdmittedKeysAreDistinct(o, m, a.objectiveId, a.missionId);
      assert false;
    }
  }

  lemma OpenedStored(s: State, t: State, b: Budget, sc: Scope)
    requires Filed(s) && Opened(s, t, b)
    ensures Stored(t, sc) ==
            Plus(Stored(s, sc), if In(sc, b.objectiveId, None) then Balances(b.total, 0, 0, 0, 0) else ZERO)
  {
    hide Filed, Key, Admitted, Normal, BudgetOk;
    assert t.objectives == s.objectives[b.objectiveId := b] && t.allocations == s.allocations;
    assert OfBudget(b) == Balances(b.total, 0, 0, 0, 0) && b.objectiveId !in s.objectives && Admitted(b.objectiveId);
    if sc.o == b.objectiveId {
      if sc.OfMission? {
        NothingFiled(s, sc.o, sc.m);
        assert Stored(t, sc) == ZERO;
      } else {
        assert Stored(t, sc) == OfBudget(b);
      }
    } else {
      assert Stored(t, sc) == Stored(s, sc);
    }
  }

  /** Nothing was held, summed or logged for an objective without a budget. */
  lemma OpenedAgreesAt(s: State, t: State, b: Budget, sc: Scope)
    requires Logged(s) && Filed(s) && Opened(s, t, b) && AgreeAt(s, sc)
    ensures AgreeAt(t, sc)
  {
    hide Key, Admitted, Normal, Filed, BudgetOk, Stored, OfBudget, Sum;
    OpenedStored(s, t, b, sc);
    var e := Entry(b.objectiveId, None, BudgetCreated, b.total, b.currency, b.objectiveId);
    assert t.ledger == s.ledger + [e] && t.reservations == s.reservations && t.spends == s.spends && t.commitments == s.commitments;
    hide Opened;
    assert forall x | x in s.ledger :: Traceable(s, x);
    ReplayFrame(s, t, s.ledger, sc);
    assert t.ledger[..|t.ledger| - 1] == s.ledger;
  }

  lemma CreateOpens(s: State, o: string, currency: string, amount: Amount)
    requires Admitted(o) && CreateBudget(s, o, currency, amount).Done?
    ensures var r := CreateBudget(s, o, currency, amount);
      && SafeMoney(amount).Some? && Opened(s, r.state, r.record) && r.record.objectiveId == o && r.record.total == SafeMoney(amount).value
  {
    NormalizeIdempotent(currency);
    hide Admitted, NormalizeCurrency;
  }

  lemma CreateKeeps(s: State, o: string, currency: string, amount: Amount)
    requires Good(s) && Admitted(o) && CreateBudget(s, o, currency, amount).Done?
    ensures Good(CreateBudget(s, o, currency, amount).state)
  {
    var r := CreateBudget(s, o, currency, amount);
    var t := r.state;
    CreateOpens(s, o, currency, amount);
    OpenedShape(s, t, r.record);
    OpenedLinks(s, t, r.record);
    forall sc ensures AgreeAt(t, sc) {
      OpenedAgreesAt(s, t, r.record, sc);
    }
    forall p, part | p in t.objectives ensures AddsUp(t, p, part) {
      OpenedAddsUp(s, t, r.record, p, part);
    }
  }

  lemma OpenedAddsUp(s: State, t: State, b: Budget, p: string, part: Part)
    requires Filed(s) && Opened(s, t, b) && p in t.objectives && (p in s.objectives ==> AddsUp(s, p, part))
    ensures AddsUp(t, p, part)
  {
    hide Key, Admitted, NormalizeCurrency, BudgetOk;
    if p == b.objectiveId {
      SumZero(s.allocations, Share(p, part));
    }
  }
}
