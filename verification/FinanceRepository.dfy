/** The repository object: each operation loads the ledger under the lock, changes it step by step and persists it. */
module FinanceRepository {
  import opened Search
  import opened FinanceModel
  import Ledger = FinanceLedger
  import opened FinanceViews
  import opened FinanceInvariant
  import Runs = FinanceRuns

  class FinanceRepository {
    var stored: State

    /** A new repository finds no ledger file. */
    constructor ()
      ensures stored == EMPTY && Good(stored)
    {
      stored := EMPTY;
      Runs.EmptyIsGood();
    }

    method GetObjectiveBudget(o: string) returns (budget: Option<Budget>)
      ensures budget == if o in Reload(stored).objectives then Some(Reload(stored).objectives[o]) else None
      ensures Good(stored) ==>
                (budget.Some? <==> o in stored.objectives) &&
                (budget.Some? ==> OfBudget(budget.value) == Replay(stored, stored.ledger, OfObjective(o)))
    {
      var state := Reload(stored);
      if o in state.objectives {
        budget := Some(state.objectives[o]);
      } else {
        budget := None;
      }
      if Good(stored) {
        ReloadKeeps(stored);
        ReloadRederives(stored);
        assert Stored(state, OfObjective(o)) == Stored(stored, OfObjective(o));
        assert AgreeAt(stored, OfObjective(o));
      }
    }

    method CreateObjectiveBudget(o: string, currency: string, total: Amount) returns (r: Ledger.Outcome<Budget>)
      modifies this
      ensures r == Ledger.CreateBudget(Reload(old(stored)), o, currency, total)
      ensures stored == Ledger.Commit(old(stored), r)
      ensures old(Good(stored)) && Admitted(o) ==> Good(stored)
    {
      ghost var before := stored;
      var state := Reload(stored);
      if o in state.objectives {
        return Ledger.Refused(Ledger.AlreadyExists);
      }
      var money := SafeMoney(total);
      if money.None? {
        return Ledger.Refused(Ledger.InvalidAmount);
      }
      var budget := Budget(o, currency, money.value, 0, 0, 0, 0, 0, Unset, 1);
      if !BudgetOk(budget) {
        return Ledger.Refused(Ledger.ValidatorRefused);
      }
      budget := DeriveBudget(budget);
      state := state.(objectives := state.objectives[o := budget]);
      state := state.(ledger := state.ledger + [Entry(o, None, BudgetCreated, budget.total, budget.currency, o)]);
      stored := state;
      r := Ledger.Done(state, budget);
      Kept(before, Runs.CreateBudget(o, currency, total));
    }

    method AllocateToMission(o: string, m: string, amount: Amount) returns (r: Ledger.Outcome<Allocation>)
      modifies this
      ensures r == Ledger.Allocate(Reload(old(stored)), o, m, amount)
      ensures stored == Ledger.Commit(old(stored), r)
      ensures old(Good(stored)) ==> Good(stored)
    {
      hide Good, Reload, Key, NormalizeCurrency, SafeMoney, BudgetOk, AllocationOk, Payable, DeriveBudget,
           DeriveAllocation;
      ghost var before := stored;
      var state := Reload(stored);
      if o !in state.objectives {
        return Ledger.Refused(Ledger.NotFound);
      }
      var budget := state.objectives[o];
      var money := SafeMoney(amount);
      if money.None? {
        return Ledger.Refused(Ledger.InvalidAmount);
      }
      var cents := money.value;
      if budget.available < cents {
        return Ledger.Refused(Ledger.LimitExceeded);
      }
      var key := Key(o, m);
      var alloc;
      if key in state.allocations {
        alloc := state.allocations[key];
        alloc := alloc.(allotted := alloc.allotted + cents);
        alloc := alloc.(version := alloc.version + 1);
        state := state.(allocations := state.allocations[key := alloc]);
      } else {
        alloc := Allocation(key, o, m, budget.currency, cents, 0, 0, 0, 0, Available, 1);
        if !AllocationOk(alloc) {
          return Ledger.Refused(Ledger.ValidatorRefused);
        }
        alloc := DeriveAllocation(alloc);
        state := state.(allocations := state.allocations[key := alloc]);
      }
      budget := budget.(allotted := budget.allotted + cents);
      budget := budget.(version := budget.version + 1);
      if !BudgetOk(budget) {
        return Ledger.Refused(Ledger.ValidatorRefused);
      }
      budget := DeriveBudget(budget);
      state := state.(objectives := state.objectives[o := budget]);
      state := state.(ledger := state.ledger + [Entry(o, Some(m), MissionAllocated, cents, budget.currency, alloc.id)]);
      stored := state;
      r := Ledger.Done(state, alloc);
      Kept(before, Runs.Allocate(o, m, amount));
    }

    method Reserve(o: string, m: string, amount: Amount, id: string) returns (r: Ledger.Outcome<Reservation>)
      requires id !in stored.reservations
      modifies this
      ensures r == Ledger.Reserve(Reload(old(stored)), o, m, amount, id)
      ensures stored == Ledger.Commit(old(stored), r)
      ensures old(Good(stored)) ==> Good(stored)
    {
      hide Good, Reload, Key, NormalizeCurrency, SafeMoney, BudgetOk, AllocationOk, Payable, DeriveBudget,
           DeriveAllocation;
      ghost var before := stored;
      var state := Reload(stored);
      var key := Key(o, m);
      if o !in state.objectives || key !in state.allocations {
        return Ledger.Refused(Ledger.NotFound);
      }
      var budget, alloc := state.objectives[o], state.allocations[key];
      var money := SafeMoney(amount);
      if money.None? {
        return Ledger.Refused(Ledger.InvalidAmount);
      }
      var cents := money.value;
      if alloc.available < cents {
        return Ledger.Refused(Ledger.Insufficient);
      }
      if !Payable(cents) {
        return Ledger.Refused(Ledger.NotPositive);
      }
      var res := DeriveReservation(Reservation(id, o, m, cents, budget.currency, Active));
      alloc := alloc.(reserved := alloc.reserved + cents);
      alloc := alloc.(version := alloc.version + 1);
      budget := budget.(reserved := budget.reserved + cents);
      budget := budget.(version := budget.version + 1);
      state := state.(reservations := state.reservations[id := res]);
      if !AllocationOk(alloc) || !BudgetOk(budget) {
        return Ledger.Refused(Ledger.ValidatorRefused);
      }
      state := state.(allocations := state.allocations[key := DeriveAllocation(alloc)]);
      state := state.(objectives := state.objectives[o := DeriveBudget(budget)]);
      state := state.(ledger := state.ledger + [Entry(o, Some(m), ReservationCreated, cents, budget.currency, id)]);
      stored := state;
      r := Ledger.Done(state, res);
      Kept(before, Runs.Reserve(o, m, amount, id));
    }

    method ReleaseReservation(id: string) returns (r: Ledger.Outcome<Reservation>)
      modifies this
      ensures r == Ledger.Release(Reload(old(stored)), id)
      ensures stored == Ledger.Commit(old(stored), r)
      ensures old(Good(stored)) ==> Good(stored)
    {
      hide Good, Reload, Key, NormalizeCurrency, SafeMoney, BudgetOk, AllocationOk, Payable, DeriveBudget,
           DeriveAllocation;
      ghost var before := stored;
      var state := Reload(stored);
      if id !in state.reservations || !state.reservations[id].status.Active? {
        return Ledger.Refused(Ledger.NotActive);
      }
      var res := state.reservations[id];
      var key := Key(res.objectiveId, res.missionId);
      if res.objectiveId !in state.objectives || key !in state.allocations {
        return Ledger.Refused(Ledger.NotFound);
      }
      var budget, alloc := state.objectives[res.objectiveId], state.allocations[key];
      res := res.(status := Released);
      alloc := alloc.(reserved := alloc.reserved - res.amount);
      alloc := alloc.(version := alloc.version + 1);
      budget := budget.(reserved := budget.reserved - res.amount);
      budget := budget.(version := budget.version + 1);
      state := state.(reservations := state.reservations[res.id := res]);
      if !AllocationOk(alloc) || !BudgetOk(budget) {
        return Ledger.Refused(Ledger.ValidatorRefused);
      }
      state := state.(allocations := state.allocations[key := DeriveAllocation(alloc)]);
      state := state.(objectives := state.objectives[budget.objectiveId := DeriveBudget(budget)]);
      state := state.(ledger := state.ledger +
        [Entry(res.objectiveId, Some(res.missionId), ReservationReleased, res.amount, res.currency, res.id)]);
      stored := state;
      r := Ledger.Done(state, res);
      Kept(before, Runs.Release(id));
    }

    method ConvertReservationToCommitment(id: string, commitmentId: string) returns (r: Ledger.Outcome<Commitment>)
      requires commitmentId !in stored.commitments
      modifies this
      ensures r == Ledger.Convert(Reload(old(stored)), id, commitmentId)
      ensures stored == Ledger.Commit(old(stored), r)
      ensures old(Good(stored)) ==> Good(stored)
    {
      hide Good, Reload, Key, NormalizeCurrency, SafeMoney, BudgetOk, AllocationOk, Payable, DeriveBudget,
           DeriveAllocation;
      ghost var before := stored;
      var state := Reload(stored);
      if id !in state.reservations || !state.reservations[id].status.Active? {
        return Ledger.Refused(Ledger.NotActive);
      }
      var res := state.reservations[id];
      var key := Key(res.objectiveId, res.missionId);
      if res.objectiveId !in state.objectives || key !in state.allocations {
        return Ledger.Refused(Ledger.NotFound);
      }
      var budget, alloc := state.objectives[res.objectiveId], state.allocations[key];
      alloc := alloc.(reserved := alloc.reserved - res.amount);
      alloc := alloc.(committed := alloc.committed + res.amount);
      alloc := alloc.(version := alloc.version + 1);
      budget := budget.(reserved := budget.reserved - res.amount);
      budget := budget.(committed := budget.committed + res.amount);
      budget := budget.(version := budget.version + 1);
      if !Payable(res.amount) {
        return Ledger.Refused(Ledger.NotPositive);
      }
      res := res.(status := Converted);
      var com := DeriveCommitment(
        Commitment(commitmentId, res.objectiveId, res.missionId, Some(res.id), res.amount, res.currency, false));
      state := state.(commitments := state.commitments[commitmentId := com]);
      state := state.(reservations := state.reservations[res.id := res]);
      if !AllocationOk(alloc) || !BudgetOk(budget) {
        return Ledger.Refused(Ledger.ValidatorRefused);
      }
      state := state.(allocations := state.allocations[key := DeriveAllocation(alloc)]);
      state := state.(objectives := state.objectives[budget.objectiveId := DeriveBudget(budget)]);
      state := state.(ledger := state.ledger +
        [Entry(res.objectiveId, Some(res.missionId), ReservationConverted, res.amount, res.currency, commitmentId)]);
      stored := state;
      r := Ledger.Done(state, com);
      Kept(before, Runs.Convert(id, commitmentId));
    }

    method RecordDirectCommitment(o: string, m: string, amount: Amount, currency: string, id: string)
      returns (r: Ledger.Outcome<Commitment>)
      requires id !in stored.commitments
      modifies this
      ensures r == Ledger.CommitDirectly(Reload(old(stored)), o, m, amount, currency, id)
      ensures stored == Ledger.Commit(old(stored), r)
      ensures old(Good(stored)) ==> Good(stored)
    {
      hide Good, Reload, Key, NormalizeCurrency, SafeMoney, BudgetOk, AllocationOk, Payable, DeriveBudget,
           DeriveAllocation;
      ghost var before := stored;
      var state := Reload(stored);
      var key := Key(o, m);
      if o !in state.objectives || key !in state.allocations {
        return Ledger.Refused(Ledger.NotFound);
      }
      var budget, alloc := state.objectives[o], state.allocations[key];
      var normal := NormalizeCurrency(currency);
      if budget.currency != normal {
        return Ledger.Refused(Ledger.CurrencyMismatch);
      }
      var money := SafeMoney(amount);
      if money.None? {
        return Ledger.Refused(Ledger.InvalidAmount);
      }
      var cents := money.value;
      if alloc.available < cents {
        return Ledger.Refused(Ledger.Insufficient);
      }
      if !Payable(cents) {
        return Ledger.Refused(Ledger.NotPositive);
      }
      var com := DeriveCommitment(Commitment(id, o, m, None, cents, normal, false));
      alloc := alloc.(committed := alloc.committed + cents);
      alloc := alloc.(version := alloc.version + 1);
      budget := budget.(committed := budget.committed + cents);
      budget := budget.(version := budget.version + 1);
      state := state.(commitments := state.commitments[id := com]);
      if !AllocationOk(alloc) || !BudgetOk(budget) {
        return Ledger.Refused(Ledger.ValidatorRefused);
      }
      state := state.(allocations := state.allocations[key := DeriveAllocation(alloc)]);
      state := state.(objectives := state.objectives[o := DeriveBudget(budget)]);
      state := state.(ledger := state.ledger + [Entry(o, Some(m), CommitmentCreated, cents, normal, id)]);
      stored := state;
      r := Ledger.Done(state, com);
      Kept(before, Runs.CommitDirectly(o, m, amount, currency, id));
    }

    method RecordSpend(commitmentId: string, actual: Amount, id: string) returns (r: Ledger.Outcome<Spend>)
      requires id !in stored.spends
      modifies this
      ensures r == Ledger.RecordSpend(Reload(old(stored)), commitmentId, actual, id)
      ensures stored == Ledger.Commit(old(stored), r)
      ensures old(Good(stored)) ==> Good(stored)
    {
      hide Good, Reload, Key, NormalizeCurrency, SafeMoney, BudgetOk, AllocationOk, Payable, DeriveBudget,
           DeriveAllocation;
      ghost var before := stored;
      var state := Reload(stored);
      if commitmentId !in state.commitments {
        return Ledger.Refused(Ledger.NotFound);
      }
      var com := state.commitments[commitmentId];
      if com.settled {
        return Ledger.Refused(Ledger.AlreadySpent);
      }
      var money := SafeMoney(actual);
      if money.None? {
        return Ledger.Refused(Ledger.InvalidAmount);
      }
      var cents := money.value;
      if cents > com.amount {
        return Ledger.Refused(Ledger.SpendExceeds);
      }
      var key := Key(com.objectiveId, com.missionId);
      if com.objectiveId !in state.objectives || key !in state.allocations {
        return Ledger.Refused(Ledger.NotFound);
      }
      var budget, alloc := state.objectives[com.objectiveId], state.allocations[key];
      alloc := alloc.(committed := alloc.committed - com.amount);
      alloc := alloc.(spent := alloc.spent + cents);
      alloc := alloc.(version := alloc.version + 1);
      budget := budget.(committed := budget.committed - com.amount);
      budget := budget.(spent := budget.spent + cents);
      budget := budget.(version := budget.version + 1);
      com := com.(settled := true);
      if !Payable(cents) {
        return Ledger.Refused(Ledger.NotPositive);
      }
      var spend := DeriveSpend(Spend(id, com.objectiveId, com.missionId, com.id, cents, com.currency));
      state := state.(spends := state.spends[id := spend]);
      state := state.(commitments := state.commitments[com.id := com]);
      if !AllocationOk(alloc) || !BudgetOk(budget) {
        return Ledger.Refused(Ledger.ValidatorRefused);
      }
      state := state.(allocations := state.allocations[key := DeriveAllocation(alloc)]);
      state := state.(objectives := state.objectives[budget.objectiveId := DeriveBudget(budget)]);
      state := state.(ledger := state.ledger +
        [Entry(com.objectiveId, Some(com.missionId), SpendRecorded, cents, com.currency, id)]);
      stored := state;
      r := Ledger.Done(state, spend);
      Kept(before, Runs.RecordSpend(commitmentId, actual, id));
    }
  }

  lemma Kept(before: State, e: Runs.Event)
    ensures Good(before) && Runs.Legal(before, e) ==> Good(Runs.Apply(before, e))
  {
    if Good(before) && Runs.Legal(before, e) {
      Runs.StepKeeps(before, e);
    }
  }
}
