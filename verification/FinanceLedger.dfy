/** The ledger operations, each taking a freshly loaded state to the state it persists and the record it returns. */
module FinanceLedger {
  import opened Search
  import opened FinanceModel

  datatype Error =
    | AlreadyExists | NotFound | InvalidAmount | LimitExceeded | Insufficient | NotPositive | NotActive
    | CurrencyMismatch | AlreadySpent | SpendExceeds | ValidatorRefused

  datatype Outcome<+R> = Done(state: State, record: R) | Refused(error: Error)

  /** A refused operation persists nothing. */
  function Commit<R>(stored: State, r: Outcome<R>): State { if r.Done? then r.state else stored }

  function CreateBudget(s: State, o: string, currency: string, amount: Amount): Outcome<Budget> {
    if o in s.objectives then Refused(AlreadyExists)
    else if SafeMoney(amount).None? then Refused(InvalidAmount)
    else
      var b := Budget(o, currency, SafeMoney(amount).value, 0, 0, 0, 0, 0, Unset, 1);
      if !BudgetOk(b) then Refused(ValidatorRefused)
      else
        var budget := DeriveBudget(b);
        Done(s.(objectives := s.objectives[o := budget],
                ledger := s.ledger + [Entry(o, None, BudgetCreated, budget.total, budget.currency, o)]),
             budget)
  }

  /** An existing allocation is changed without being validated again, so its derived fields go stale. */
  function Allocate(s: State, o: string, m: string, amount: Amount): Outcome<Allocation> {
    if o !in s.objectives then Refused(NotFound)
    else if SafeMoney(amount).None? then Refused(InvalidAmount)
    else
      var budget, cents, key := s.objectives[o], SafeMoney(amount).value, Key(o, m);
      if budget.available < cents then Refused(LimitExceeded)
      else
        var opening := Allocation(key, o, m, budget.currency, cents, 0, 0, 0, 0, Available, 1);
        if key !in s.allocations && !AllocationOk(opening) then Refused(ValidatorRefused)
        else
          var alloc :=
            if key in s.allocations then
              s.allocations[key].(allotted := s.allocations[key].allotted + cents, version := s.allocations[key].version + 1)
            else DeriveAllocation(opening);
          var b := budget.(allotted := budget.allotted + cents, version := budget.version + 1);
          if !BudgetOk(b) then Refused(ValidatorRefused)
          else
            Done(s.(objectives := s.objectives[o := DeriveBudget(b)], allocations := s.allocations[key := alloc],
                    ledger := s.ledger + [Entry(o, Some(m), MissionAllocated, cents, DeriveBudget(b).currency, alloc.id)]),
                 alloc)
  }

  /** Validate the changed allocation and budget and post the entry. */
  function Post(s: State, o: string, key: string, alloc: Allocation, budget: Budget, e: Entry): Outcome<()> {
    if !AllocationOk(alloc) || !BudgetOk(budget) then Refused(ValidatorRefused)
    else
      Done(s.(objectives := s.objectives[o := DeriveBudget(budget)],
              allocations := s.allocations[key := DeriveAllocation(alloc)], ledger := s.ledger + [e]), ())
  }

  function Returning<R>(r: Outcome<()>, record: R): Outcome<R> {
    if r.Done? then Done(r.state, record) else Refused(r.error)
  }

  function Reserve(s: State, o: string, m: string, amount: Amount, id: string): Outcome<Reservation> {
    var key := Key(o, m);
    if o !in s.objectives || key !in s.allocations then Refused(NotFound)
    else if SafeMoney(amount).None? then Refused(InvalidAmount)
    else
      var budget, alloc, cents := s.objectives[o], s.allocations[key], SafeMoney(amount).value;
      if alloc.available < cents then Refused(Insufficient)
      else if !Payable(cents) then Refused(NotPositive)
      else
        var res := DeriveReservation(Reservation(id, o, m, cents, budget.currency, Active));
        Returning(
          Post(s.(reservations := s.reservations[id := res]), o, key,
               alloc.(reserved := alloc.reserved + cents, version := alloc.version + 1),
               budget.(reserved := budget.reserved + cents, version := budget.version + 1),
               Entry(o, Some(m), ReservationCreated, cents, budget.currency, id)), res)
  }

  predicate Placed(s: State, o: string, m: string) { o in s.objectives && Key(o, m) in s.allocations }

  function Release(s: State, id: string): Outcome<Reservation> {
    if id !in s.reservations || !s.reservations[id].status.Active? then Refused(NotActive)
    else
      var res := s.reservations[id];
      if !Placed(s, res.objectiveId, res.missionId) then Refused(NotFound)
      else
        var key := Key(res.objectiveId, res.missionId);
        var alloc, budget := s.allocations[key], s.objectives[res.objectiveId];
        var released := res.(status := Released);
        Returning(
          Post(s.(reservations := s.reservations[res.id := released]), budget.objectiveId, key,
               alloc.(reserved := alloc.reserved - res.amount, version := alloc.version + 1),
               budget.(reserved := budget.reserved - res.amount, version := budget.version + 1),
               Entry(res.objectiveId, Some(res.missionId), ReservationReleased, res.amount, res.currency, res.id)), released)
  }

  function Convert(s: State, id: string, commitmentId: string): Outcome<Commitment> {
    if id !in s.reservations || !s.reservations[id].status.Active? then Refused(NotActive)
    else
      var res := s.reservations[id];
      if !Placed(s, res.objectiveId, res.missionId) then Refused(NotFound)
      else if !Payable(res.amount) then Refused(NotPositive)
      else
        var key := Key(res.objectiveId, res.missionId);
        var alloc, budget := s.allocations[key], s.objectives[res.objectiveId];
        var com := DeriveCommitment(
          Commitment(commitmentId, res.objectiveId, res.missionId, Some(res.id), res.amount, res.currency, false));
        Returning(
          Post(s.(reservations := s.reservations[res.id := res.(status := Converted)],
                  commitments := s.commitments[commitmentId := com]), budget.objectiveId, key,
               alloc.(reserved := alloc.reserved - res.amount, committed := alloc.committed + res.amount,
                      version := alloc.version + 1),
               budget.(reserved := budget.reserved - res.amount, committed := budget.committed + res.amount,
                       version := budget.version + 1),
               Entry(res.objectiveId, Some(res.missionId), ReservationConverted, res.amount, res.currency, commitmentId)), com)
  }

  function CommitDirectly(s: State, o: string, m: string, amount: Amount, currency: string, id: string)
    : Outcome<Commitment>
  {
    var key := Key(o, m);
    if o !in s.objectives || key !in s.allocations then Refused(NotFound)
    else if s.objectives[o].currency != NormalizeCurrency(currency) then Refused(CurrencyMismatch)
    else if SafeMoney(amount).None? then Refused(InvalidAmount)
    else
      var budget, alloc, cents := s.objectives[o], s.allocations[key], SafeMoney(amount).value;
      if alloc.available < cents then Refused(Insufficient)
      else if !Payable(cents) then Refused(NotPositive)
      else
        var com := DeriveCommitment(Commitment(id, o, m, None, cents, NormalizeCurrency(currency), false));
        Returning(
          Post(s.(commitments := s.commitments[id := com]), o, key,
               alloc.(committed := alloc.committed + cents, version := alloc.version + 1),
               budget.(committed := budget.committed + cents, version := budget.version + 1),
               Entry(o, Some(m), CommitmentCreated, cents, NormalizeCurrency(currency), id)), com)
  }

  /** The whole commitment is discharged; what was not spent becomes available again. */
  function RecordSpend(s: State, commitmentId: string, actual: Amount, id: string): Outcome<Spend> {
    if commitmentId !in s.commitments then Refused(NotFound)
    else if s.commitments[commitmentId].settled then Refused(AlreadySpent)
    else if SafeMoney(actual).None? then Refused(InvalidAmount)
    else
      var com, cents := s.commitments[commitmentId], SafeMoney(actual).value;
      if cents > com.amount then Refused(SpendExceeds)
      else if !Placed(s, com.objectiveId, com.missionId) then Refused(NotFound)
      else if !Payable(cents) then Refused(NotPositive)
      else
        var key := Key(com.objectiveId, com.missionId);
        var alloc, budget := s.allocations[key], s.objectives[com.objectiveId];
        var spend := DeriveSpend(Spend(id, com.objectiveId, com.missionId, com.id, cents, com.currency));
        Returning(
          Post(s.(spends := s.spends[id := spend],
                  commitments := s.commitments[com.id := com.(settled := true)]), budget.objectiveId, key,
               alloc.(committed := alloc.committed - com.amount, spent := alloc.spent + cents,
                      version := alloc.version + 1),
               budget.(committed := budget.committed - com.amount, spent := budget.spent + cents,
                       version := budget.version + 1),
               Entry(com.objectiveId, Some(com.missionId), SpendRecorded, cents, com.currency, id)), spend)
  }
}
