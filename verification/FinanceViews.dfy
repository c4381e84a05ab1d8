/** Three independent accounts of the same money: the stored balances, the records, and the replayed ledger. */
module FinanceViews {
  import opened Search
  import opened MapSum
  import opened FinanceModel

  /** Whose balances are meant: a whole objective's, or one mission's under it. */
  datatype Scope = OfObjective(o: string) | OfMission(o: string, m: string)

  datatype Balances = Balances(total: int, allotted: int, reserved: int, committed: int, spent: int)

  const ZERO := Balances(0, 0, 0, 0, 0)

  function Plus(a: Balances, b: Balances): Balances {
    Balances(a.total + b.total, a.allotted + b.allotted, a.reserved + b.reserved, a.committed + b.committed, a.spent + b.spent)
  }

  /** What is held on behalf of records. */
  function Held(b: Balances): Balances { b.(total := 0, allotted := 0) }

  predicate In(sc: Scope, o: string, m: Option<string>) { sc.o == o && (sc.OfMission? ==> m == Some(sc.m)) }

  // ---- the stored balances -------------------------------------------------------------------------------

  function OfBudget(b: Budget): Balances { Balances(b.total, b.allotted, b.reserved, b.committed, b.spent) }

  function OfAllocation(a: Allocation): Balances { Balances(0, a.allotted, a.reserved, a.committed, a.spent) }

  function Stored(s: State, sc: Scope): Balances {
    if sc.o !in s.objectives then ZERO
    else if sc.OfObjective? then OfBudget(s.objectives[sc.o])
    else if Key(sc.o, sc.m) in s.allocations then OfAllocation(s.allocations[Key(sc.o, sc.m)])
    else ZERO
  }

  // ---- the records ---------------------------------------------------------------------------------------

  ghost function ActiveIn(sc: Scope): Reservation -> int {
    (r: Reservation) => if In(sc, r.objectiveId, Some(r.missionId)) && r.status.Active? then r.amount else 0
  }

  ghost function UnsettledIn(sc: Scope): Commitment -> int {
    (c: Commitment) => if In(sc, c.objectiveId, Some(c.missionId)) && !c.settled then c.amount else 0
  }

  ghost function SpentIn(sc: Scope): Spend -> int {
    (p: Spend) => if In(sc, p.objectiveId, Some(p.missionId)) then p.amount else 0
  }

  ghost function Summed(s: State, sc: Scope): Balances {
    Balances(0, 0, Sum(s.reservations, ActiveIn(sc)), Sum(s.commitments, UnsettledIn(sc)), Sum(s.spends, SpentIn(sc)))
  }

  // ---- the replayed ledger -------------------------------------------------------------------------------

  /** The commitment a spend entry discharges, found through its spend record, in full. */
  function Discharged(s: State, e: Entry): int {
    if e.related in s.spends && s.spends[e.related].commitmentId in s.commitments
    then s.commitments[s.spends[e.related].commitmentId].amount else 0
  }

  function Effect(s: State, e: Entry): Balances {
    match e.kind
    case BudgetCreated => Balances(e.amount, 0, 0, 0, 0)
    case MissionAllocated => Balances(0, e.amount, 0, 0, 0)
    case ReservationCreated => Balances(0, 0, e.amount, 0, 0)
    case ReservationReleased => Balances(0, 0, -e.amount, 0, 0)
    case ReservationConverted => Balances(0, 0, -e.amount, e.amount, 0)
    case CommitmentCreated => Balances(0, 0, 0, e.amount, 0)
    case SpendRecorded => Balances(0, 0, 0, -Discharged(s, e), e.amount)
  }

  function EffectIn(s: State, e: Entry, sc: Scope): Balances {
    if In(sc, e.objectiveId, e.missionId) then Effect(s, e) else ZERO
  }

  function Replay(s: State, log: seq<Entry>, sc: Scope): Balances {
    if log == [] then ZERO
    else Plus(Replay(s, log[..|log| - 1], sc), EffectIn(s, log[|log| - 1], sc))
  }

  predicate Resolved(s: State, e: Entry) {
    e.kind.SpendRecorded? ==> e.related in s.spends && s.spends[e.related].commitmentId in s.commitments
  }

  /** `t` keeps every spend of `s` and the amount of every commitment of `s`. */
  predicate Extends(s: State, t: State) {
    && (forall k | k in s.spends :: k in t.spends && t.spends[k] == s.spends[k])
    && (forall k | k in s.commitments :: k in t.commitments && t.commitments[k].amount == s.commitments[k].amount)
  }

  /** Old entries keep their meaning as records are added. */
  lemma {:induction false} ReplayFrame(s: State, t: State, log: seq<Entry>, sc: Scope)
    requires Extends(s, t) && forall e | e in log :: Resolved(s, e)
    ensures Replay(t, log, sc) == Replay(s, log, sc)
  {
    if log != [] {
      var e := log[|log| - 1];
      assert e in log;
      ReplayFrame(s, t, log[..|log| - 1], sc);
    }
  }

  // ---- agreement -----------------------------------------------------------------------------------------

  ghost predicate AgreeAt(s: State, sc: Scope) {
    Stored(s, sc) == Replay(s, s.ledger, sc) && Held(Stored(s, sc)) == Summed(s, sc)
  }

  datatype Part = Allotted | Reserved | Committed | Spent

  function PartOf(b: Balances, part: Part): int {
    match part
    case Allotted => b.allotted
    case Reserved => b.reserved
    case Committed => b.committed
    case Spent => b.spent
  }

  /** What an allocation contributes to the same balance of objective `o`. */
  ghost function Share(o: string, part: Part): Allocation -> int {
    (a: Allocation) => if a.objectiveId == o then PartOf(OfAllocation(a), part) else 0
  }

  /** An objective's balance is the sum of its missions' balances. */
  ghost predicate AddsUp(s: State, o: string, part: Part) {
    PartOf(Stored(s, OfObjective(o)), part) == Sum(s.allocations, Share(o, part))
  }
}
