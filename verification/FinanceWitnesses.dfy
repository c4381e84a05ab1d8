/** Runs in which the ledger's numbers mislead, and one in which colliding keys break them. */
module FinanceWitnesses {
  import opened Search
  import opened MapSum
  import opened FinanceModel
  import Ledger = FinanceLedger
  import opened FinanceViews
  import opened FinanceInvariant
  import opened FinanceRuns
  import opened FinanceFindings

  function Money(cents: nat): Amount { Number(cents as real / 100.0) }

  lemma MoneyIsSafe(cents: nat)
    requires Cents(cents)
    ensures SafeMoney(Money(cents)) == Some(cents)
  {
    assert cents as real / 100.0 * 100.0 == cents as real;
  }

  const OBJECTIVE := "obj_01234567"
  const MISSION := "mis_1"

  /** The balances of the example's objective and of its mission. */
  predicate Shows(s: State, total: int, allotted: int, reserved: int) {
    && Stored(s, OfObjective(OBJECTIVE)) == Balances(total, allotted, reserved, 0, 0)
    && Stored(s, OfMission(OBJECTIVE, MISSION)) == Balances(0, allotted, reserved, 0, 0)
  }

  lemma ShownIsThere(s: State, total: int, allotted: int, reserved: int)
    requires Good(s) && Shows(s, total, allotted, reserved) && total > 0
    ensures var t := Reload(s);
      && Good(t) && Fresh(t) && Shows(t, total, allotted, reserved) && t.reservations == s.reservations
      && OBJECTIVE in t.objectives && OfBudget(t.objectives[OBJECTIVE]) == Balances(total, allotted, reserved, 0, 0)
      && (allotted > 0 ==> Key(OBJECTIVE, MISSION) in t.allocations
                           && OfAllocation(t.allocations[Key(OBJECTIVE, MISSION)]) == Balances(0, allotted, reserved, 0, 0))
  {
    hide Good, Fresh, Reload, Key;
    ReloadKeeps(s);
  }

  lemma Moved(s: State, e: Event, total: int, allotted: int, reserved: int)
    requires Good(s) && Legal(s, e) && Acceptable(Reload(s), e) && Shows(s, total, allotted, reserved)
    requires e.CreateBudget? || e.Allocate? || e.Reserve?
    requires e.o == OBJECTIVE && (!e.CreateBudget? ==> e.m == MISSION) && SafeMoney(e.amount).Some?
    ensures Good(Apply(s, e)) && Accepts(s, e)
    ensures var cents := SafeMoney(e.amount).value;
      Shows(Apply(s, e), if e.CreateBudget? then total + cents else total, if e.Allocate? then allotted + cents else allotted,
            if e.Reserve? then reserved + cents else reserved)
  {
    hide Good, Reload, Outcome, Acceptable, Stored, SafeMoney;
    OutcomeExactlyAfterReload(s, e);
    StepKeeps(s, e);
    hide Apply, Accepts;
    EventsMoveBalances(s, e, OfObjective(OBJECTIVE));
    EventsMoveBalances(s, e, OfMission(OBJECTIVE, MISSION));
  }

  lemma RunSnoc(es: seq<Event>, e: Event)
    ensures Run(es + [e]) == Apply(Run(es), e)
    ensures LegalRun(es + [e]) <==> LegalRun(es) && Legal(Run(es), e)
  {
    hide Apply, Legal;
    assert (es + [e])[..|es|] == es;
  }

  lemma NoEvents()
    ensures Run([]) == EMPTY && LegalRun([])
  {}

  /** Opening a budget and allotting leave the reservations alone. */
  lemma NothingReserved(s: State, e: Event)
    requires Good(s) && s.reservations == map[] && (e.CreateBudget? || e.Allocate?)
    ensures Apply(s, e).reservations == map[]
  {
    hide Good, Fresh, Reload, SafeMoney, DeriveBudget, DeriveAllocation, Key, Stored;
    ReloadKeeps(s);
  }

  /** Open a budget. */
  function Opened(total: nat): seq<Event> { [CreateBudget(OBJECTIVE, "USD", Money(total))] }

  lemma OpenedRuns(total: nat)
    requires 0 < total && Cents(total)
    ensures var es := Opened(total); LegalRun(es) && Good(Run(es)) && Shows(Run(es), total, 0, 0) && Run(es).reservations == map[]
  {
    var e := CreateBudget(OBJECTIVE, "USD", Money(total));
    EmptyIsGood();
    MoneyIsSafe(total);
    assert Admitted(OBJECTIVE);
    assert Reload(EMPTY).objectives.Keys == {};
    NoEvents();
    assert [] + [e] == [e];
    hide Good, Apply, Reload, SafeMoney, Run, LegalRun;
    Moved(EMPTY, e, 0, 0, 0);
    NothingReserved(EMPTY, e);
    RunSnoc([], e);
  }

  /** And allot part of it to a mission. */
  function Allocated(total: nat, allotted: nat): seq<Event> { Opened(total) + [Allocate(OBJECTIVE, MISSION, Money(allotted))] }

  lemma Allotting(s: State, total: nat, allotted: nat, more: nat)
    requires Good(s) && Shows(s, total, allotted, 0) && 0 < total && allotted + more <= total && Cents(total)
    ensures var e := Allocate(OBJECTIVE, MISSION, Money(more));
      Accepts(s, e) && Good(Apply(s, e)) && Shows(Apply(s, e), total, allotted + more, 0)
  {
    hide Good, Apply, Accepts, Reload, Shows, SafeMoney, Key;
    ShownIsThere(s, total, allotted, 0);
    MoneyIsSafe(more);
    Moved(s, Allocate(OBJECTIVE, MISSION, Money(more)), total, allotted, 0);
  }

  lemma AllocatedRuns(total: nat, allotted: nat)
    requires 0 < allotted <= total && Cents(total)
    ensures var es := Allocated(total, allotted);
      LegalRun(es) && Good(Run(es)) && Shows(Run(es), total, allotted, 0) && Run(es).reservations == map[]
  {
    hide Good, Apply, Shows, Run, LegalRun, Accepts, SafeMoney, Opened;
    OpenedRuns(total);
    var s, e := Run(Opened(total)), Allocate(OBJECTIVE, MISSION, Money(allotted));
    Allotting(s, total, 0, allotted);
    NothingReserved(s, e);
    RunSnoc(Opened(total), e);
  }

  /** And reserve part of that. */
  function Holding(total: nat, allotted: nat, held: nat): seq<Event> {
    Allocated(total, allotted) + [Reserve(OBJECTIVE, MISSION, Money(held), "res_1")]
  }

  lemma HoldingRuns(total: nat, allotted: nat, held: nat)
    requires 0 < held <= allotted <= total && Cents(total)
    ensures var es := Holding(total, allotted, held); LegalRun(es) && Good(Run(es)) && Shows(Run(es), total, allotted, held)
  {
    hide Good, Apply, Shows, Run, LegalRun, Accepts, SafeMoney, Allocated, Reload, Key;
    AllocatedRuns(total, allotted);
    var s, e := Run(Allocated(total, allotted)), Reserve(OBJECTIVE, MISSION, Money(held), "res_1");
    ShownIsThere(s, total, allotted, 0);
    MoneyIsSafe(held);
    Moved(s, e, total, allotted, 0);
    RunSnoc(Allocated(total, allotted), e);
  }

  /** Whenever money is held and some is left, the objective shows less than is unallotted; whenever more is held than is
      left, it shows OVER_BUDGET with nothing spent. */
  lemma HoldingMisleads(total: nat, allotted: nat, held: nat)
    requires 0 < held <= allotted <= total && Cents(total)
    ensures var es := Holding(total, allotted, held); var s := Reload(Run(es));
      && LegalRun(es) && OBJECTIVE in s.objectives
      && var b := s.objectives[OBJECTIVE];
      && OfBudget(b) == Balances(total, allotted, held, 0, 0)
      && (b.available < total - allotted <==> allotted < total) && (b.status.OverBudget? <==> held > total - allotted)
  {
    hide Good, Fresh, Reload, Run, LegalRun, Key, Holding;
    HoldingRuns(total, allotted, held);
    ShownIsThere(Run(Holding(total, allotted, held)), total, allotted, held);
    ObjectiveAvailabilityIsConservative(Reload(Run(Holding(total, allotted, held))), OBJECTIVE);
  }

  /** Ten units, six of them allotted: holding three shows one available instead of four, holding all six shows
      OVER_BUDGET. */
  lemma SixOfTenMislead()
    ensures var es := Holding(1000, 600, 300);
      && LegalRun(es) && OBJECTIVE in Reload(Run(es)).objectives
      && Reload(Run(es)).objectives[OBJECTIVE].available < 1000 - 600
    ensures var es := Holding(1000, 600, 600);
      && LegalRun(es) && OBJECTIVE in Reload(Run(es)).objectives
      && Reload(Run(es)).objectives[OBJECTIVE].status.OverBudget? && Reload(Run(es)).objectives[OBJECTIVE].spent == 0
  {
    hide Reload, Run, LegalRun, Holding;
    HoldingMisleads(1000, 600, 300);
    HoldingMisleads(1000, 600, 600);
  }

  /** Allocating a second time hands back an allocation that does not show what was added. */
  lemma SecondAllocationIsStale(total: nat, first: nat, second: nat)
    requires 0 < first && 0 < second && first + second <= total && Cents(total)
    ensures var es := Allocated(total, first);
      && LegalRun(es) && Accepts(Run(es), Allocate(OBJECTIVE, MISSION, Money(second)))
      && var a := Ledger.Allocate(Reload(Run(es)), OBJECTIVE, MISSION, Money(second)).record; a.available != MissionAvailable(a)
  {
    hide Good, Fresh, Apply, Shows, Reload, SafeMoney, Run, LegalRun, Ledger.Allocate, Key, MissionAvailable, Allocated;
    AllocatedRuns(total, first);
    var s := Run(Allocated(total, first));
    Allotting(s, total, first, second);
    ShownIsThere(s, total, first, 0);
    MoneyIsSafe(second);
    AllocateReturnsStaleExactly(Reload(s), OBJECTIVE, MISSION, Money(second));
  }

  // ---- colliding keys ----------------------------------------------------------------------------------------

  const SHORT := "a"
  const LONG := "a_b"

  /** Both objectives have a budget of their own and nothing else is on record but, perhaps, one allocation of the first. */
  predicate TwoBudgets(s: State, total: int, allotted: int) {
    && s.objectives.Keys == {SHORT, LONG} && BudgetOk(s.objectives[SHORT]) && BudgetOk(s.objectives[LONG])
    && OfBudget(s.objectives[SHORT]) == Balances(total, allotted, 0, 0, 0)
    && OfBudget(s.objectives[LONG]) == Balances(total, 0, 0, 0, 0)
    && s.reservations == map[] && s.commitments == map[] && s.spends == map[]
  }

  predicate OneAllocation(s: State, allotted: int) {
    && s.allocations.Keys == {Key(SHORT, "b_c")}
    && var a := s.allocations[Key(SHORT, "b_c")];
    a.objectiveId == SHORT && OfAllocation(a) == Balances(0, allotted, 0, 0, 0) && AllocationOk(a)
  }

  lemma ReloadedBudgets(s: State, total: int, allotted: int)
    requires TwoBudgets(s, total, allotted) && (s.allocations == map[] || OneAllocation(s, allotted))
    ensures TwoBudgets(Reload(s), total, allotted)
    ensures ObjectiveAvailable(Reload(s).objectives[SHORT]) == Reload(s).objectives[SHORT].available
    ensures ObjectiveAvailable(Reload(s).objectives[LONG]) == Reload(s).objectives[LONG].available
    ensures s.allocations == map[] ==> Reload(s).allocations == map[]
    ensures OneAllocation(s, allotted) ==> OneAllocation(Reload(s), allotted)
  {
    hide Key, NormalizeCurrency;
  }

  /** The first objective has its budget, and nothing else is on record. */
  predicate OneBudget(s: State, total: int) {
    && s.objectives.Keys == {SHORT} && BudgetOk(s.objectives[SHORT])
    && OfBudget(s.objectives[SHORT]) == Balances(total, 0, 0, 0, 0)
    && s.allocations == map[] && s.reservations == map[] && s.commitments == map[] && s.spends == map[]
  }

  lemma ReloadedBudget(s: State, total: int)
    requires OneBudget(s, total)
    ensures OneBudget(Reload(s), total)
  {
    hide NormalizeCurrency;
  }

  lemma FirstBudget(total: nat)
    requires Cents(total)
    ensures OneBudget(Apply(EMPTY, CreateBudget(SHORT, "USD", Money(total))), total)
  {
    MoneyIsSafe(total);
    assert Reload(EMPTY) == EMPTY;
    hide SafeMoney, NormalizeCurrency, Reload;
  }

  lemma SecondBudget(s: State, total: nat)
    requires Cents(total) && OneBudget(s, total)
    ensures var t := Apply(s, CreateBudget(LONG, "USD", Money(total))); TwoBudgets(t, total, 0) && t.allocations == map[]
  {
    MoneyIsSafe(total);
    ReloadedBudget(s, total);
    hide SafeMoney, NormalizeCurrency, Reload;
  }

  lemma FirstAllocation(s: State, total: nat, first: nat)
    requires Cents(total) && first <= total && TwoBudgets(s, total, 0) && s.allocations == map[]
    ensures var t := Apply(s, Allocate(SHORT, "b_c", Money(first))); TwoBudgets(t, total, first) && OneAllocation(t, first)
  {
    MoneyIsSafe(first);
    ReloadedBudgets(s, total, 0);
    hide SafeMoney, NormalizeCurrency, Key, Reload;
  }

  /** With identifiers that are not admitted, a second objective's allocation lands on the first one's: it is accepted,
      and the first objective's balance no longer is the sum of its missions'. */
  lemma SharedKeyBreaksSums(total: nat, first: nat, second: nat)
    requires Cents(total) && first <= total && 0 < second <= total
    ensures var es := [CreateBudget(SHORT, "USD", Money(total)), CreateBudget(LONG, "USD", Money(total)),
                       Allocate(SHORT, "b_c", Money(first))];
      && var e := Allocate(LONG, "c", Money(second));
      Accepts(Run(es), e) && !AddsUp(Run(es + [e]), SHORT, Allotted)
  {
    var e1, e2, e3 := CreateBudget(SHORT, "USD", Money(total)), CreateBudget(LONG, "USD", Money(total)), Allocate(SHORT, "b_c", Money(first));
    var e := Allocate(LONG, "c", Money(second));
    var s3 := Apply(Apply(Apply(EMPTY, e1), e2), e3);
    hide *;
    NoEvents();
    assert [] + [e1] == [e1] && [e1] + [e2] == [e1, e2] && [e1, e2] + [e3] == [e1, e2, e3];
    RunSnoc([], e1);
    RunSnoc([e1], e2);
    RunSnoc([e1, e2], e3);
    RunSnoc([e1, e2, e3], e);
    FirstBudget(total);
    SecondBudget(Apply(EMPTY, e1), total);
    FirstAllocation(Apply(Apply(EMPTY, e1), e2), total, first);
    CollisionBreaks(s3, total, first, second);
  }

  lemma CollisionBreaks(s: State, total: nat, first: nat, second: nat)
    requires Cents(total) && 0 < second <= total && TwoBudgets(s, total, first) && OneAllocation(s, first)
    ensures var e := Allocate(LONG, "c", Money(second)); Accepts(s, e) && !AddsUp(Apply(s, e), SHORT, Allotted)
  {
    MoneyIsSafe(second);
    ReloadedBudgets(s, total, first);
    SharedKeyExample();
    var t := Reload(s);
    hide Reload, SafeMoney, NormalizeCurrency, Key;
    assert AddsUp(t, SHORT, Allotted) by {
      var a := t.allocations[Key(SHORT, "b_c")];
      assert t.allocations == map[][Key(SHORT, "b_c") := a];
      SumAdd(map[], Share(SHORT, Allotted), Key(SHORT, "b_c"), a);
    }
    assert Ledger.Allocate(t, LONG, "c", Money(second)).Done?;
    hide Ledger.Allocate, AddsUp;
    SharedKeyBreaksConservation(t, SHORT, LONG, "c", Money(second));
  }
}
