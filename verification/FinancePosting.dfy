/** What one posting does to the balances: the step shared by every ledger operation under a mission. */
module FinancePosting {
  import opened Search
  import opened MapSum
  import opened FinanceModel
  import opened FinanceLedger
  import opened FinanceViews
  import opened FinanceInvariant

  /** Entry `entry` is posted; `budget` and `alloc` are the balances of `o` and of its mission `m` moved by `change`. */
  datatype Posting = Posting(o: string, m: string, budget: Budget, alloc: Allocation, change: Balances, entry: Entry)

  /** The balances an allocation had before the posting, nothing if it is being opened. */
  function Before(s: State, key: string): Balances {
    if key in s.allocations then OfAllocation(s.allocations[key]) else ZERO
  }

  predicate Adds(s: State, p: Posting) {
    && p.o in s.objectives && p.change.total == 0
    && p.budget.objectiveId == p.o && p.budget.currency == s.objectives[p.o].currency && BudgetOk(p.budget)
    && p.alloc.id == Key(p.o, p.m) && p.alloc.objectiveId == p.o && p.alloc.missionId == p.m
    && p.alloc.currency == p.budget.currency && AllocationOk(p.alloc)
    && OfBudget(p.budget) == Plus(OfBudget(s.objectives[p.o]), p.change)
    && OfAllocation(p.alloc) == Plus(Before(s, Key(p.o, p.m)), p.change)
  }

  predicate Enters(s: State, t: State, p: Posting) {
    && t.ledger == s.ledger + [p.entry] && p.entry.objectiveId == p.o && p.entry.missionId == Some(p.m)
    && Extends(s, t) && Resolved(t, p.entry) && Effect(t, p.entry) == p.change
  }

  predicate Posted(s: State, t: State, p: Posting) {
    && Adds(s, p) && Enters(s, t, p)
    && t.objectives == s.objectives[p.o := p.budget] && t.allocations == s.allocations[Key(p.o, p.m) := p.alloc]
  }

  function Moved(sc: Scope, p: Posting): Balances { if In(sc, p.o, Some(p.m)) then p.change else ZERO }

  lemma KeysTellApart(s: State, o: string, m: string, q: string, n: string)
    requires Filed(s) && o in s.objectives && q in s.objectives
    ensures Key(o, m) == Key(q, n) ==> o == q && m == n
  {
    hide Key, Admitted;
    AdmittedKeysAreDistinct(o, m, q, n);
  }

  lemma PostedFiled(s: State, t: State, p: Posting)
    requires Filed(s) && Logged(s) && Posted(s, t, p)
    ensures Filed(t) && Logged(t)
  {
    hide Plus, Effect, Key, Admitted, NormalizeCurrency;
    forall x | x in t.ledger ensures Traceable(t, x) {
      if x in s.ledger {
        assert Traceable(s, x);
      } else {
        assert x == p.entry;
      }
    }
  }

  /** Records placed before stay placed. */
  lemma PostedAt(s: State, t: State, p: Posting)
    requires Posted(s, t, p)
    ensures forall o, m, c :: At(s, o, m, c) ==> At(t, o, m, c)
    ensures At(t, p.o, p.m, p.budget.currency)
  {
    hide Plus, Effect, Key;
  }

  /** Exactly the scopes containing the mission move, by exactly the change. */
  lemma PostedStored(s: State, t: State, p: Posting, sc: Scope)
    requires Filed(s) && Posted(s, t, p)
    ensures Stored(t, sc) == Plus(Stored(s, sc), Moved(sc, p))
  {
    hide Filed, Key, Enters, BudgetOk, AllocationOk;
    if sc.OfMission? && sc.o in s.objectives {
      KeysTellApart(s, sc.o, sc.m, p.o, p.m);
    }
  }

  lemma PostedReplay(s: State, t: State, p: Posting, sc: Scope)
    requires Logged(s) && Posted(s, t, p)
    ensures Replay(t, t.ledger, sc) == Plus(Replay(s, s.ledger, sc), Moved(sc, p))
  {
    hide Effect, Adds, Key;
    assert forall x | x in s.ledger :: Traceable(s, x);
    ReplayFrame(s, t, s.ledger, sc);
    assert t.ledger[..|t.ledger| - 1] == s.ledger;
  }

  function ShareMoved(p: Posting, o: string, part: Part): int { if o == p.o then PartOf(p.change, part) else 0 }

  /** An allocation already on record under the posting's key is that of its mission. */
  lemma SameAllocation(s: State, t: State, p: Posting)
    requires Filed(s) && Posted(s, t, p) && Key(p.o, p.m) in s.allocations
    ensures s.allocations[Key(p.o, p.m)].objectiveId == p.o
  {
    hide Adds, Enters, Admitted, Normal;
    assert p.o in s.objectives by { PostedTo(s, t, p); }
    var a := s.allocations[Key(p.o, p.m)];
    KeysTellApart(s, p.o, p.m, a.objectiveId, a.missionId);
  }

  lemma PostedTo(s: State, t: State, p: Posting)
    requires Posted(s, t, p)
    ensures p.o in s.objectives && p.alloc.objectiveId == p.o && OfAllocation(p.alloc) == Plus(Before(s, Key(p.o, p.m)), p.change)
    ensures t.allocations == s.allocations[Key(p.o, p.m) := p.alloc] && t.objectives.Keys == s.objectives.Keys
  {
    hide Key, Enters, BudgetOk, AllocationOk, Before, Plus;
  }

  /** The missions' shares of an objective's balance move by what the posting changes. */
  lemma PostedShares(s: State, t: State, p: Posting, o: string, part: Part)
    requires Filed(s) && Posted(s, t, p)
    ensures Sum(t.allocations, Share(o, part)) == Sum(s.allocations, Share(o, part)) + ShareMoved(p, o, part)
  {
    hide Filed, Posted, Key, Sum;
    var key := Key(p.o, p.m);
    PostedTo(s, t, p);
    if key in s.allocations {
      SameAllocation(s, t, p);
      SumUpdate(s.allocations, Share(o, part), key, p.alloc);
    } else {
      SumAdd(s.allocations, Share(o, part), key, p.alloc);
    }
  }

  lemma PostedAddsUp(s: State, t: State, p: Posting, o: string, part: Part)
    requires Filed(s) && Posted(s, t, p) && AddsUp(s, o, part)
    ensures AddsUp(t, o, part)
  {
    hide Filed, Posted, Stored, Sum, Share;
    PostedStored(s, t, p, OfObjective(o));
    PostedShares(s, t, p, o, part);
  }

  lemma PostedAgreesAt(s: State, t: State, p: Posting, sc: Scope)
    requires Filed(s) && Logged(s) && Posted(s, t, p) && AgreeAt(s, sc)
    requires Summed(t, sc) == Plus(Summed(s, sc), Held(Moved(sc, p)))
    ensures AgreeAt(t, sc)
  {
    hide Posted, Stored, Replay, Summed, Filed, Logged, Moved;
    PostedStored(s, t, p, sc);
    PostedReplay(s, t, p, sc);
  }

  /** A posting whose record changes match its balance changes keeps all three accounts in agreement. */
  lemma PostedAgrees(s: State, t: State, p: Posting)
    requires Good(s) && Posted(s, t, p)
    requires forall sc :: Summed(t, sc) == Plus(Summed(s, sc), Held(Moved(sc, p)))
    ensures Agreement(t)
  {
    forall sc ensures AgreeAt(t, sc) {
      PostedAgreesAt(s, t, p, sc);
    }
    assert p.o in s.objectives;
    forall o, part | o in t.objectives ensures AddsUp(t, o, part) {
      PostedAddsUp(s, t, p, o, part);
    }
  }

  // ---- room ----------------------------------------------------------------------------------------------

  ghost function Room(o: string): Allocation -> int {
    (a: Allocation) => if a.objectiveId == o then MissionAvailable(a) else 0
  }

  /** What an objective has allotted but not put to use is exactly what is available to its missions. */
  lemma RoomIsAvailability(s: State, o: string)
    requires Good(s) && o in s.objectives
    ensures var b := s.objectives[o]; b.allotted - b.reserved - b.committed - b.spent == Sum(s.allocations, Room(o))
  {
    hide AgreeAt, Filed, Linked, Logged, AllValid;
    assert AddsUp(s, o, Allotted) && AddsUp(s, o, Reserved) && AddsUp(s, o, Committed) && AddsUp(s, o, Spent);
    SumSplits(s.allocations, Share(o, Allotted), Room(o), Share(o, Reserved), Share(o, Committed), Share(o, Spent));
  }

  /** An objective never holds more than it allotted, and has room for whatever one of its missions has room for. */
  lemma RoomCovers(s: State, o: string, key: string)
    requires Good(s) && o in s.objectives
    ensures var b := s.objectives[o];
      && b.reserved + b.committed + b.spent <= b.allotted <= b.total < LIMIT
      && (key in s.allocations && s.allocations[key].objectiveId == o ==>
            MissionAvailable(s.allocations[key]) <= b.allotted - b.reserved - b.committed - b.spent)
  {
    hide Agreement, Filed, Linked, Logged;
    RoomIsAvailability(s, o);
    assert forall k | k in s.allocations :: AllocationOk(s.allocations[k]);
    SumNonNegative(s.allocations, Room(o));
    if key in s.allocations {
      SumCovers(s.allocations, Room(o), key);
    }
  }
}
