/** What every stored ledger state satisfies, and why reading it back changes nothing that matters. */
module FinanceInvariant {
  import opened Search
  import opened MapSum
  import opened FinanceModel
  import opened FinanceLedger
  import opened FinanceViews

  predicate Normal(currency: string) { NormalizeCurrency(currency) == currency }

  /** Balances are filed under the identifiers they name, in one currency per objective. */
  predicate Filed(s: State) {
    && (forall o | o in s.objectives ::
          var b := s.objectives[o]; b.objectiveId == o && Admitted(o) && Normal(b.currency))
    && (forall k | k in s.allocations ::
          var a := s.allocations[k];
          && a.id == k == Key(a.objectiveId, a.missionId) && a.objectiveId in s.objectives
          && a.currency == s.objectives[a.objectiveId].currency)
  }

  predicate At(s: State, o: string, m: string, currency: string) {
    Placed(s, o, m) && currency == s.objectives[o].currency
  }

  predicate SpendFits(s: State, p: Spend) {
    p.commitmentId in s.commitments &&
    var c := s.commitments[p.commitmentId];
    c.settled && p.objectiveId == c.objectiveId && p.missionId == c.missionId && p.amount <= c.amount
  }

  /** Records belong to an existing allocation; a commitment is spent at most once. */
  predicate Linked(s: State) {
    && (forall k | k in s.reservations ::
          var r := s.reservations[k]; r.id == k && At(s, r.objectiveId, r.missionId, r.currency))
    && (forall k | k in s.commitments ::
          var c := s.commitments[k]; c.id == k && At(s, c.objectiveId, c.missionId, c.currency))
    && (forall k | k in s.spends ::
          var p := s.spends[k]; p.id == k && At(s, p.objectiveId, p.missionId, p.currency) && SpendFits(s, p))
    && (forall k, l | k in s.spends && l in s.spends :: s.spends[k].commitmentId == s.spends[l].commitmentId ==> k == l)
  }

  predicate Traceable(s: State, e: Entry) {
    && e.objectiveId in s.objectives && Resolved(s, e)
    && (e.missionId.Some? ==> Key(e.objectiveId, e.missionId.value) in s.allocations)
  }

  predicate Logged(s: State) { forall e | e in s.ledger :: Traceable(s, e) }

  ghost predicate Agreement(s: State) {
    && (forall sc :: AgreeAt(s, sc))
    && (forall o, part | o in s.objectives :: AddsUp(s, o, part))
  }

  ghost predicate Good(s: State) { AllValid(s) && Filed(s) && Linked(s) && Logged(s) && Agreement(s) }

  lemma GoodParts(s: State)
    requires Good(s)
    ensures AllValid(s) && Filed(s) && Linked(s) && Logged(s) && Agreement(s)
  {
    hide AllValid, Filed, Linked, Logged, Agreement;
  }

  /** Loaded states also have up-to-date derived fields. */
  predicate Fresh(s: State) {
    && (forall o | o in s.objectives :: DeriveBudget(s.objectives[o]) == s.objectives[o])
    && (forall k | k in s.allocations :: s.allocations[k].available == MissionAvailable(s.allocations[k]))
  }

  lemma {:induction false} ReplaySame(s: State, t: State, log: seq<Entry>, sc: Scope)
    requires s.spends == t.spends && s.commitments == t.commitments
    ensures Replay(t, log, sc) == Replay(s, log, sc)
  {
    if log != [] {
      ReplaySame(s, t, log[..|log| - 1], sc);
    }
  }

  /** `t` is `s` with the derived fields recomputed. */
  predicate Rederived(s: State, t: State) {
    && t.objectives.Keys == s.objectives.Keys && t.allocations.Keys == s.allocations.Keys && t.ledger == s.ledger
    && t.reservations == s.reservations && t.commitments == s.commitments && t.spends == s.spends
    && (forall o | o in s.objectives :: t.objectives[o] == DeriveBudget(s.objectives[o]))
    && (forall k | k in s.allocations :: t.allocations[k] == DeriveAllocation(s.allocations[k]))
  }

  lemma RecordCurrencies(s: State)
    requires Filed(s) && Linked(s)
    ensures forall k | k in s.reservations :: Normal(s.reservations[k].currency)
    ensures forall k | k in s.commitments :: Normal(s.commitments[k].currency)
    ensures forall k | k in s.spends :: Normal(s.spends[k].currency)
  {
    hide NormalizeCurrency, SpendFits, Key, Admitted;
  }

  lemma ReloadRederives(s: State)
    requires AllValid(s) && Filed(s) && Linked(s)
    ensures Rederived(s, Reload(s))
  {
    hide NormalizeCurrency, Filed, Linked, BudgetOk, AllocationOk, Payable, DeriveBudget, DeriveAllocation;
    RecordCurrencies(s);
    assert Reload(s).reservations == s.reservations;
    assert Reload(s).commitments == s.commitments;
    assert Reload(s).spends == s.spends;
  }

  lemma RederivedShape(s: State, t: State)
    requires AllValid(s) && Filed(s) && Logged(s) && Rederived(s, t)
    ensures AllValid(t) && Filed(t) && Logged(t) && Fresh(t)
  {
    hide NormalizeCurrency, Admitted, Key, Discharged;
    forall e | e in t.ledger ensures Traceable(t, e) {
      assert Traceable(s, e);
    }
  }

  lemma RederivedAt(s: State, t: State)
    requires Filed(s) && Rederived(s, t)
    ensures forall o, m, currency :: At(s, o, m, currency) ==> At(t, o, m, currency)
  {
    hide NormalizeCurrency, Admitted, Key;
  }

  lemma RederivedLinks(s: State, t: State)
    requires Filed(s) && Linked(s) && Rederived(s, t)
    ensures Linked(t)
  {
    hide NormalizeCurrency, Filed, At, DeriveBudget, DeriveAllocation;
    RederivedAt(s, t);
    forall k | k in t.spends ensures SpendFits(t, t.spends[k]) {
      assert SpendFits(s, s.spends[k]);
    }
  }

  /** Reading back a good state loses nothing: no record is refused, no balance and no record changes. */
  lemma ReloadKeeps(s: State)
    requires Good(s)
    ensures var t := Reload(s);
      && Good(t) && Fresh(t) && t.ledger == s.ledger
      && t.reservations == s.reservations && t.commitments == s.commitments && t.spends == s.spends
      && (forall sc :: Stored(t, sc) == Stored(s, sc))
  {
    hide Reload, AllValid, Filed, Linked, Logged, NormalizeCurrency, Key, Replay;
    ReloadRederives(s);
    var t := Reload(s);
    RederivedShape(s, t);
    RederivedLinks(s, t);
    forall sc ensures Stored(t, sc) == Stored(s, sc) && AgreeAt(t, sc) {
      ReplaySame(s, t, s.ledger, sc);
      assert AgreeAt(s, sc);
    }
    forall o, part | o in t.objectives ensures AddsUp(t, o, part) {
      assert AddsUp(s, o, part);
      assert Stored(t, OfObjective(o)) == Stored(s, OfObjective(o));
      SumSame(s.allocations, t.allocations, Share(o, part), Share(o, part));
    }
  }
}
