/** Every ledger operation accepts exactly the requests it should and leaves a good state behind. */
module FinanceSafety {
  import opened Search
  import opened MapSum
  import opened FinanceModel
  import opened FinanceLedger
  import opened FinanceViews
  import opened FinanceInvariant
  import opened FinancePosting

  ghost predicate Matches(s: State, t: State, p: Posting) {
    forall sc :: Summed(t, sc) == Plus(Summed(s, sc), Held(Moved(sc, p)))
  }

  lemma Concludes(s: State, t: State, p: Posting)
    requires Good(s) && Posted(s, t, p) && Matches(s, t, p) && AllValid(t) && Linked(t)
    ensures Good(t)
  {
    hide Posted, Filed, Logged, AllValid, Linked, Agreement, Summed;
    PostedFiled(s, t, p);
    PostedAgrees(s, t, p);
  }

  /** A record of `t` is one of `s`, or is new and belongs to the posting. */
  predicate Belongs(p: Posting, o: string, m: string, currency: string) {
    o == p.o && m == p.m && currency == p.budget.currency
  }

  predicate ReservationFits(s: State, p: Posting, k: string, r: Reservation) {
    && r.id == k && Payable(r.amount)
    && (Belongs(p, r.objectiveId, r.missionId, r.currency) || At(s, r.objectiveId, r.missionId, r.currency))
  }

  predicate CommitmentFits(s: State, p: Posting, k: string, c: Commitment) {
    && c.id == k && Payable(c.amount)
    && (Belongs(p, c.objectiveId, c.missionId, c.currency) || At(s, c.objectiveId, c.missionId, c.currency))
  }

  predicate RecordsFit(s: State, t: State, p: Posting) {
    && (forall k | k in t.reservations :: ReservationFits(s, p, k, t.reservations[k]))
    && (forall k | k in t.commitments :: CommitmentFits(s, p, k, t.commitments[k]))
    && (forall k | k in t.spends ::
          var q := t.spends[k];
          && q.id == k && Payable(q.amount) && SpendFits(t, q)
          && (Belongs(p, q.objectiveId, q.missionId, q.currency) || At(s, q.objectiveId, q.missionId, q.currency)))
    && (forall k, l | k in t.spends && l in t.spends :: t.spends[k].commitmentId == t.spends[l].commitmentId ==> k == l)
  }

  lemma ReservationFitsIn(s: State, p: Posting, r: Reservation)
    requires At(s, r.objectiveId, r.missionId, r.currency) && Payable(r.amount)
    ensures ReservationFits(s, p, r.id, r)
  {}

  lemma CommitmentFitsIn(s: State, p: Posting, c: Commitment)
    requires At(s, c.objectiveId, c.missionId, c.currency) && Payable(c.amount)
    ensures CommitmentFits(s, p, c.id, c)
  {}

  /** Records are only added or, for one reservation, replaced; no commitment is settled. */
  lemma FitsWithoutSpend(s: State, t: State, p: Posting, rid: string)
    requires AllValid(s) && Linked(s) && t.spends == s.spends
    requires forall k | k in t.reservations ::
               if k == rid then ReservationFits(s, p, k, t.reservations[k])
               else k in s.reservations && t.reservations[k] == s.reservations[k]
    requires s.commitments.Keys <= t.commitments.Keys
    requires forall k | k in t.commitments ::
               if k in s.commitments then t.commitments[k] == s.commitments[k] else CommitmentFits(s, p, k, t.commitments[k])
    ensures RecordsFit(s, t, p)
  {
    hide At, Payable, Belongs, BudgetOk, AllocationOk;
  }

  lemma RecordsLinked(s: State, t: State, p: Posting)
    requires AllValid(s) && Posted(s, t, p) && RecordsFit(s, t, p)
    ensures AllValid(t) && Linked(t)
  {
    hide Key, At, SpendFits, Payable, BudgetOk, AllocationOk, Plus, Effect, Extends, Before, OfBudget, OfAllocation, Resolved;
    PostedAt(s, t, p);
  }

  /** The rest of the argument, once the records are known to fit. */
  lemma PostingKeeps(s: State, t: State, p: Posting)
    requires Good(s) && Posted(s, t, p) && RecordsFit(s, t, p) && Matches(s, t, p)
    ensures Good(t)
  {
    hide *;
    GoodParts(s);
    RecordsLinked(s, t, p);
    Concludes(s, t, p);
  }

  // ---- live records are covered by the balances ------------------------------------------------------------

  lemma RecordFacts(s: State)
    requires AllValid(s) && Linked(s)
    ensures forall k | k in s.reservations :: var r := s.reservations[k];
              r.id == k && Payable(r.amount) && At(s, r.objectiveId, r.missionId, r.currency)
    ensures forall k | k in s.commitments :: var c := s.commitments[k];
              c.id == k && Payable(c.amount) && At(s, c.objectiveId, c.missionId, c.currency)
  {
    hide Key, At, Payable, SpendFits, BudgetOk, AllocationOk;
  }

  lemma HeldIsSummed(s: State, o: string, m: string)
    requires Good(s) && Placed(s, o, m)
    ensures Held(OfBudget(s.objectives[o])) == Summed(s, OfObjective(o))
    ensures Held(OfAllocation(s.allocations[Key(o, m)])) == Summed(s, OfMission(o, m))
  {
    hide Filed, Linked, Logged, AllValid, Key, AddsUp, Replay, Summed, Held;
    assert AgreeAt(s, OfObjective(o)) && AgreeAt(s, OfMission(o, m));
  }

  predicate Live(s: State, id: string) { id in s.reservations && s.reservations[id].status.Active? }

  lemma ActiveCovered(s: State, id: string)
    requires Good(s) && Live(s, id)
    ensures var r := s.reservations[id];
      && r.id == id && At(s, r.objectiveId, r.missionId, r.currency) && Payable(r.amount)
      && r.amount <= s.objectives[r.objectiveId].reserved
      && r.amount <= s.allocations[Key(r.objectiveId, r.missionId)].reserved
  {
    hide Filed, Linked, Logged, AllValid, Agreement, Key;
    var r := s.reservations[id];
    RecordFacts(s);
    HeldIsSummed(s, r.objectiveId, r.missionId);
    SumCovers(s.reservations, ActiveIn(OfObjective(r.objectiveId)), id);
    SumCovers(s.reservations, ActiveIn(OfMission(r.objectiveId, r.missionId)), id);
  }

  lemma UnsettledCovered(s: State, id: string)
    requires Good(s) && id in s.commitments && !s.commitments[id].settled
    ensures var c := s.commitments[id];
      && c.id == id && At(s, c.objectiveId, c.missionId, c.currency) && Payable(c.amount)
      && c.amount <= s.objectives[c.objectiveId].committed
      && c.amount <= s.allocations[Key(c.objectiveId, c.missionId)].committed
  {
    hide Filed, Linked, Logged, AllValid, Agreement, Key;
    var c := s.commitments[id];
    RecordFacts(s);
    HeldIsSummed(s, c.objectiveId, c.missionId);
    SumCovers(s.commitments, UnsettledIn(OfObjective(c.objectiveId)), id);
    SumCovers(s.commitments, UnsettledIn(OfMission(c.objectiveId, c.missionId)), id);
  }

  // ---- reserve -------------------------------------------------------------------------------------------

  predicate Affordable(s: State, o: string, m: string, amount: Amount) {
    && Placed(s, o, m) && SafeMoney(amount).Some? && 0 < SafeMoney(amount).value <= s.allocations[Key(o, m)].available
  }

  lemma PlacedFacts(s: State, o: string, m: string)
    requires Good(s) && Fresh(s) && Placed(s, o, m)
    ensures var a, b := s.allocations[Key(o, m)], s.objectives[o];
      && a.id == Key(o, m) && a.objectiveId == o && a.missionId == m && a.currency == b.currency && AllocationOk(a)
      && BudgetOk(b) && b.objectiveId == o && Normal(b.currency) && a.available == MissionAvailable(a)
      && b.reserved + b.committed + b.spent + a.available <= b.allotted
  {
    var a := s.allocations[Key(o, m)];
    assert a.id == Key(o, m) == Key(a.objectiveId, a.missionId) && a.objectiveId in s.objectives;
    hide Agreement, Linked, Logged, Key;
    KeysTellApart(s, o, m, a.objectiveId, a.missionId);
    RoomCovers(s, o, Key(o, m));
  }

  lemma ReserveDone(s: State, o: string, m: string, amount: Amount, id: string)
    requires Good(s) && Fresh(s)
    ensures Reserve(s, o, m, amount, id).Done? <==> Affordable(s, o, m, amount)
  {
    hide Good, Key, Fresh, NormalizeCurrency, DeriveBudget, DeriveAllocation;
    if Placed(s, o, m) {
      PlacedFacts(s, o, m);
    }
  }

  /** The posting that took a state to `t`, read off `t`. */
  function PostingTo(t: State, o: string, m: string, change: Balances, e: Entry): Posting
    requires Placed(t, o, m)
  {
    Posting(o, m, t.objectives[o], t.allocations[Key(o, m)], change, e)
  }

  function Reserving(s: State, t: State, r: Reservation): Posting
    requires Placed(t, r.objectiveId, r.missionId)
  {
    PostingTo(t, r.objectiveId, r.missionId, Balances(0, 0, r.amount, 0, 0),
              Entry(r.objectiveId, Some(r.missionId), ReservationCreated, r.amount, r.currency, r.id))
  }

  lemma ReservePosts(s: State, o: string, m: string, amount: Amount, id: string)
    requires Good(s) && Fresh(s) && Affordable(s, o, m, amount)
    ensures var r := Reserve(s, o, m, amount, id);
      && r.Done? && Placed(r.state, o, m)
      && r.record == Reservation(id, o, m, SafeMoney(amount).value, s.objectives[o].currency, Active)
      && At(s, o, m, r.record.currency) && Payable(r.record.amount)
      && Posted(s, r.state, Reserving(s, r.state, r.record))
      && r.state == s.(objectives := r.state.objectives, allocations := r.state.allocations, ledger := r.state.ledger,
                       reservations := s.reservations[id := r.record])
  {
    hide Good, Key, Fresh, NormalizeCurrency;
    PlacedFacts(s, o, m);
  }

  lemma ReservingMatches(s: State, t: State, r: Reservation)
    requires r.id !in s.reservations && r.status.Active? && Placed(t, r.objectiveId, r.missionId)
    requires t.reservations == s.reservations[r.id := r] && t.commitments == s.commitments && t.spends == s.spends
    ensures Matches(s, t, Reserving(s, t, r))
  {
    hide Key;
    forall sc ensures Summed(t, sc) == Plus(Summed(s, sc), Held(Moved(sc, Reserving(s, t, r)))) {
      SumAdd(s.reservations, ActiveIn(sc), r.id, r);
    }
  }

  lemma ReserveKeeps(s: State, o: string, m: string, amount: Amount, id: string)
    requires Good(s) && Fresh(s) && id !in s.reservations && Reserve(s, o, m, amount, id).Done?
    ensures Good(Reserve(s, o, m, amount, id).state)
  {
    hide *;
    var r := Reserve(s, o, m, amount, id);
    ReserveDone(s, o, m, amount, id);
    ReservePosts(s, o, m, amount, id);
    var t, p := r.state, Reserving(s, r.state, r.record);
    ReservingMatches(s, t, r.record);
    ReservationFitsIn(s, p, r.record);
    GoodParts(s);
    FitsWithoutSpend(s, t, p, id);
    PostingKeeps(s, t, p);
  }

  // ---- release -------------------------------------------------------------------------------------------

  function Releasing(s: State, t: State, r: Reservation): Posting
    requires Placed(t, r.objectiveId, r.missionId)
  {
    PostingTo(t, r.objectiveId, r.missionId, Balances(0, 0, -r.amount, 0, 0),
              Entry(r.objectiveId, Some(r.missionId), ReservationReleased, r.amount, r.currency, r.id))
  }

  lemma ReleaseDone(s: State, id: string)
    requires Good(s) && Fresh(s)
    ensures Release(s, id).Done? <==> Live(s, id)
  {
    if Live(s, id) {
      ReleasePosts(s, id);
    }
  }

  lemma ReleasePosts(s: State, id: string)
    requires Good(s) && Fresh(s) && Live(s, id)
    ensures var r := Release(s, id);
      && r.Done? && Placed(r.state, r.record.objectiveId, r.record.missionId)
      && r.record == s.reservations[id].(status := Released)
      && Posted(s, r.state, Releasing(s, r.state, r.record))
      && r.state == s.(objectives := r.state.objectives, allocations := r.state.allocations, ledger := r.state.ledger,
                       reservations := s.reservations[id := r.record])
  {
    hide Good, Key, Fresh, NormalizeCurrency;
    var r := s.reservations[id];
    ActiveCovered(s, id);
    PlacedFacts(s, r.objectiveId, r.missionId);
  }

  lemma ReleasingMatches(s: State, t: State, r: Reservation)
    requires Live(s, r.id) && r == s.reservations[r.id].(status := Released) && Placed(t, r.objectiveId, r.missionId)
    requires t.reservations == s.reservations[r.id := r] && t.commitments == s.commitments && t.spends == s.spends
    ensures Matches(s, t, Releasing(s, t, r))
  {
    hide Key;
    forall sc ensures Summed(t, sc) == Plus(Summed(s, sc), Held(Moved(sc, Releasing(s, t, r)))) {
      SumUpdate(s.reservations, ActiveIn(sc), r.id, r);
    }
  }

  lemma ReleaseKeeps(s: State, id: string)
    requires Good(s) && Fresh(s) && Live(s, id) && Release(s, id).Done?
    ensures Good(Release(s, id).state)
  {
    hide *;
    var r := Release(s, id);
    ReleasePosts(s, id);
    ActiveCovered(s, id);
    var t, p := r.state, Releasing(s, r.state, r.record);
    ReleasingMatches(s, t, r.record);
    ReservationFitsIn(s, p, r.record);
    GoodParts(s);
    FitsWithoutSpend(s, t, p, id);
    PostingKeeps(s, t, p);
  }

  // ---- convert -------------------------------------------------------------------------------------------

  function Converting(s: State, t: State, c: Commitment): Posting
    requires Placed(t, c.objectiveId, c.missionId)
  {
    PostingTo(t, c.objectiveId, c.missionId, Balances(0, 0, -c.amount, c.amount, 0),
              Entry(c.objectiveId, Some(c.missionId), ReservationConverted, c.amount, c.currency, c.id))
  }

  lemma ConvertDone(s: State, id: string, cid: string)
    requires Good(s) && Fresh(s) && cid !in s.commitments
    ensures Convert(s, id, cid).Done? <==> Live(s, id)
  {
    if Live(s, id) {
      ConvertPosts(s, id, cid);
    }
  }

  lemma ConvertPosts(s: State, id: string, cid: string)
    requires Good(s) && Fresh(s) && Live(s, id) && cid !in s.commitments
    ensures var r := Convert(s, id, cid); var res := s.reservations[id];
      && r.Done? && Placed(r.state, r.record.objectiveId, r.record.missionId)
      && r.record == Commitment(cid, res.objectiveId, res.missionId, Some(id), res.amount, res.currency, false)
      && Posted(s, r.state, Converting(s, r.state, r.record))
      && r.state == s.(objectives := r.state.objectives, allocations := r.state.allocations, ledger := r.state.ledger,
                       reservations := s.reservations[id := res.(status := Converted)],
                       commitments := s.commitments[cid := r.record])
  {
    hide Good, Key, Fresh, NormalizeCurrency;
    var r := s.reservations[id];
    ActiveCovered(s, id);
    PlacedFacts(s, r.objectiveId, r.missionId);
  }

  lemma ConvertingMatches(s: State, t: State, id: string, c: Commitment)
    requires Live(s, id) && c.id !in s.commitments && !c.settled && Placed(t, c.objectiveId, c.missionId)
    requires var r := s.reservations[id]; r.objectiveId == c.objectiveId && r.missionId == c.missionId && r.amount == c.amount
    requires t.reservations == s.reservations[id := s.reservations[id].(status := Converted)]
    requires t.commitments == s.commitments[c.id := c] && t.spends == s.spends
    ensures Matches(s, t, Converting(s, t, c))
  {
    hide Key;
    forall sc ensures Summed(t, sc) == Plus(Summed(s, sc), Held(Moved(sc, Converting(s, t, c)))) {
      SumUpdate(s.reservations, ActiveIn(sc), id, t.reservations[id]);
      SumAdd(s.commitments, UnsettledIn(sc), c.id, c);
    }
  }

  lemma ConvertKeeps(s: State, id: string, cid: string)
    requires Good(s) && Fresh(s) && cid !in s.commitments && Live(s, id) && Convert(s, id, cid).Done?
    ensures Good(Convert(s, id, cid).state)
  {
    hide *;
    var r := Convert(s, id, cid);
    ConvertPosts(s, id, cid);
    ActiveCovered(s, id);
    var t, p := r.state, Converting(s, r.state, r.record);
    ConvertingMatches(s, t, id, r.record);
    ReservationFitsIn(s, p, t.reservations[id]);
    CommitmentFitsIn(s, p, r.record);
    GoodParts(s);
    FitsWithoutSpend(s, t, p, id);
    PostingKeeps(s, t, p);
  }

  // ---- commit directly -----------------------------------------------------------------------------------

  function Committing(s: State, t: State, c: Commitment): Posting
    requires Placed(t, c.objectiveId, c.missionId)
  {
    PostingTo(t, c.objectiveId, c.missionId, Balances(0, 0, 0, c.amount, 0),
              Entry(c.objectiveId, Some(c.missionId), CommitmentCreated, c.amount, c.currency, c.id))
  }

  predicate InCurrency(s: State, o: string, currency: string) {
    o in s.objectives && s.objectives[o].currency == NormalizeCurrency(currency)
  }

  lemma CommitDone(s: State, o: string, m: string, amount: Amount, currency: string, id: string)
    requires Good(s) && Fresh(s)
    ensures CommitDirectly(s, o, m, amount, currency, id).Done? <==> Affordable(s, o, m, amount) && InCurrency(s, o, currency)
  {
    hide Good, Key, Fresh, NormalizeCurrency, DeriveBudget, DeriveAllocation;
    if Placed(s, o, m) {
      PlacedFacts(s, o, m);
    }
  }

  lemma CommitPosts(s: State, o: string, m: string, amount: Amount, currency: string, id: string)
    requires Good(s) && Fresh(s) && Affordable(s, o, m, amount) && InCurrency(s, o, currency) && id !in s.commitments
    ensures var r := CommitDirectly(s, o, m, amount, currency, id);
      && r.Done? && Placed(r.state, o, m)
      && r.record == Commitment(id, o, m, None, SafeMoney(amount).value, s.objectives[o].currency, false)
      && At(s, o, m, r.record.currency) && Payable(r.record.amount)
      && Posted(s, r.state, Committing(s, r.state, r.record))
      && r.state == s.(objectives := r.state.objectives, allocations := r.state.allocations, ledger := r.state.ledger,
                       commitments := s.commitments[id := r.record])
  {
    hide Good, Key, Fresh, NormalizeCurrency;
    PlacedFacts(s, o, m);
  }

  lemma CommittingMatches(s: State, t: State, c: Commitment)
    requires c.id !in s.commitments && !c.settled && Placed(t, c.objectiveId, c.missionId)
    requires t.commitments == s.commitments[c.id := c] && t.reservations == s.reservations && t.spends == s.spends
    ensures Matches(s, t, Committing(s, t, c))
  {
    hide Key;
    forall sc ensures Summed(t, sc) == Plus(Summed(s, sc), Held(Moved(sc, Committing(s, t, c)))) {
      SumAdd(s.commitments, UnsettledIn(sc), c.id, c);
    }
  }

  lemma RecordsKept(s: State, p: Posting)
    requires AllValid(s) && Linked(s)
    ensures forall k | k in s.reservations :: ReservationFits(s, p, k, s.reservations[k])
  {
    hide Key, At, Payable, SpendFits, BudgetOk, AllocationOk, Belongs;
  }

  lemma CommitKeeps(s: State, o: string, m: string, amount: Amount, currency: string, id: string)
    requires Good(s) && Fresh(s) && id !in s.commitments && CommitDirectly(s, o, m, amount, currency, id).Done?
    ensures Good(CommitDirectly(s, o, m, amount, currency, id).state)
  {
    hide *;
    var r := CommitDirectly(s, o, m, amount, currency, id);
    CommitDone(s, o, m, amount, currency, id);
    CommitPosts(s, o, m, amount, currency, id);
    var t, p := r.state, Committing(s, r.state, r.record);
    CommittingMatches(s, t, r.record);
    CommitmentFitsIn(s, p, r.record);
    GoodParts(s);
    RecordsKept(s, p);
    FitsWithoutSpend(s, t, p, "");
    PostingKeeps(s, t, p);
  }

  // ---- record spend --------------------------------------------------------------------------------------

  predicate Spendable(s: State, cid: string, actual: Amount) {
    && cid in s.commitments && !s.commitments[cid].settled && SafeMoney(actual).Some?
    && 0 < SafeMoney(actual).value <= s.commitments[cid].amount
  }

  function Spending(s: State, t: State, c: Commitment, q: Spend): Posting
    requires Placed(t, c.objectiveId, c.missionId)
  {
    PostingTo(t, c.objectiveId, c.missionId, Balances(0, 0, 0, -c.amount, q.amount),
              Entry(c.objectiveId, Some(c.missionId), SpendRecorded, q.amount, c.currency, q.id))
  }

  lemma SpendDone(s: State, cid: string, actual: Amount, id: string)
    requires Good(s) && Fresh(s) && id !in s.spends
    ensures RecordSpend(s, cid, actual, id).Done? <==> Spendable(s, cid, actual)
  {
    hide Good, Fresh, Key, NormalizeCurrency, Posted;
    if Spendable(s, cid, actual) {
      SpendPosts(s, cid, actual, id);
    }
  }

  lemma SpendPosts(s: State, cid: string, actual: Amount, id: string)
    requires Good(s) && Fresh(s) && Spendable(s, cid, actual) && id !in s.spends
    ensures var r := RecordSpend(s, cid, actual, id); var c := s.commitments[cid];
      && r.Done? && Placed(r.state, c.objectiveId, c.missionId)
      && r.record == Spend(id, c.objectiveId, c.missionId, cid, SafeMoney(actual).value, c.currency)
      && Posted(s, r.state, Spending(s, r.state, c, r.record))
      && r.state == s.(objectives := r.state.objectives, allocations := r.state.allocations, ledger := r.state.ledger,
                       commitments := s.commitments[cid := c.(settled := true)], spends := s.spends[id := r.record])
  {
    hide Good, Key, Fresh, NormalizeCurrency;
    var c := s.commitments[cid];
    UnsettledCovered(s, cid);
    PlacedFacts(s, c.objectiveId, c.missionId);
  }

  lemma SpendingMatches(s: State, t: State, cid: string, q: Spend)
    requires cid in s.commitments && !s.commitments[cid].settled && q.id !in s.spends
    requires var c := s.commitments[cid];
      && Placed(t, c.objectiveId, c.missionId) && q.objectiveId == c.objectiveId && q.missionId == c.missionId
      && t.commitments == s.commitments[cid := c.(settled := true)]
    requires t.spends == s.spends[q.id := q] && t.reservations == s.reservations
    ensures Matches(s, t, Spending(s, t, s.commitments[cid], q))
  {
    hide Key;
    var c := s.commitments[cid];
    forall sc ensures Summed(t, sc) == Plus(Summed(s, sc), Held(Moved(sc, Spending(s, t, c, q)))) {
      SumUpdate(s.commitments, UnsettledIn(sc), cid, t.commitments[cid]);
      SumAdd(s.spends, SpentIn(sc), q.id, q);
    }
  }

  /** Settling a commitment against its one spend. */
  lemma SpendFitsRecords(s: State, t: State, p: Posting, cid: string, q: Spend)
    requires AllValid(s) && Linked(s) && cid in s.commitments && !s.commitments[cid].settled
    requires Payable(q.amount) && q.amount <= s.commitments[cid].amount && q.commitmentId == cid && q.id !in s.spends
    requires var c := s.commitments[cid];
      && q.objectiveId == c.objectiveId && q.missionId == c.missionId && q.currency == c.currency
      && t.commitments == s.commitments[cid := c.(settled := true)]
    requires t.spends == s.spends[q.id := q] && t.reservations == s.reservations
    ensures RecordsFit(s, t, p)
  {
    hide Key, At, Payable, Belongs, BudgetOk, AllocationOk;
    assert forall k | k in s.spends :: SpendFits(s, s.spends[k]);
  }

  lemma SpendKeeps(s: State, cid: string, actual: Amount, id: string)
    requires Good(s) && Fresh(s) && id !in s.spends && Spendable(s, cid, actual) && RecordSpend(s, cid, actual, id).Done?
    ensures Good(RecordSpend(s, cid, actual, id).state)
  {
    var amount, c := SafeMoney(actual).value, s.commitments[cid];
    assert Payable(amount) && !c.settled && amount <= c.amount;
    UnsettledCovered(s, cid);
    hide *;
    var r := RecordSpend(s, cid, actual, id);
    SpendPosts(s, cid, actual, id);
    var t, p := r.state, Spending(s, r.state, s.commitments[cid], r.record);
    SpendingMatches(s, t, cid, r.record);
    GoodParts(s);
    SpendFitsRecords(s, t, p, cid, r.record);
    PostingKeeps(s, t, p);
  }
}
