/** Interleaved callers of the objective repository: the named operations read and update in separate steps, the generic
    update replaces any fields at once, against a version read earlier or against none. What no update loses, what only a
    generic one can change, and exactly when an objective leaves a terminal status.
 */
module ObjectiveRuns {
  import opened PythonText
  import opened Search
  import opened ObjectiveModel

  /** An operation between its read and its update: what it read, and what it will ask for. */
  datatype Intent = Intent(id: string, op: Op, seen: Objective, changes: Changes)

  datatype System = System(objectives: map<string, Objective>, intents: map<nat, Intent>)

  datatype Event =
    | Create(id: string, objective: Objective)
    | Read(client: nat, id: string, op: Op)
    | Write(client: nat)
    | LinkMission(id: string, mission: string)
    | GenericWrite(id: string, changes: Changes, expected: Option<int>)

  function Lookup(s: System, id: string): Option<Objective> { if id in s.objectives then Some(s.objectives[id]) else None }

  function Written(s: System, client: nat): Result
    requires client in s.intents
  {
    var i := s.intents[client];
    Update(Lookup(s, i.id), i.changes, Some(i.seen.version))
  }

  function Put(s: System, id: string, r: Result): System {
    if r.Ok? then s.(objectives := s.objectives[id := r.objective]) else s
  }

  function Step(s: System, e: Event): System {
    match e
    case Create(id, o) =>
      if id in s.objectives || o.version != 1 || !Valid(o) then s else s.(objectives := s.objectives[id := o])
    case Read(client, id, op) =>
      var plan := Prepare(Lookup(s, id), op);
      if client in s.intents || !plan.Propose? || id !in s.objectives then s
      else s.(intents := s.intents[client := Intent(id, op, s.objectives[id], plan.changes)])
    case Write(client) =>
      if client !in s.intents then s
      else
        var t := Put(s, s.intents[client].id, Written(s, client));
        t.(intents := t.intents - {client})
    case LinkMission(id, mission) => Put(s, id, Link(Lookup(s, id), mission))
    case GenericWrite(id, changes, expected) => Put(s, id, Update(Lookup(s, id), changes, expected))
  }

  function Run(es: seq<Event>): System
    decreases |es|
  {
    if es == [] then System(map[], map[]) else Step(Run(es[..|es| - 1]), es[|es| - 1])
  }

  /** A version names one value: whoever sees the version it read sees the objective it read. */
  predicate Consistent(s: System) {
    && (forall id | id in s.objectives :: Valid(s.objectives[id]))
    && (forall c | c in s.intents :: Prepared(s, s.intents[c]))
  }

  predicate Prepared(s: System, i: Intent) {
    && i.id in s.objectives && Prepare(Some(i.seen), i.op) == Propose(i.changes)
    && i.seen.version <= s.objectives[i.id].version
    && (i.seen.version == s.objectives[i.id].version ==> i.seen == s.objectives[i.id])
  }

  lemma StepKeeps(s: System, e: Event)
    requires Consistent(s)
    ensures Consistent(Step(s, e))
  {
    hide Valid;
    var t := Step(s, e);
    forall id | id in t.objectives ensures Valid(t.objectives[id]) {}
    forall c | c in t.intents ensures Prepared(t, t.intents[c]) {
      if c in s.intents && t.intents[c] == s.intents[c] {
        assert Prepared(s, s.intents[c]);
      }
    }
  }

  lemma {:induction false} RunsAreConsistent(es: seq<Event>)
    ensures Consistent(Run(es))
    decreases |es|
  {
    if es != [] {
      RunsAreConsistent(es[..|es| - 1]);
      StepKeeps(Run(es[..|es| - 1]), es[|es| - 1]);
    }
  }

  // ---- counting successes ----------------------------------------------------------------------------------

  /** The fields that an update may replace. */
  datatype Field =
    | StatusField | RequiredField | VerifiedField | LinksField | CreditedField | EvaluatedField | MaxMissionsField
    | MaxStrategyField | MaxZeroField | StrategyField | StrategyVersionField | ZeroProgressField

  predicate Names(c: Changes, f: Field) {
    match f
    case StatusField => c.status.Some?
    case RequiredField => c.required.Some?
    case VerifiedField => c.verified.Some?
    case LinksField => c.links.Some?
    case CreditedField => c.credited.Some?
    case EvaluatedField => c.evaluated.Some?
    case MaxMissionsField => c.maxMissions.Some?
    case MaxStrategyField => c.maxStrategyChanges.Some?
    case MaxZeroField => c.maxZeroProgress.Some?
    case StrategyField => c.strategyChanges.Some?
    case StrategyVersionField => c.strategyVersion.Some?
    case ZeroProgressField => c.zeroProgress.Some?
  }

  datatype Kind = AnyUpdate | StrategyChanges | ZeroProgressCycles | Links | Replacing(field: Field)

  /** Does this step change objective `id`, and by an operation of this kind? */
  predicate Succeeds(s: System, e: Event, id: string, kind: Kind) {
    match e
    case Write(client) =>
      && client in s.intents && s.intents[client].id == id && Written(s, client).Ok?
      && (kind.StrategyChanges? ==> s.intents[client].op.StrategyChange?)
      && (kind.ZeroProgressCycles? ==> s.intents[client].op.ZeroProgress?)
      && !kind.Links? && !kind.Replacing?
    case LinkMission(i, mission) => i == id && Link(Lookup(s, id), mission).Ok? && (kind.AnyUpdate? || kind.Links?)
    case GenericWrite(i, changes, expected) =>
      i == id && Update(Lookup(s, id), changes, expected).Ok? && (kind.AnyUpdate? || (kind.Replacing? && Names(changes, kind.field)))
    case _ => false
  }

  function One(b: bool): nat { if b then 1 else 0 }

  /** Successes from step `n` on. */
  function Count(es: seq<Event>, n: nat, id: string, kind: Kind): nat
    requires n <= |es|
    decreases |es|
  {
    if n == |es| then 0
    else
      var front := es[..|es| - 1];
      Count(front, n, id, kind) + One(Succeeds(Run(front), es[|es| - 1], id, kind))
  }

  /** `p` is `o` after that many successes of each kind: every field that no generic update has replaced in between has
      moved by exactly the named operations that succeeded. */
  predicate Advanced(o: Objective, p: Objective, count: Kind -> nat) {
    && p.version == o.version + count(AnyUpdate)
    && (count(Replacing(StrategyField)) == 0 ==> p.strategyChanges == o.strategyChanges + count(StrategyChanges))
    && (count(Replacing(StrategyVersionField)) == 0 ==> p.strategyVersion == o.strategyVersion + count(StrategyChanges))
    && (count(Replacing(ZeroProgressField)) == 0 ==> p.zeroProgress == o.zeroProgress + count(ZeroProgressCycles))
    && (count(Replacing(LinksField)) == 0 ==> o.links <= p.links && |p.links| == |o.links| + count(Links))
    && (count(Replacing(CreditedField)) == 0 ==> p.credited == o.credited)
    && (count(Replacing(EvaluatedField)) == 0 ==> p.evaluated == o.evaluated)
    && (count(Replacing(RequiredField)) == 0 ==> p.required == o.required)
    && (count(Replacing(MaxMissionsField)) == 0 ==> p.maxMissions == o.maxMissions)
    && (count(Replacing(MaxStrategyField)) == 0 ==> p.maxStrategyChanges == o.maxStrategyChanges)
    && (count(Replacing(MaxZeroField)) == 0 ==> p.maxZeroProgress == o.maxZeroProgress)
    && (count(Replacing(StatusField)) == 0 && Terminal(o.status) ==> p.status == o.status)
  }

  function OneOf(s: System, e: Event, id: string): Kind -> nat { (k: Kind) => One(Succeeds(s, e, id, k)) }

  function CountFrom(es: seq<Event>, n: nat, id: string): Kind -> nat
    requires n <= |es|
  {
    (k: Kind) => Count(es, n, id, k)
  }

  lemma WriteAdvances(s: System, client: nat, id: string)
    requires Consistent(s) && id in s.objectives && client in s.intents
    ensures id in Step(s, Write(client)).objectives
    ensures Advanced(s.objectives[id], Step(s, Write(client)).objectives[id], OneOf(s, Write(client), id))
  {
    hide Valid, Strip;
    assert Prepared(s, s.intents[client]);
  }

  lemma AdvancedByNothing(o: Objective, count: Kind -> nat)
    requires forall k :: count(k) == 0
    ensures Advanced(o, o, count)
  {}

  lemma ChangedAdvances(o: Objective, c: Changes, count: Kind -> nat)
    requires count(AnyUpdate) == 1 && count(StrategyChanges) == count(ZeroProgressCycles) == count(Links) == 0
    requires forall f :: count(Replacing(f)) == One(Names(c, f))
    ensures Advanced(o, Changed(o, c), count)
  {}

  lemma GenericAdvances(s: System, e: Event, id: string)
    requires e.GenericWrite? && id in s.objectives
    ensures id in Step(s, e).objectives && Advanced(s.objectives[id], Step(s, e).objectives[id], OneOf(s, e, id))
  {
    hide Valid, Changed, Advanced, Names;
    if e.id == id && Update(Lookup(s, id), e.changes, e.expected).Ok? {
      ChangedAdvances(s.objectives[id], e.changes, OneOf(s, e, id));
    } else {
      AdvancedByNothing(s.objectives[id], OneOf(s, e, id));
    }
  }

  lemma LinkAdvances(s: System, e: Event, id: string)
    requires e.LinkMission? && id in s.objectives
    ensures id in Step(s, e).objectives && Advanced(s.objectives[id], Step(s, e).objectives[id], OneOf(s, e, id))
  {
    hide Valid;
  }

  lemma OthersAdvance(s: System, e: Event, id: string)
    requires e.Create? || e.Read? || (e.Write? && e.client !in s.intents)
    requires id in s.objectives
    ensures id in Step(s, e).objectives && Advanced(s.objectives[id], Step(s, e).objectives[id], OneOf(s, e, id))
  {
    hide Valid, Prepare;
  }

  lemma StepAdvances(s: System, e: Event, id: string)
    requires Consistent(s) && id in s.objectives
    ensures id in Step(s, e).objectives && Advanced(s.objectives[id], Step(s, e).objectives[id], OneOf(s, e, id))
  {
    hide Step, Advanced, OneOf, Consistent;
    match e
    case Write(client) =>
      if client in s.intents {
        WriteAdvances(s, client, id);
      } else {
        OthersAdvance(s, e, id);
      }
    case GenericWrite(_, _, _) => GenericAdvances(s, e, id);
    case LinkMission(_, _) => LinkAdvances(s, e, id);
    case _ => OthersAdvance(s, e, id);
  }

  lemma AdvancedTwice(o: Objective, p: Objective, q: Objective, first: Kind -> nat, second: Kind -> nat, both: Kind -> nat)
    requires Advanced(o, p, first) && Advanced(p, q, second) && forall k :: both(k) == first(k) + second(k)
    ensures Advanced(o, q, both)
  {}

  /** No update is lost: between any two points of any interleaving the version of an objective grows by exactly the
      number of updates that succeeded, and each counter, and the links, by exactly the number of successful calls,
      unless a generic update replaced it; nor does a terminal status change otherwise. */
  lemma {:induction false} NoUpdateIsLost(es: seq<Event>, n: nat, id: string)
    requires n <= |es| && id in Run(es[..n]).objectives
    ensures id in Run(es).objectives
    ensures Advanced(Run(es[..n]).objectives[id], Run(es).objectives[id], CountFrom(es, n, id))
    decreases |es|
  {
    hide Step, Succeeds, Advanced;
    if n == |es| {
      assert es[..n] == es;
      AdvancedByNothing(Run(es).objectives[id], CountFrom(es, n, id));
    } else {
      var front, last := es[..|es| - 1], es[|es| - 1];
      assert front[..n] == es[..n];
      NoUpdateIsLost(front, n, id);
      RunsAreConsistent(front);
      StepAdvances(Run(front), last, id);
      AdvancedTwice(Run(es[..n]).objectives[id], Run(front).objectives[id], Run(es).objectives[id], CountFrom(front, n, id),
                    OneOf(Run(front), last, id), CountFrom(es, n, id));
    }
  }

  /** The limits hold throughout, links are distinct, and a stored COMPLETED is backed by enough verified successes. */
  lemma LimitsHold(es: seq<Event>, id: string)
    requires id in Run(es).objectives
    ensures var o := Run(es).objectives[id];
      && 0 <= o.strategyChanges <= o.maxStrategyChanges && 0 <= o.zeroProgress <= o.maxZeroProgress
      && Distinct(o.links) && |o.links| <= o.maxMissions
      && (o.status.Completed? ==> o.verified >= o.required)
  {
    RunsAreConsistent(es);
  }

  // ---- conflicts -------------------------------------------------------------------------------------------

  /** The client's own steps frame its operation: it reads at `n` and has not written since. */
  predicate Waiting(es: seq<Event>, n: nat, client: nat)
    requires n < |es|
  {
    es[n].Read? && es[n].client == client
    && forall i | n < i < |es| :: !(es[i].Write? && es[i].client == client)
  }

  /** An intent stays as it was prepared until it is written. */
  lemma {:induction false} IntentStays(es: seq<Event>, n: nat, client: nat, i: Intent)
    requires n <= |es| && client in Run(es[..n]).intents && Run(es[..n]).intents[client] == i
    requires forall k | n <= k < |es| :: !(es[k].Write? && es[k].client == client)
    ensures client in Run(es).intents && Run(es).intents[client] == i
    decreases |es|
  {
    hide Prepare, Update, Link;
    if n == |es| {
      assert es[..n] == es;
    } else {
      var front := es[..|es| - 1];
      assert front[..n] == es[..n];
      IntentStays(front, n, client, i);
      assert !(es[|es| - 1].Write? && es[|es| - 1].client == client);
    }
  }

  /** What a valid proposal still needs from the validator: a verified count that a completed objective can afford, and
      enough verified successes to be completed. */
  predicate Affordable(o: Objective, op: Op) {
    match op
    case SetVerified(n) => o.status.Completed? ==> n >= o.required
    case SetStatus(target, _) => target.Completed? ==> o.verified >= o.required
    case Terminate(target, _) => target.Completed? ==> o.verified >= o.required
    case _ => true
  }

  lemma ProposalsAreValid(o: Objective, op: Op)
    requires Valid(o) && Prepare(Some(o), op).Propose?
    ensures !Prepare(Some(o), op).changes.immutable
    ensures Valid(Changed(o, Prepare(Some(o), op).changes)) <==> Affordable(o, op)
  {}

  /** A write fails for a conflict exactly when some other update of the objective succeeded since it was read; otherwise
      it succeeds exactly when the objective it read can afford it. */
  lemma WritesConflictExactly(es: seq<Event>, n: nat, client: nat)
    requires n < |es| && Waiting(es, n, client)
    requires client !in Run(es[..n]).intents && client in Run(es[..n + 1]).intents
    ensures client in Run(es).intents && es[n].id in Run(es[..n]).objectives
    ensures var r := Written(Run(es), client);
      && (r == Err(VersionConflict) <==> Count(es, n + 1, es[n].id, AnyUpdate) > 0)
      && (r.Ok? <==> Count(es, n + 1, es[n].id, AnyUpdate) == 0 && Affordable(Run(es[..n]).objectives[es[n].id], es[n].op))
  {
    hide Valid, Prepare, Changed, Link, Count, Affordable;
    var id, before := es[n].id, Run(es[..n]);
    assert es[..n + 1][..n] == es[..n];
    assert Run(es[..n + 1]).objectives == before.objectives;
    var i := Run(es[..n + 1]).intents[client];
    IntentStays(es, n + 1, client, i);
    NoUpdateIsLost(es, n + 1, id);
    RunsAreConsistent(es);
    assert Prepared(Run(es), i);
    assert Valid(i.seen) by {
      RunsAreConsistent(es[..n]);
    }
    ProposalsAreValid(i.seen, i.op);
  }

  /** So does a generic update that names the version its caller read: it conflicts exactly when some other update
      succeeded since. One that names no version never conflicts. */
  lemma GenericWritesConflictExactly(es: seq<Event>, n: nat, id: string, changes: Changes, expected: Option<int>)
    requires n <= |es| && id in Run(es[..n]).objectives && !changes.immutable
    requires expected.Some? ==> expected.value == Run(es[..n]).objectives[id].version
    ensures Update(Lookup(Run(es), id), changes, expected) == Err(VersionConflict)
            <==> expected.Some? && Count(es, n, id, AnyUpdate) > 0
  {
    hide Valid, Changed, Count;
    NoUpdateIsLost(es, n, id);
  }

  // ---- leaving a terminal status -----------------------------------------------------------------------------

  /** An accepted generic update that names another status. */
  predicate Leaves(s: System, e: Event, id: string) {
    && e.GenericWrite? && e.id == id && id in s.objectives && Update(Lookup(s, id), e.changes, e.expected).Ok?
    && e.changes.status.Some? && e.changes.status.value != s.objectives[id].status
  }

  lemma StepLeavesExactly(s: System, e: Event, id: string)
    requires Consistent(s) && id in s.objectives && Terminal(s.objectives[id].status)
    ensures id in Step(s, e).objectives
    ensures Step(s, e).objectives[id].status != s.objectives[id].status <==> Leaves(s, e, id)
  {
    hide Valid;
    match e
    case Write(client) =>
      if client in s.intents {
        assert Prepared(s, s.intents[client]);
      }
    case _ =>
  }

  /** A terminal objective changes its status at some later point of an interleaving if and only if some generic update
      that names another status is accepted on the way. */
  lemma {:induction false} TerminalIsLeftExactly(es: seq<Event>, n: nat, id: string)
    requires n <= |es| && id in Run(es[..n]).objectives && Terminal(Run(es[..n]).objectives[id].status)
    ensures (exists k | n <= k <= |es| :: Differs(es, n, k, id)) <==> (exists k | n <= k < |es| :: Leaves(Run(es[..k]), es[k], id))
    decreases |es|
  {
    hide Step, Leaves, Advanced, Consistent, Terminal;
    assert es[..|es|] == es;
    if n == |es| {
      return;
    }
    var front := es[..|es| - 1];
    forall k | 0 <= k <= |front| ensures front[..k] == es[..k] {}
    assert forall k | n <= k <= |front| :: Differs(front, n, k, id) == Differs(es, n, k, id);
    TerminalIsLeftExactly(front, n, id);
    if !exists k | n <= k < |front| :: Leaves(Run(front[..k]), front[k], id) {
      assert !Differs(front, n, |front|, id) && front[..|front|] == front;
      NoUpdateIsLost(front, n, id);
      RunsAreConsistent(front);
      StepLeavesExactly(Run(front), es[|es| - 1], id);
      assert Differs(es, n, |es|, id) <==> Leaves(Run(es[..|front|]), es[|front|], id);
    }
  }

  /** The status at step `k` is not the status at step `n`. */
  predicate Differs(es: seq<Event>, n: nat, k: nat, id: string)
    requires n <= |es| && k <= |es|
  {
    && id in Run(es[..n]).objectives && id in Run(es[..k]).objectives
    && Run(es[..k]).objectives[id].status != Run(es[..n]).objectives[id].status
  }

  const FRESH := Objective(1, Active, None, 1, 0, [], [], [], 1, 1, 1, 0, 0, 1)

  lemma RunSnoc(es: seq<Event>, e: Event)
    ensures Run(es + [e]) == Step(Run(es), e)
  {
    assert (es + [e])[..|es|] == es;
  }

  /** It happens: a cancelled objective is made active again. */
  lemma CancelledIsRevived(id: string)
    ensures var cancel := [Create(id, FRESH), Read(0, id, SetStatus(Cancelled, None)), Write(0)];
      var revive := GenericWrite(id, NOTHING.(status := Some(Active)), None);
      && id in Run(cancel).objectives && Run(cancel).objectives[id].status == Cancelled
      && id in Run(cancel + [revive]).objectives && Run(cancel + [revive]).objectives[id].status == Active
  {
    var create, read, revive := Create(id, FRESH), Read(0, id, SetStatus(Cancelled, None)), GenericWrite(id, NOTHING.(status := Some(Active)), None);
    hide Run;
    assert [] + [create] == [create] && [create] + [read] == [create, read] && [create, read] + [Write(0)] == [create, read, Write(0)];
    RunSnoc([], create);
    RunSnoc([create], read);
    RunSnoc([create, read], Write(0));
    RunSnoc([create, read, Write(0)], revive);
    NothingRun();
    Revived(id);
  }

  lemma NothingRun()
    ensures Run([]) == System(map[], map[])
  {}

  lemma Revived(id: string)
    ensures var s := Step(Step(Step(System(map[], map[]), Create(id, FRESH)), Read(0, id, SetStatus(Cancelled, None))), Write(0));
      && id in s.objectives && s.objectives[id].status == Cancelled
      && var t := Step(s, GenericWrite(id, NOTHING.(status := Some(Active)), None));
      id in t.objectives && t.objectives[id].status == Active
  {
    var s1 := System(map[id := FRESH], map[]);
    assert Step(System(map[], map[]), Create(id, FRESH)) == s1;
    var s2 := s1.(intents := map[0 := Intent(id, SetStatus(Cancelled, None), FRESH, NOTHING.(status := Some(Cancelled)))]);
    assert Step(s1, Read(0, id, SetStatus(Cancelled, None))) == s2;
    assert Step(s2, Write(0)) == System(map[id := FRESH.(version := 2, status := Cancelled)], map[]);
  }
}
