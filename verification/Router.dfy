/** The capability router: which providers are tried in what order, what the caller receives, and who is cooling down. */
module Router {
  import opened Search

  // ---- providers -----------------------------------------------------------------------------------------

  /** A provider may declare no capabilities at all, or fail to report them. */
  datatype Capabilities = Undeclared | Declared(values: set<string>) | Unreadable

  /** An exception: is it a rate limit, which positive delays does it carry, and what delay does its text mention? */
  datatype Failure = Failure(limited: bool, delays: seq<real>, mentioned: Option<real>)

  datatype Health = Healthy | Unhealthy | HealthFails(failure: Failure)

  datatype Ending = Completes | Breaks(failure: Failure)

  /** One recorded rate limit. */
  datatype Mark = Mark(name: string, model: string, until: real)

  /** A provider together with how it behaves during one call, and with the rate limits that other calls record while this
      one waits for it: for its health, for its stream, or for the reader of the stream. */
  datatype Provider = Provider(
    name: string, capabilities: Capabilities, modelBefore: Option<string>, checkedAt: real, health: Health,
    chunks: seq<string>, ending: Ending, modelAfter: Option<string>, failedAt: real, meanwhile: seq<Mark>)

  // ---- eligibility and order -------------------------------------------------------------------------------

  function LowerChar(c: char): char { if 'A' <= c <= 'Z' then c - 'A' + 'a' else c }

  function Lower(s: string): (r: string)
    ensures |r| == |s|
  { if s == "" then "" else [LowerChar(s[0])] + Lower(s[1..]) }

  predicate Within(a: string, b: string) { exists i | 0 <= i <= |b| :: a <= b[i..] }

  predicate Matches(preference: string, name: string) {
    var p, n := Lower(preference), Lower(name);
    p == n || Within(p, n) || Within(n, p)
  }

  /** The first matching preference; else the place of "auto"; else last. */
  function Rank(name: string, preferences: seq<string>): int {
    var i := FirstIndex(preferences, (p: string) => Matches(p, name));
    if i < |preferences| then i
    else
      var j := FirstIndex(preferences, (p: string) => Lower(p) == "auto");
      if j < |preferences| then j else 999
  }

  predicate Capable(p: Provider, required: set<string>) {
    p.capabilities.Undeclared? || (p.capabilities.Declared? && required <= p.capabilities.values)
  }

  function Filter<T>(s: seq<T>, keep: T -> bool): seq<T> {
    if s == [] then [] else (if keep(s[0]) then [s[0]] else []) + Filter(s[1..], keep)
  }

  /** A stable insertion: after everything of smaller or equal rank. */
  function Insert<T>(s: seq<T>, x: T, rank: T -> int): seq<T> {
    if s == [] || rank(x) < rank(s[0]) then [x] + s else [s[0]] + Insert(s[1..], x, rank)
  }

  function StableSort<T>(s: seq<T>, rank: T -> int): seq<T> {
    if s == [] then [] else Insert(StableSort(s[..|s| - 1], rank), s[|s| - 1], rank)
  }

  function IsCapable(required: set<string>): Provider -> bool { (p: Provider) => Capable(p, required) }

  function ByPreference(preferences: seq<string>): Provider -> int { (p: Provider) => Rank(p.name, preferences) }

  function Eligible(providers: seq<Provider>, required: set<string>, preferences: seq<string>): seq<Provider> {
    StableSort(Filter(providers, IsCapable(required)), ByPreference(preferences))
  }

  predicate Sorted<T>(s: seq<T>, rank: T -> int) { forall i, j | 0 <= i < j < |s| :: rank(s[i]) <= rank(s[j]) }

  /** The elements of one rank, in order. */
  function Class<T>(s: seq<T>, rank: T -> int, r: int): seq<T> { Filter(s, (x: T) => rank(x) == r) }

  lemma {:induction false} FilterAppend<T>(s: seq<T>, x: T, keep: T -> bool)
    ensures Filter(s + [x], keep) == Filter(s, keep) + if keep(x) then [x] else []
  {
    if s == [] {
      assert Filter([x], keep) == if keep(x) then [x] else [];
    } else {
      FilterAppend(s[1..], x, keep);
      var more := s + [x];
      assert more[0] == s[0] && more[1..] == s[1..] + [x];
      assert Filter(more, keep) == (if keep(s[0]) then [s[0]] else []) + Filter(s[1..] + [x], keep);
    }
  }

  lemma {:induction false} FilterNone<T>(s: seq<T>, keep: T -> bool)
    requires forall i | 0 <= i < |s| :: !keep(s[i])
    ensures Filter(s, keep) == []
  {
    if s != [] {
      FilterNone(s[1..], keep);
    }
  }

  lemma {:induction false} InsertAdds<T>(s: seq<T>, x: T, rank: T -> int)
    ensures |Insert(s, x, rank)| == |s| + 1 && multiset(Insert(s, x, rank)) == multiset(s) + multiset{x}
  {
    if s != [] && rank(x) >= rank(s[0]) {
      InsertAdds(s[1..], x, rank);
      assert s == [s[0]] + s[1..];
    }
  }

  lemma {:induction false} InsertSorted<T>(s: seq<T>, x: T, rank: T -> int)
    requires Sorted(s, rank)
    ensures Sorted(Insert(s, x, rank), rank)
  {
    if s != [] && rank(x) >= rank(s[0]) {
      InsertSorted(s[1..], x, rank);
      InsertAdds(s[1..], x, rank);
      var rest := Insert(s[1..], x, rank);
      forall i | 0 <= i < |rest| ensures rank(s[0]) <= rank(rest[i]) {
        assert rest[i] in multiset(rest);
      }
    }
  }

  /** Inserting keeps every rank class in order, with the new element last in its class. */
  lemma {:induction false} InsertClass<T>(s: seq<T>, x: T, rank: T -> int, r: int)
    requires Sorted(s, rank)
    ensures Class(Insert(s, x, rank), rank, r) == Class(s, rank, r) + if rank(x) == r then [x] else []
  {
    var keep := (y: T) => rank(y) == r;
    if s == [] || rank(x) < rank(s[0]) {
      assert ([x] + s)[1..] == s;
      if rank(x) == r {
        FilterNone(s, keep);
      }
    } else {
      InsertClass(s[1..], x, rank, r);
      assert ([s[0]] + Insert(s[1..], x, rank))[1..] == Insert(s[1..], x, rank);
    }
  }

  /** The sort is a permutation, in rank order, and never swaps elements of equal rank. */
  lemma {:induction false} SortIsStable<T>(s: seq<T>, rank: T -> int)
    ensures Sorted(StableSort(s, rank), rank) && multiset(StableSort(s, rank)) == multiset(s)
    ensures forall r :: Class(StableSort(s, rank), rank, r) == Class(s, rank, r)
  {
    if s != [] {
      var front, x := s[..|s| - 1], s[|s| - 1];
      SortIsStable(front, rank);
      InsertSorted(StableSort(front, rank), x, rank);
      InsertAdds(StableSort(front, rank), x, rank);
      assert s == front + [x];
      forall r ensures Class(StableSort(s, rank), rank, r) == Class(s, rank, r) {
        InsertClass(StableSort(front, rank), x, rank, r);
        FilterAppend(front, x, (y: T) => rank(y) == r);
      }
    }
  }

  lemma ClassHead<T>(s: seq<T>, rank: T -> int, r: int)
    requires s != []
    ensures rank(s[0]) == r ==> Class(s, rank, r) != [] && Class(s, rank, r)[0] == s[0] && Class(s, rank, r)[1..] == Class(s[1..], rank, r)
    ensures rank(s[0]) != r ==> Class(s, rank, r) == Class(s[1..], rank, r)
  {}

  /** These two properties determine the order completely. */
  lemma {:induction false} StableOrderIsUnique<T>(a: seq<T>, b: seq<T>, rank: T -> int)
    requires Sorted(a, rank) && Sorted(b, rank) && forall r :: Class(a, rank, r) == Class(b, rank, r)
    ensures a == b
    decreases |a|
  {
    hide Class;
    if a != [] && b != [] {
      var ra, rb := rank(a[0]), rank(b[0]);
      ClassHead(a, rank, ra);
      ClassHead(b, rank, rb);
      ClassMember(b, rank, ra, a[0]);
      ClassMember(a, rank, rb, b[0]);
      assert Class(a, rank, ra)[0] in Class(a, rank, ra) && Class(b, rank, rb)[0] in Class(b, rank, rb);
      assert ra == rb && a[0] == b[0];
      forall r ensures Class(a[1..], rank, r) == Class(b[1..], rank, r) {
        ClassHead(a, rank, r);
        ClassHead(b, rank, r);
      }
      StableOrderIsUnique(a[1..], b[1..], rank);
      assert a == [a[0]] + a[1..] && b == [b[0]] + b[1..];
    } else if a != [] {
      ClassHead(a, rank, rank(a[0]));
      ClassMember(b, rank, rank(a[0]), a[0]);
    } else if b != [] {
      ClassHead(b, rank, rank(b[0]));
      ClassMember(a, rank, rank(b[0]), b[0]);
    }
  }

  lemma {:induction false} ClassMember<T>(s: seq<T>, rank: T -> int, r: int, x: T)
    ensures x in Class(s, rank, r) <==> x in s && rank(x) == r
  {
    if s != [] {
      ClassMember(s[1..], rank, r, x);
      assert s == [s[0]] + s[1..];
    }
  }

  // ---- cooldowns -----------------------------------------------------------------------------------------

  type Table = map<(string, string), real>

  function ModelKey(model: Option<string>): string {
    if model.Some? && model.value != "" then model.value else "unknown"
  }

  function Until(table: Table, name: string, model: string): real {
    if (name, model) in table then table[(name, model)] else 0.0
  }

  predicate InCooldown(table: Table, name: string, model: Option<string>, now: real) {
    now < Until(table, name, ModelKey(model)) || now < Until(table, name, "unknown")
  }

  function MarkOf(name: string, model: Option<string>, seconds: real, now: real): Mark {
    Mark(name, ModelKey(model), now + if seconds > 1.0 then seconds else 1.0)
  }

  function Marked(table: Table, m: Mark): Table {
    table[(m.name, m.model) := m.until][(m.name, "unknown") := m.until]
  }

  function MarkedAll(table: Table, log: seq<Mark>): Table {
    if log == [] then table else Marked(MarkedAll(table, log[..|log| - 1]), log[|log| - 1])
  }

  function TableOf(log: seq<Mark>): Table { MarkedAll(map[], log) }

  lemma NoMarks(table: Table)
    ensures MarkedAll(table, []) == table
  {}

  lemma MarkedSnoc(table: Table, log: seq<Mark>, m: Mark)
    ensures MarkedAll(table, log + [m]) == Marked(MarkedAll(table, log), m)
  {
    assert (log + [m])[..|log|] == log;
  }

  lemma {:induction false} MarkedMore(log: seq<Mark>, more: seq<Mark>)
    ensures TableOf(log + more) == MarkedAll(TableOf(log), more)
  {
    if more == [] {
      assert log + more == log;
    } else {
      var front := more[..|more| - 1];
      MarkedMore(log, front);
      assert (log + more)[..|log + more| - 1] == log + front;
    }
  }

  /** The last mark satisfying `p`, if any. */
  function LastMark(log: seq<Mark>, p: Mark -> bool): Option<Mark> {
    if log == [] then None
    else if p(log[|log| - 1]) then Some(log[|log| - 1])
    else LastMark(log[..|log| - 1], p)
  }

  predicate StillRuns(m: Option<Mark>, now: real) { m.Some? && now < m.value.until }

  function OfProvider(name: string): Mark -> bool { (m: Mark) => m.name == name }

  function OfModel(name: string, model: string): Mark -> bool { (m: Mark) => m.name == name && m.model == model }

  lemma {:induction false} ModelEntry(log: seq<Mark>, name: string, model: string)
    requires model != "unknown"
    ensures Until(TableOf(log), name, model) ==
            var last := LastMark(log, OfModel(name, model)); if last.Some? then last.value.until else 0.0
  {
    if log != [] {
      ModelEntry(log[..|log| - 1], name, model);
    }
  }

  lemma {:induction false} ProviderEntry(log: seq<Mark>, name: string)
    ensures Until(TableOf(log), name, "unknown") ==
            var last := LastMark(log, OfProvider(name)); if last.Some? then last.value.until else 0.0
  {
    if log != [] {
      ProviderEntry(log[..|log| - 1], name);
    }
  }

  /** The table refines the log of marks: a named model cools down exactly while the last mark of its provider, or the
      last mark of that very model, still runs; an unnamed one exactly while the last mark of its provider does. A
      later, shorter mark for another model therefore ends a provider's longer cooldown. */
  lemma CooldownRefinesLog(log: seq<Mark>, name: string, model: Option<string>, now: real)
    requires now >= 0.0
    ensures InCooldown(TableOf(log), name, model, now) <==>
            || StillRuns(LastMark(log, OfProvider(name)), now)
            || (ModelKey(model) != "unknown" && StillRuns(LastMark(log, OfModel(name, ModelKey(model))), now))
  {
    hide Until, LastMark, TableOf;
    ProviderEntry(log, name);
    if ModelKey(model) != "unknown" {
      ModelEntry(log, name, ModelKey(model));
    }
  }

  /** A later mark ends an earlier, longer one: for an unnamed model and for every other model of the provider, though not
      for the model first marked, asked for by name. */
  lemma LaterMarkEndsCooldown(name: string, first: Option<string>, second: Option<string>, third: Option<string>,
                              long: real, short: real, now: real)
    requires ModelKey(first) != "unknown" && ModelKey(second) != ModelKey(first) && ModelKey(third) != ModelKey(first)
    requires 0.0 <= short <= now < long
    ensures var once := [Mark(name, ModelKey(first), long)]; var twice := once + [Mark(name, ModelKey(second), short)];
      && InCooldown(TableOf(once), name, None, now) && !InCooldown(TableOf(twice), name, None, now)
      && InCooldown(TableOf(once), name, third, now) && !InCooldown(TableOf(twice), name, third, now)
      && InCooldown(TableOf(twice), name, first, now)
  {
    var once := [Mark(name, ModelKey(first), long)];
    var twice := once + [Mark(name, ModelKey(second), short)];
    assert [] + once == once && ModelKey(None) == "unknown";
    MarkedSnoc(map[], [], once[0]);
    MarkedSnoc(map[], once, twice[1]);
    hide ModelKey, MarkedAll;
    assert TableOf(once) == Marked(map[], once[0]) by { NoMarks(map[]); }
    assert Until(TableOf(once), name, "unknown") == long && Until(TableOf(twice), name, "unknown") == short;
    assert Until(TableOf(twice), name, ModelKey(first)) == long && Until(TableOf(twice), name, ModelKey(third)) <= short;
  }

  // ---- failing over ----------------------------------------------------------------------------------------

  /** The first positive delay the exception carries, else the one its text mentions, else half a minute. */
  function RetryAfter(f: Failure): real {
    var i := FirstIndex(f.delays, (d: real) => d > 0.0);
    if i < |f.delays| then f.delays[i] else if f.mentioned.Some? then f.mentioned.value else 30.0
  }

  predicate Cooling(table: Table, p: Provider) { InCooldown(table, p.name, p.modelBefore, p.checkedAt) }

  /** A provider is asked for a stream when it is neither cooling down nor unhealthy. */
  predicate Asked(table: Table, p: Provider) { !Cooling(table, p) && p.health.Healthy? }

  predicate Serves(table: Table, p: Provider) { Asked(table, p) && p.ending.Completes? }

  /** What went wrong with a provider that was tried and did not serve. */
  function FailureOf(table: Table, p: Provider): Option<Failure> {
    if Cooling(table, p) then None
    else if p.health.HealthFails? then Some(p.health.failure)
    else if p.health.Healthy? && p.ending.Breaks? then Some(p.ending.failure)
    else None
  }

  /** The rate limit an attempt records itself. */
  function OwnMarks(table: Table, p: Provider): seq<Mark> {
    var f := FailureOf(table, p);
    if f.Some? && f.value.limited then [MarkOf(p.name, p.modelAfter, RetryAfter(f.value), p.failedAt)] else []
  }

  /** The rate limits recorded from an attempt to the next: others' while it waited, then its own. */
  function MarksOf(table: Table, p: Provider): seq<Mark> {
    (if Cooling(table, p) then [] else p.meanwhile) + OwnMarks(table, p)
  }

  function Yield(table: Table, p: Provider): seq<string> { if Asked(table, p) then p.chunks else [] }

  /** The table the provider at position `i` is checked against, should the call get that far. */
  function Seen(table: Table, ps: seq<Provider>, i: nat): Table
    requires i <= |ps|
  {
    if i == 0 then table else var t := Seen(table, ps, i - 1); MarkedAll(t, MarksOf(t, ps[i - 1]))
  }

  /** The stream the caller receives from position `i` on: what each asked provider produced, up to and including the
      first that completes. */
  function Stream(table: Table, ps: seq<Provider>, i: nat): seq<string>
    requires i <= |ps|
    decreases |ps| - i
  {
    if i == |ps| then []
    else
      var t := Seen(table, ps, i);
      Yield(t, ps[i]) + if Serves(t, ps[i]) then [] else Stream(table, ps, i + 1)
  }

  /** The rate limits recorded from position `i` until a provider has served. */
  function Marks(table: Table, ps: seq<Provider>, i: nat): seq<Mark>
    requires i <= |ps|
    decreases |ps| - i
  {
    if i == |ps| then []
    else
      var t := Seen(table, ps, i);
      MarksOf(t, ps[i]) + if Serves(t, ps[i]) then [] else Marks(table, ps, i + 1)
  }

  predicate DistinctNames(ps: seq<Provider>) { forall i, j | 0 <= i < j < |ps| :: ps[i].name != ps[j].name }

  class CapabilityRouter {
    var providers: seq<Provider>
    var cooldowns: Table
    ghost var log: seq<Mark>

    ghost predicate Valid()
      reads this
    {
      DistinctNames(providers) && cooldowns == TableOf(log)
    }

    constructor ()
      ensures Valid() && providers == [] && log == []
    {
      providers, cooldowns, log := [], map[], [];
    }

    /** Registering a name again replaces the provider where it stands. */
    method RegisterProvider(p: Provider)
      requires Valid()
      modifies `providers
      ensures Valid()
      ensures var i := FirstIndex(old(providers), (q: Provider) => q.name == p.name);
        providers == if i < |old(providers)| then old(providers)[i := p] else old(providers) + [p]
    {
      var i := FirstIndex(providers, (q: Provider) => q.name == p.name);
      providers := if i < |providers| then providers[i := p] else providers + [p];
    }

    method MarkCooldown(name: string, model: Option<string>, seconds: real, now: real)
      requires Valid()
      modifies `cooldowns, `log
      ensures Valid() && log == old(log) + [MarkOf(name, model, seconds, now)]
    {
      var until := now + if seconds > 1.0 then seconds else 1.0;
      cooldowns := cooldowns[(name, ModelKey(model)) := until];
      cooldowns := cooldowns[(name, ModelKey(None)) := until];
      log := log + [MarkOf(name, model, seconds, now)];
      assert log[..|log| - 1] == old(log);
    }

    /** What other calls do while this one waits. */
    method Elsewhere(marks: seq<Mark>)
      requires Valid()
      modifies `cooldowns, `log
      ensures Valid() && log == old(log) + marks
    {
      for i := 0 to |marks|
        invariant Valid() && log == old(log) + marks[..i]
      {
        var m := marks[i];
        ghost var before := log;
        cooldowns := cooldowns[(m.name, m.model) := m.until];
        cooldowns := cooldowns[(m.name, "unknown") := m.until];
        log := log + [m];
        assert log[..|log| - 1] == before;
      }
      assert marks[..|marks|] == marks;
    }

    /** One attempt: skip, collect what the stream yields, and remember a rate limit. */
    method Attempt(p: Provider) returns (chunks: seq<string>, served: bool)
      requires Valid()
      modifies `cooldowns, `log
      ensures Valid() && log == old(log) + MarksOf(old(cooldowns), p)
      ensures chunks == Yield(old(cooldowns), p) && served == Serves(old(cooldowns), p)
    {
      hide TableOf, InCooldown, RetryAfter, MarkOf;
      chunks, served := [], false;
      if InCooldown(cooldowns, p.name, p.modelBefore, p.checkedAt) {
        return;
      }
      Elsewhere(p.meanwhile);
      if p.health.HealthFails? {
        if p.health.failure.limited {
          MarkCooldown(p.name, p.modelAfter, RetryAfter(p.health.failure), p.failedAt);
        }
        return;
      }
      if p.health.Unhealthy? {
        return;
      }
      chunks := p.chunks;
      if p.ending.Completes? {
        served := true;
        return;
      }
      if p.ending.failure.limited {
        MarkCooldown(p.name, p.modelAfter, RetryAfter(p.ending.failure), p.failedAt);
      }
    }

    /** Try the eligible providers in order; everything yielded so far has already reached the caller. */
    method RouteSkillExecution(required: set<string>, preferences: seq<string>) returns (output: seq<string>, served: bool)
      requires Valid()
      modifies `cooldowns, `log
      ensures Valid()
      ensures var eligible := Eligible(providers, required, preferences);
        && output == Stream(old(cooldowns), eligible, 0)
        && (served <==> exists i | 0 <= i < |eligible| :: Serves(Seen(old(cooldowns), eligible, i), eligible[i]))
        && log == old(log) + Marks(old(cooldowns), eligible, 0)
    {
      hide Eligible, Serves, MarksOf, Yield, TableOf, MarkedAll, Stream, Marks, Seen, DistinctNames;
      var eligible := Eligible(providers, required, preferences);
      output, served := [], false;
      StreamSteps(cooldowns, eligible, 0);
      for i := 0 to |eligible|
        invariant Valid() && !served && cooldowns == Seen(old(cooldowns), eligible, i)
        invariant Stream(old(cooldowns), eligible, 0) == output + Stream(old(cooldowns), eligible, i)
        invariant old(log) + Marks(old(cooldowns), eligible, 0) == log + Marks(old(cooldowns), eligible, i)
        invariant forall j | 0 <= j < i :: !Serves(Seen(old(cooldowns), eligible, j), eligible[j])
      {
        StreamSteps(old(cooldowns), eligible, i);
        MarkedMore(log, MarksOf(cooldowns, eligible[i]));
        var chunks, done := Attempt(eligible[i]);
        output := output + chunks;
        if done {
          served := true;
          return;
        }
      }
      StreamSteps(old(cooldowns), eligible, |eligible|);
    }
  }

  /** One step of what is seen, streamed and recorded. */
  lemma StreamSteps(table: Table, ps: seq<Provider>, i: nat)
    requires i <= |ps|
    ensures Seen(table, ps, 0) == table
    ensures i == |ps| ==> Stream(table, ps, i) == [] && Marks(table, ps, i) == []
    ensures i < |ps| ==> var t := Seen(table, ps, i);
              && Seen(table, ps, i + 1) == MarkedAll(t, MarksOf(t, ps[i]))
              && Stream(table, ps, i) == Yield(t, ps[i]) + (if Serves(t, ps[i]) then [] else Stream(table, ps, i + 1))
              && Marks(table, ps, i) == MarksOf(t, ps[i]) + (if Serves(t, ps[i]) then [] else Marks(table, ps, i + 1))
  {
    hide Yield, Serves, MarksOf, MarkedAll;
  }

  lemma {:induction false} InsertNames(s: seq<Provider>, x: Provider, rank: Provider -> int)
    requires DistinctNames(s) && forall i | 0 <= i < |s| :: s[i].name != x.name
    ensures DistinctNames(Insert(s, x, rank))
    ensures forall y | y in Insert(s, x, rank) :: y == x || y in s
  {
    if s != [] && rank(x) >= rank(s[0]) {
      InsertNames(s[1..], x, rank);
      var rest := Insert(s[1..], x, rank);
      forall i | 0 <= i < |rest| ensures rest[i].name != s[0].name {
        assert rest[i] in rest;
      }
    }
  }

  lemma {:induction false} SortNames(s: seq<Provider>, rank: Provider -> int)
    requires DistinctNames(s)
    ensures DistinctNames(StableSort(s, rank))
    ensures forall y | y in StableSort(s, rank) :: y in s
  {
    if s != [] {
      var front, x := s[..|s| - 1], s[|s| - 1];
      SortNames(front, rank);
      var sorted := StableSort(front, rank);
      forall i | 0 <= i < |sorted| ensures sorted[i].name != x.name {
        assert sorted[i] in front;
      }
      InsertNames(sorted, x, rank);
    }
  }

  lemma {:induction false} FilterNames(s: seq<Provider>, keep: Provider -> bool)
    requires DistinctNames(s)
    ensures DistinctNames(Filter(s, keep))
    ensures forall y | y in Filter(s, keep) :: y in s
  {
    if s != [] {
      FilterNames(s[1..], keep);
      var rest := Filter(s[1..], keep);
      forall i | 0 <= i < |rest| ensures rest[i].name != s[0].name {
        assert rest[i] in s[1..];
      }
    }
  }

  lemma EligibleNames(ps: seq<Provider>, required: set<string>, preferences: seq<string>)
    requires DistinctNames(ps)
    ensures DistinctNames(Eligible(ps, required, preferences))
  {
    FilterNames(ps, IsCapable(required));
    SortNames(Filter(ps, IsCapable(required)), ByPreference(preferences));
  }

  /** The eligible list is the one list that holds the capable providers, best preference first, and otherwise in order
      of registration. */
  lemma EligibleIsTheStableOrder(ps: seq<Provider>, required: set<string>, preferences: seq<string>, other: seq<Provider>)
    ensures var able, rank, list := Filter(ps, IsCapable(required)), ByPreference(preferences), Eligible(ps, required, preferences);
      && Sorted(list, rank) && multiset(list) == multiset(able)
      && (other == list <==> Sorted(other, rank) && forall r :: Class(other, rank, r) == Class(able, rank, r))
  {
    var able, rank, list := Filter(ps, IsCapable(required)), ByPreference(preferences), Eligible(ps, required, preferences);
    SortIsStable(able, rank);
    if Sorted(other, rank) && forall r :: Class(other, rank, r) == Class(able, rank, r) {
      StableOrderIsUnique(other, list, rank);
    }
  }

  function Yields(table: Table, ps: seq<Provider>, n: nat): seq<string>
    requires n <= |ps|
  {
    if n == 0 then [] else Yields(table, ps, n - 1) + Yield(Seen(table, ps, n - 1), ps[n - 1])
  }

  lemma {:induction false} StreamSplits(table: Table, ps: seq<Provider>, k: nat)
    requires k <= |ps| && forall i | 0 <= i < k :: !Serves(Seen(table, ps, i), ps[i])
    ensures Stream(table, ps, 0) == Yields(table, ps, k) + Stream(table, ps, k)
  {
    hide Serves, Yield, Seen;
    if k > 0 {
      StreamSplits(table, ps, k - 1);
    }
  }

  /** What the caller receives is the partial streams of the providers that broke, in order, and then the whole stream of
      the first one that serves; later providers contribute nothing. */
  lemma StreamStopsAtFirst(table: Table, ps: seq<Provider>, k: nat)
    requires k <= |ps| && forall i | 0 <= i < k :: !Serves(Seen(table, ps, i), ps[i])
    requires k < |ps| ==> Serves(Seen(table, ps, k), ps[k])
    ensures Stream(table, ps, 0) == Yields(table, ps, k) + if k < |ps| then ps[k].chunks else []
  {
    StreamSplits(table, ps, k);
    hide Seen;
  }

  lemma {:induction false} MarksOfOthers(table: Table, log: seq<Mark>, name: string)
    requires forall m | m in log :: m.name != name
    ensures forall model :: Until(MarkedAll(table, log), name, model) == Until(table, name, model)
  {
    if log != [] {
      assert log[|log| - 1] in log;
      MarksOfOthers(table, log[..|log| - 1], name);
    }
  }

  lemma {:induction false} SeenKeeps(table: Table, ps: seq<Provider>, i: nat, name: string)
    requires i <= |ps| && forall j | 0 <= j < i :: ps[j].name != name && forall m | m in ps[j].meanwhile :: m.name != name
    ensures forall model :: Until(Seen(table, ps, i), name, model) == Until(table, name, model)
  {
    if i > 0 {
      SeenKeeps(table, ps, i - 1, name);
      var t := Seen(table, ps, i - 1);
      assert forall m | m in MarksOf(t, ps[i - 1]) :: m.name != name;
      MarksOfOthers(t, MarksOf(t, ps[i - 1]), name);
    }
  }

  /** Only the entries of a provider's own name decide about it. */
  lemma SameCooldown(t: Table, u: Table, p: Provider)
    requires forall m :: Until(t, p.name, m) == Until(u, p.name, m)
    ensures Serves(t, p) == Serves(u, p) && Yield(t, p) == Yield(u, p) && MarksOf(t, p) == MarksOf(u, p)
  {}

  /** Other calls' marks aside, the table at entry decides: unless a rate limit of a provider is recorded elsewhere while
      the call waits for an earlier one, that provider is treated as the table at entry says. */
  lemma DecidedAtEntry(providers: seq<Provider>, required: set<string>, preferences: seq<string>, table: Table, i: nat)
    requires DistinctNames(providers) && i < |Eligible(providers, required, preferences)|
    requires var ps := Eligible(providers, required, preferences);
      forall j | 0 <= j < i :: forall m | m in ps[j].meanwhile :: m.name != ps[i].name
    ensures var ps := Eligible(providers, required, preferences);
      && Serves(Seen(table, ps, i), ps[i]) == Serves(table, ps[i]) && Yield(Seen(table, ps, i), ps[i]) == Yield(table, ps[i])
      && MarksOf(Seen(table, ps, i), ps[i]) == MarksOf(table, ps[i])
  {
    hide Eligible, Seen;
    EligibleNames(providers, required, preferences);
    var ps := Eligible(providers, required, preferences);
    SeenKeeps(table, ps, i, ps[i].name);
    hide FailureOf, OwnMarks;
    SameCooldown(Seen(table, ps, i), table, ps[i]);
  }
}
