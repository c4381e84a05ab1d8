/** The autonomous agent loop. For any responses of the model and any behaviour of the tools: what it emits, how often it
    tries, which calls it repeats, and exactly how it ends. It ends without a completion or a failure when an argument the
    model chose makes one of its checks raise.
 */
module AgentLoop {
  import opened Search
  import opened AgentEvidence
  import opened PythonText

  const MAX_ITERATIONS := 15
  const MAX_RETRIES := 3

  const READ_ONLY: set<string> := {"workspace_reader", "url_reader", "web_search", "document_retrieval"}

  /** What identifies a call: the tool and its arguments, without the context and the wish to repeat. */
  datatype Fingerprint = Fingerprint(tool: string, arguments: map<string, Value>)

  function FingerprintOf(a: Action): Fingerprint { Fingerprint(a.tool, a.arguments - {"context", "force_repeat"}) }

  datatype Phase = Think | Act | Observe | Reflect

  datatype Event = Initialization | TraceUpdate(phase: Phase, trace: Trace) | Completion(history: seq<Trace>) | Failure(history: seq<Trace>)

  // ---- model responses and tool calls ----------------------------------------------------------------------

  /** A structured response; a finished one without an answer is not taken as finished. */
  datatype Response = Malformed | Response(finished: bool, answer: string, action: Option<Action>)

  datatype Thought = Finish | Choose(action: Action) | Idle

  function Decide(r: Response): Thought {
    match r
    case Malformed => Idle
    case Response(finished, answer, action) =>
      if finished && Strip(answer) != "" then Finish else if action.Some? then Choose(action.value) else Idle
  }

  datatype Attempt = Returns(report: Report) | Raises

  /** What is observed of a call that has been tried `tried` times: its first report, or the error after the last try. */
  function Executed(attempts: nat -> Attempt, tried: nat): Observation
    requires tried <= MAX_RETRIES
    decreases MAX_RETRIES - tried
  {
    if tried == MAX_RETRIES then Raised
    else
      match attempts(tried)
      case Returns(report) => Reported(report)
      case Raises => Executed(attempts, tried + 1)
  }

  /** The trace of a chosen action: blocked if it is a read-only call that already returned, else carried out. */
  function Acted(step: nat, action: Action, attempts: nat -> Attempt, seen: set<Fingerprint>): Trace {
    if action.tool in READ_ONLY && FingerprintOf(action) in seen then Trace(step, Some(action), DuplicateBlocked, false)
    else
      var observation := Executed(attempts, 0);
      Trace(step, Some(action), observation, observation.Raised?)
  }

  /** A read-only call that returned, whatever its report says. */
  predicate Read(t: Trace) {
    t.action.Some? && t.action.value.tool in READ_ONLY && !t.isError && t.observation != DuplicateBlocked
  }

  function Call(t: Trace): Fingerprint
    requires Read(t)
  {
    FingerprintOf(t.action.value)
  }

  function ReadsOf(history: seq<Trace>): set<Fingerprint> {
    set i | 0 <= i < |history| && Read(history[i]) :: Call(history[i])
  }

  predicate Blocked(history: seq<Trace>) { history != [] && history[|history| - 1].observation == DuplicateBlocked }

  predicate Idled(history: seq<Trace>) { history != [] && history[|history| - 1].observation == NoActionSelected }

  // ---- one run -----------------------------------------------------------------------------------------------

  /** How a run ends. Aborted: a check raised, that of the observation just made or that of the evidence. */
  datatype Ending = Completed | Failed | Aborted(observed: Option<Trace>)

  /** Everything a run depends on. */
  datatype World = World(responses: nat -> Response, attempts: (nat, nat) -> Attempt, before: set<Fingerprint>) {
    function Thought(history: seq<Trace>): Thought { Decide(responses(|history|)) }

    function Tries(step: nat): nat -> Attempt { (k: nat) => attempts(step, k) }

    function Seen(history: seq<Trace>): set<Fingerprint> { before + ReadsOf(history) }

    function Next(history: seq<Trace>, action: Action): Trace {
      Acted(|history| + 1, action, Tries(|history| + 1), Seen(history))
    }

    /** The evidence is checked after this history. */
    predicate Checks(history: seq<Trace>) {
      Seen(history) != {} && !Blocked(history) && (Idled(history) || |history| == MAX_ITERATIONS)
    }

    /** The loop asks the model again after this history. */
    ghost predicate GoesOn(history: seq<Trace>) {
      |history| < MAX_ITERATIONS && !Blocked(history) && (Checks(history) ==> Check(history) == Lacking)
    }

    /** The model chose a workspace action that cannot be hashed, and its report carries data. */
    ghost predicate ObservesOffender(history: seq<Trace>) {
      GoesOn(history) && Thought(history).Choose? && Offends(Next(history, Thought(history).action))
    }

    /** The checked evidence makes the check raise. */
    ghost predicate TripsCheck(history: seq<Trace>) { Checks(history) && Trips(history) }
  }

  ghost function Run(w: World, history: seq<Trace>): (seq<Trace>, Ending)
    requires |history| <= MAX_ITERATIONS
    decreases MAX_ITERATIONS - |history|
  {
    if Blocked(history) then (history, Completed)
    else if w.Checks(history) && Check(history) == Enough then (history, Completed)
    else if w.Checks(history) && Check(history) == TypeError then (history, Aborted(None))
    else if |history| == MAX_ITERATIONS then (history, Failed)
    else
      match w.Thought(history)
      case Finish => (history, Completed)
      case Idle => Run(w, history + [Trace(|history| + 1, None, NoActionSelected, false)])
      case Choose(action) =>
        var trace := w.Next(history, action);
        if Offends(trace) then (history, Aborted(Some(trace))) else Run(w, history + [trace])
  }

  /** The trace the loop records after a history it goes on from. */
  ghost predicate Records(w: World, history: seq<Trace>, t: Trace) {
    match w.Thought(history)
    case Finish => false
    case Idle => t == Trace(|history| + 1, None, NoActionSelected, false)
    case Choose(action) => t == w.Next(history, action) && !Offends(t)
  }

  lemma RunStep(w: World, history: seq<Trace>, t: Trace)
    requires w.GoesOn(history) && Records(w, history, t)
    ensures Run(w, history) == Run(w, history + [t])
  {
    hide Check, Offends, Decide, Acted, World.Seen;
  }

  /** The updates one iteration emits, told from its final trace. */
  function Updates(t: Trace): seq<Event> {
    [TraceUpdate(Think, Trace(t.step, None, NotYet, false))]
    + (if t.action.Some? then [TraceUpdate(Act, Trace(t.step, t.action, NotYet, false))] else [])
    + (if t.action.Some? && t.observation != DuplicateBlocked then [TraceUpdate(Observe, t)] else [])
    + [TraceUpdate(Reflect, t)]
  }

  function Transcript(history: seq<Trace>): seq<Event> {
    if history == [] then [Initialization] else Transcript(history[..|history| - 1]) + Updates(history[|history| - 1])
  }

  /** What follows the transcript: one closing event, or the updates of an iteration that raised before it could reflect. */
  function Closing(history: seq<Trace>, ending: Ending): seq<Event> {
    match ending
    case Completed => [Completion(history)]
    case Failed => [Failure(history)]
    case Aborted(None) => []
    case Aborted(Some(t)) => Updates(t)[..|Updates(t)| - 1]
  }

  function Events(history: seq<Trace>, ending: Ending): seq<Event> { Transcript(history) + Closing(history, ending) }

  // ---- what every run keeps ----------------------------------------------------------------------------------

  predicate StepsNumbered(history: seq<Trace>) { forall i | 0 <= i < |history| :: history[i].step == i + 1 }

  /** No read-only call returned twice, nor did one that had returned before the run. */
  predicate NoReadTwice(history: seq<Trace>, before: set<Fingerprint>) {
    && (forall i | 0 <= i < |history| && Read(history[i]) :: Call(history[i]) !in before)
    && (forall i, j | 0 <= i < j < |history| && Read(history[i]) && Read(history[j]) ::
          Call(history[i]) != Call(history[j]))
  }

  /** A trace carries out what the model decided in its iteration, and tells what its attempts did. */
  predicate Answers(t: Trace, thought: Thought, attempts: nat -> Attempt) {
    match thought
    case Finish => false
    case Choose(action) =>
      && t.action == Some(action) && t.isError == t.observation.Raised?
      && (t.observation == DuplicateBlocked || t.observation == Executed(attempts, 0))
    case Idle => t.action == None && t.observation == NoActionSelected && !t.isError
  }

  /** A history the loop can have produced: numbered steps, each answering the model and the tools, a blocked call only at
      the end, no report that raised on being checked, and no read-only call returning twice. */
  predicate Plausible(w: World, history: seq<Trace>) {
    && |history| <= MAX_ITERATIONS && StepsNumbered(history) && NoReadTwice(history, w.before)
    && (forall i | 0 <= i < |history| ::
          Answers(history[i], Decide(w.responses(i)), w.Tries(i + 1)) && !Offends(history[i]))
    && (forall i | 0 <= i < |history| - 1 :: history[i].observation != DuplicateBlocked)
  }

  lemma ReadsGrow(history: seq<Trace>, t: Trace)
    ensures ReadsOf(history + [t]) == ReadsOf(history) + if Read(t) then {Call(t)} else {}
  {
    hide Call, Read;
    var more := history + [t];
    forall f | f in ReadsOf(history) ensures f in ReadsOf(more) {
      var i :| 0 <= i < |history| && Read(history[i]) && f == Call(history[i]);
      assert Read(more[i]);
    }
    if Read(t) {
      assert Read(more[|history|]);
    }
  }

  lemma NoReadTwiceGrows(history: seq<Trace>, t: Trace, before: set<Fingerprint>)
    requires NoReadTwice(history, before)
    requires Read(t) ==> Call(t) !in before + ReadsOf(history)
    ensures NoReadTwice(history + [t], before)
  {
    hide Call, Read;
    var more := history + [t];
    forall i | 0 <= i < |more| && Read(more[i]) ensures Call(more[i]) !in before {
      assert i < |history| ==> more[i] == history[i];
    }
    forall i, j | 0 <= i < j < |more| && Read(more[i]) && Read(more[j])
      ensures Call(more[i]) != Call(more[j])
    {
      assert more[i] == history[i];
      if j < |history| {
        assert more[j] == history[j];
      } else {
        assert Call(history[i]) in ReadsOf(history);
      }
    }
  }

  lemma PlausibleGrows(w: World, history: seq<Trace>, t: Trace)
    requires Plausible(w, history) && !Blocked(history) && |history| < MAX_ITERATIONS
    requires t.step == |history| + 1 && !Offends(t)
    requires Answers(t, w.Thought(history), w.Tries(|history| + 1))
    requires Read(t) ==> Call(t) !in w.Seen(history)
    ensures Plausible(w, history + [t])
  {
    hide Answers, Call, Read, NoReadTwice, Decide, ReadsOf, Offends;
    NoReadTwiceGrows(history, t, w.before);
    var more := history + [t];
    forall i | 0 <= i < |more|
      ensures Answers(more[i], Decide(w.responses(i)), w.Tries(i + 1)) && !Offends(more[i]) && more[i].step == i + 1
    {
      assert i < |history| ==> more[i] == history[i];
    }
    forall i | 0 <= i < |more| - 1 ensures more[i].observation != DuplicateBlocked {
      assert more[i] == history[i];
    }
  }

  /** What the loop does after a history it goes on from, as a trace; the model may also finish instead. */
  lemma PlausibleNext(w: World, history: seq<Trace>, action: Action)
    requires Plausible(w, history) && !Blocked(history) && |history| < MAX_ITERATIONS
    requires w.Thought(history) == Choose(action) && !Offends(w.Next(history, action))
    ensures Plausible(w, history + [w.Next(history, action)])
  {
    hide FingerprintOf, Executed, ReadsOf, NoReadTwice, StepsNumbered, Offends, Decide, Plausible;
    var t := w.Next(history, action);
    PlausibleGrows(w, history, t);
  }

  lemma PlausibleIdle(w: World, history: seq<Trace>)
    requires Plausible(w, history) && !Blocked(history) && |history| < MAX_ITERATIONS && w.Thought(history).Idle?
    ensures Plausible(w, history + [Trace(|history| + 1, None, NoActionSelected, false)])
  {
    PlausibleGrows(w, history, Trace(|history| + 1, None, NoActionSelected, false));
  }

  /** Every history a run ends with is plausible and continues the one it started from; the loop went on from each history
      in between, and no observation made there raised. */
  lemma {:induction false} RunKeeps(w: World, history: seq<Trace>)
    requires Plausible(w, history)
    ensures var (h, _) := Run(w, history);
      && Plausible(w, h) && history <= h
      && forall n | |history| <= n < |h| :: w.GoesOn(h[..n]) && !w.ObservesOffender(h[..n])
    decreases MAX_ITERATIONS - |history|
  {
    hide Plausible, Offends, Check, Decide;
    assert |history| <= MAX_ITERATIONS by { PlausibleIsShort(w, history); }
    if w.GoesOn(history) && !w.ObservesOffender(history) && !w.Thought(history).Finish? && |history| < MAX_ITERATIONS {
      var t;
      match w.Thought(history) {
        case Idle =>
          t := Trace(|history| + 1, None, NoActionSelected, false);
          PlausibleIdle(w, history);
        case Choose(action) =>
          t := w.Next(history, action);
          PlausibleNext(w, history, action);
      }
      RunKeeps(w, history + [t]);
      var h := Run(w, history).0;
      assert h[..|history|] == history;
    }
  }

  lemma PlausibleIsShort(w: World, history: seq<Trace>)
    requires Plausible(w, history)
    ensures |history| <= MAX_ITERATIONS && StepsNumbered(history)
  {}

  lemma NothingYet(w: World)
    ensures Plausible(w, []) && w.Seen([]) == w.before && Transcript([]) == [Initialization]
  {}

  // ---- how a run ends ----------------------------------------------------------------------------------------

  /** Which of the endings it is, read off the history it ends with. */
  lemma {:induction false} EndsExactly(w: World, history: seq<Trace>)
    requires |history| <= MAX_ITERATIONS
    ensures var (h, e) := Run(w, history);
      && |h| <= MAX_ITERATIONS
      && (e.Completed? <==> Blocked(h) || (w.Checks(h) && Check(h) == Enough) || (w.GoesOn(h) && w.Thought(h).Finish?))
      && (e.Failed? <==> |h| == MAX_ITERATIONS && !Blocked(h) && (w.Checks(h) ==> Check(h) == Lacking))
      && (e == Aborted(None) <==> w.Checks(h) && Check(h) == TypeError)
      && (e.Aborted? && e.observed.Some? <==> w.ObservesOffender(h))
      && (e.Aborted? && e.observed.Some? ==> e.observed.value == w.Next(h, w.Thought(h).action))
    decreases MAX_ITERATIONS - |history|
  {
    hide Check, Offends, Decide, Acted, World.Seen;
    if w.GoesOn(history) && !w.ObservesOffender(history) {
      match w.Thought(history)
      case Finish =>
      case Idle => EndsExactly(w, history + [Trace(|history| + 1, None, NoActionSelected, false)]);
      case Choose(action) => EndsExactly(w, history + [w.Next(history, action)]);
    }
  }

  lemma PlausibleRaises(w: World, h: seq<Trace>)
    requires Plausible(w, h)
    ensures Check(h) == TypeError <==> Trips(h)
  {}

  /** A run is aborted if and only if evidence the loop checks has an action that cannot be hashed after its last
      incomplete read and before anything that makes up for it, or the loop observes data reported to such an action. */
  lemma AbortsExactly(w: World)
    ensures var (h, e) := Run(w, []);
      e.Aborted? <==> exists n | 0 <= n <= |h| :: w.TripsCheck(h[..n]) || w.ObservesOffender(h[..n])
  {
    hide Plausible, Trips, Offends, Decide, World.Seen;
    NothingYet(w);
    RunKeeps(w, []);
    EndsExactly(w, []);
    var (h, e) := Run(w, []);
    assert h[..|h|] == h;
    PlausibleRaises(w, h);
    forall n | 0 <= n < |h| ensures !w.TripsCheck(h[..n]) {
      TripsRaises(h[..n]);
    }
  }

  lemma TripsRaises(history: seq<Trace>)
    ensures Trips(history) ==> Check(history) == TypeError
  {}

  /** Each of the workspace actions the model chooses can be hashed, as every text can. */
  ghost predicate ActsHashably(w: World) {
    forall i: nat | Decide(w.responses(i)).Choose? ::
      var a := Decide(w.responses(i)).action;
      a.tool == "workspace_reader" ==> Hashable(WorkspaceAction(a))
  }

  /** Then no run is aborted. */
  lemma HashableActionsNeverAbort(w: World)
    requires ActsHashably(w)
    ensures !Run(w, []).1.Aborted?
  {
    NothingYet(w);
    RunKeeps(w, []);
    EndsExactly(w, []);
    var h := Run(w, []).0;
    hide Run, Decide, World.Seen;
    forall i | 0 <= i < |h| ensures !Unhashable(h[i]) {
      assert Answers(h[i], Decide(w.responses(i)), w.Tries(i + 1));
    }
    HashableNeverRaises(h);
  }

  // ---- what is emitted ---------------------------------------------------------------------------------------

  /** After the initialization come only updates of the numbered steps, in order and at most four each. */
  lemma {:induction false} TranscriptShape(history: seq<Trace>)
    requires StepsNumbered(history)
    ensures var es := Transcript(history);
      && 1 <= |es| <= 1 + 4 * |history| && es[0] == Initialization
      && (forall i | 0 < i < |es| :: es[i].TraceUpdate? && 1 <= es[i].trace.step <= |history|)
      && (forall i, j | 0 < i < j < |es| :: es[i].trace.step <= es[j].trace.step)
  {
    if history != [] {
      TranscriptShape(history[..|history| - 1]);
      var us := Updates(history[|history| - 1]);
      assert forall i | 0 <= i < |us| :: us[i].TraceUpdate? && us[i].trace.step == |history|;
      hide Updates;
    }
  }

  predicate Closes(e: Event) { e.Completion? || e.Failure? }

  lemma EventsClose(h: seq<Trace>, e: Ending)
    requires StepsNumbered(h)
    ensures var es := Events(h, e);
      && es != []
      && (forall i | 0 <= i < |es| - 1 :: !Closes(es[i]))
      && (Closes(es[|es| - 1]) <==> !e.Aborted?)
  {
    hide Transcript, Updates;
    TranscriptShape(h);
    if e.Aborted? && e.observed.Some? {
      UpdatesNeverClose(e.observed.value);
    }
    assert forall i | 0 <= i < |Transcript(h)| :: !Closes(Transcript(h)[i]);
  }

  /** A run that is not aborted closes with exactly one completion or failure, its last event; an aborted one never
      emits either. */
  lemma ClosesExactlyOnce(w: World)
    ensures var (h, e) := Run(w, []); var es := Events(h, e);
      && es != []
      && (forall i | 0 <= i < |es| - 1 :: !Closes(es[i]))
      && (Closes(es[|es| - 1]) <==> !e.Aborted?)
  {
    hide *;
    NothingYet(w);
    RunKeeps(w, []);
    var (h, e) := Run(w, []);
    PlausibleIsShort(w, h);
    EventsClose(h, e);
  }

  lemma UpdatesNeverClose(t: Trace)
    ensures |Updates(t)| >= 2 && forall i | 0 <= i < |Updates(t)| :: !Closes(Updates(t)[i])
  {}

  // ---- what the loop takes for granted -----------------------------------------------------------------------

  /** A read-only call that returned counts as done whatever its report says, a failure included: choosing it again is
      blocked, and completes the run. */
  lemma RepeatCompletes(w: World, history: seq<Trace>, action: Action, again: Action)
    requires |history| + 1 < MAX_ITERATIONS && w.GoesOn(history) && w.Thought(history) == Choose(action)
    requires action.tool in READ_ONLY && w.Next(history, action).observation.Reported? && !Offends(w.Next(history, action))
    requires w.Thought(history + [w.Next(history, action)]) == Choose(again) && FingerprintOf(again) == FingerprintOf(action)
    ensures Run(w, history) ==
            (history + [w.Next(history, action)] + [Trace(|history| + 2, Some(again), DuplicateBlocked, false)], Completed)
  {
    hide Check, Offends, Decide;
    var t := w.Next(history, action);
    var more := history + [t];
    ReadsGrow(history, t);
    assert Read(t) && w.GoesOn(more);
    assert w.Next(more, again) == Trace(|history| + 2, Some(again), DuplicateBlocked, false);
    assert !Offends(w.Next(more, again)) by { BlockedNeverOffends(w.Next(more, again)); }
    RunStep(w, history, t);
    RunStep(w, more, w.Next(more, again));
  }

  lemma BlockedNeverOffends(t: Trace)
    ensures t.observation == DuplicateBlocked ==> !Offends(t)
  {}

  // ---- an aborted run ----------------------------------------------------------------------------------------

  const READ_FILE := Action("workspace_reader", map["action" := Text("read_file")])

  /** An argument of the wrong kind: a list where the reader wants a text. */
  const LISTED := Action("workspace_reader", map["action" := List([Text("find_text")])])

  function ExampleResponse(i: nat): Response {
    if i == 0 then Response(false, "", Some(READ_FILE)) else if i == 1 then Response(false, "", Some(LISTED)) else Response(false, "", None)
  }

  /** The file has more; the second call is turned down without raising. */
  function ExampleAttempt(step: nat, attempt: nat): Attempt {
    if step == 1 then Returns(Told(false, Some(Flags(true, false)))) else Returns(Told(true, None))
  }

  const EXAMPLE := World(ExampleResponse, ExampleAttempt, {})
  const PARTIAL_READ := Trace(1, Some(READ_FILE), Reported(Told(false, Some(Flags(true, false)))), false)
  const TURNED_DOWN := Trace(2, Some(LISTED), Reported(Told(true, None)), false)
  const IDLING := Trace(3, None, NoActionSelected, false)

  lemma ExampleObservations()
    ensures EXAMPLE.Next([], READ_FILE) == PARTIAL_READ && EXAMPLE.Next([PARTIAL_READ], LISTED) == TURNED_DOWN
    ensures !Offends(PARTIAL_READ) && !Offends(TURNED_DOWN)
  {
    ReadsGrow([], PARTIAL_READ);
    assert EXAMPLE.Tries(1)(0) == ExampleAttempt(1, 0) && EXAMPLE.Tries(2)(0) == ExampleAttempt(2, 0);
    assert [] + [PARTIAL_READ] == [PARTIAL_READ];
    assert LISTED.arguments["action"].List?;
    assert FingerprintOf(READ_FILE).arguments["action"].Text? && FingerprintOf(LISTED).arguments["action"].List?;
  }

  lemma ExampleSteps()
    ensures EXAMPLE.GoesOn([]) && Records(EXAMPLE, [], PARTIAL_READ)
    ensures EXAMPLE.GoesOn([PARTIAL_READ]) && Records(EXAMPLE, [PARTIAL_READ], TURNED_DOWN)
    ensures EXAMPLE.GoesOn([PARTIAL_READ, TURNED_DOWN]) && Records(EXAMPLE, [PARTIAL_READ, TURNED_DOWN], IDLING)
  {
    ExampleObservations();
    hide Check, Acted, Offends, World.Seen;
  }

  /** The evidence once the third step has chosen no action. */
  lemma ExampleEvidence()
    ensures var h := [PARTIAL_READ, TURNED_DOWN, IDLING];
      EXAMPLE.Checks(h) && Check(h) == TypeError
  {
    var h := [PARTIAL_READ, TURNED_DOWN, IDLING];
    assert LISTED.arguments["action"].List?;
    assert LastIncomplete(h, 0) && Unhashable(h[1]) && NoneInspects(h, 1, 1);
    assert Call(h[0]) in ReadsOf(h);
  }

  /** Three steps that abort a run: a partial read, a listed action, and no action. */
  lemma ListedActionAborts()
    ensures var (h, e) := Run(EXAMPLE, []);
      |h| == 3 && e == Aborted(None) && forall i | 0 <= i < |Events(h, e)| :: !Closes(Events(h, e)[i])
  {
    var h := [PARTIAL_READ, TURNED_DOWN, IDLING];
    assert Run(EXAMPLE, h) == (h, Aborted(None)) by {
      ExampleEvidence();
      hide Check, World.Checks;
    }
    hide *;
    assert [] + [PARTIAL_READ] == [PARTIAL_READ] && [PARTIAL_READ] + [TURNED_DOWN] == [PARTIAL_READ, TURNED_DOWN];
    assert [PARTIAL_READ, TURNED_DOWN] + [IDLING] == h;
    ExampleSteps();
    RunStep(EXAMPLE, [], PARTIAL_READ);
    RunStep(EXAMPLE, [PARTIAL_READ], TURNED_DOWN);
    RunStep(EXAMPLE, [PARTIAL_READ, TURNED_DOWN], IDLING);
    ClosesExactlyOnce(EXAMPLE);
  }

  /** One recorded step. */
  lemma Grows(w: World, history: seq<Trace>, t: Trace)
    requires w.GoesOn(history) && Records(w, history, t) && Plausible(w, history)
    ensures Plausible(w, history + [t])
    ensures Run(w, history) == Run(w, history + [t])
    ensures w.Seen(history + [t]) == w.Seen(history) + if Read(t) then {Call(t)} else {}
    ensures Transcript(history + [t]) == Transcript(history) + Updates(t)
  {
    hide Plausible, Check, Decide, Offends, Updates, Acted, Call, Read, ReadsOf;
    RunStep(w, history, t);
    ReadsGrow(history, t);
    assert (history + [t])[..|history|] == history;
    match w.Thought(history)
    case Idle => PlausibleIdle(w, history);
    case Choose(action) => PlausibleNext(w, history, action);
    case Finish =>
  }

  lemma ClosingIs(history: seq<Trace>)
    ensures Closing(history, Completed) == [Completion(history)] && Closing(history, Failed) == [Failure(history)]
    ensures Closing(history, Aborted(None)) == []
  {}

  lemma IdleUpdates(t: Trace)
    requires t.action == None
    ensures Updates(t) == [TraceUpdate(Think, Trace(t.step, None, NotYet, false)), TraceUpdate(Reflect, t)] && !Read(t)
  {}

  // ---- the loop ----------------------------------------------------------------------------------------------

  class AutonomousAgentLoop {
    var successful: set<Fingerprint>

    constructor ()
      ensures successful == {}
    {
      successful := {};
    }

    /** At most three attempts: the first report, or an error once every one of them raised. */
    method ExecuteToolWithRecovery(attempts: nat -> Attempt) returns (observation: Observation, isError: bool, tries: nat)
      ensures 1 <= tries <= MAX_RETRIES
      ensures forall i | 0 <= i < tries - 1 :: attempts(i).Raises?
      ensures isError == attempts(tries - 1).Raises?
      ensures if isError then tries == MAX_RETRIES && observation == Raised
              else observation == Reported(attempts(tries - 1).report)
      ensures observation == Executed(attempts, 0)
    {
      for attempt := 0 to MAX_RETRIES
        invariant attempt < MAX_RETRIES
        invariant forall i | 0 <= i < attempt :: attempts(i).Raises?
        invariant Executed(attempts, 0) == Executed(attempts, attempt)
      {
        match attempts(attempt)
        case Returns(report) =>
          return Reported(report), false, attempt + 1;
        case Raises =>
          if attempt == MAX_RETRIES - 1 {
            return Raised, true, attempt + 1;
          }
      }
    }

    /** Carry out a chosen action, or block it if it is a read-only call that already returned. It is aborted, with nothing
        reflected, when the check of what was observed raises. */
    method Perform(step: nat, action: Action, attempts: nat -> Attempt)
      returns (updates: seq<Event>, trace: Trace, aborted: bool)
      modifies this
      ensures trace == Acted(step, action, attempts, old(successful))
      ensures trace.observation !in {NotYet, NoActionSelected}
      ensures trace.observation == DuplicateBlocked <==> action.tool in READ_ONLY && FingerprintOf(action) in old(successful)
      ensures successful == old(successful) + if Read(trace) then {Call(trace)} else {}
      ensures aborted == Offends(trace)
      ensures [TraceUpdate(Think, Trace(step, None, NotYet, false))] + updates
              == if aborted then Updates(trace)[..|Updates(trace)| - 1] else Updates(trace)
    {
      trace := Trace(step, Some(action), NotYet, false);
      updates := [TraceUpdate(Act, trace)];
      var fingerprint := FingerprintOf(action);
      if action.tool in READ_ONLY && fingerprint in successful {
        trace := trace.(observation := DuplicateBlocked);
        updates := updates + [TraceUpdate(Reflect, trace)];
        return updates, trace, false;
      }
      var observation, isError, _ := ExecuteToolWithRecovery(attempts);
      trace := trace.(observation := observation);
      trace := trace.(isError := isError);
      updates := updates + [TraceUpdate(Observe, trace)];
      if !isError && action.tool in READ_ONLY {
        successful := successful + {fingerprint};
      }
      if action.tool == "workspace_reader" {
        var incomplete := ObservationIncomplete(observation, action);
        if incomplete.None? {
          return updates, trace, true;
        }
      }
      updates := updates + [TraceUpdate(Reflect, trace)];
      aborted := false;
    }

    /** What the object remembers once a run has come this far. */
    ghost predicate Remembers(w: World, history: seq<Trace>, ending: Option<Ending>)
      reads this
    {
      successful == w.Seen(history) +
        match ending case Some(Aborted(Some(t))) => (if Read(t) then {Call(t)} else {}) case _ => {}
    }

    /** One iteration: the updates it emits, and its trace recorded or the run ended. */
    method Iterate(w: World, history: seq<Trace>)
      returns (updates: seq<Event>, more: seq<Trace>, ending: Option<Ending>)
      requires Plausible(w, history) && w.GoesOn(history) && Remembers(w, history, None)
      modifies this
      ensures Plausible(w, more) && Remembers(w, more, ending)
      ensures match ending
        case None =>
          && |more| == |history| + 1 && Run(w, history) == Run(w, more) && Transcript(more) == Transcript(history) + updates
          && !Blocked(more) && (w.Checks(more) && Idled(more) ==> Check(more) == Lacking)
        case Some(e) => Run(w, history) == (more, e) && Transcript(history) + updates == Events(more, e)
    {
      hide Plausible, Transcript, ReadsOf, FingerprintOf, Decide, Check, Updates, Offends, Acted, Read, Call, World.Seen;
      assert successful == w.Seen(history);
      var step := |history| + 1;
      var thought := Decide(w.responses(step - 1));
      if thought.Finish? {
        return [Completion(history)], history, Some(Completed);
      }
      updates := [TraceUpdate(Think, Trace(step, None, NotYet, false))];
      if thought.Choose? {
        var acted, trace, aborted := Perform(step, thought.action, w.Tries(step));
        updates := updates + acted;
        if aborted {
          return updates, history, Some(Aborted(Some(trace)));
        }
        Grows(w, history, trace);
        more := history + [trace];
        if trace.observation == DuplicateBlocked {
          return updates + [Completion(more)], more, Some(Completed);
        }
        return updates, more, None;
      }
      var trace := Trace(step, None, NoActionSelected, false);
      Grows(w, history, trace);
      IdleUpdates(trace);
      more := history + [trace];
      updates := updates + [TraceUpdate(Reflect, trace)];
      if successful != {} {
        var verdict := EvidenceIsSufficient(more);
        if verdict == TypeError {
          return updates, more, Some(Aborted(None));
        }
        if verdict == Enough {
          return updates + [Completion(more)], more, Some(Completed);
        }
      }
      ending := None;
    }

    /** Think, act, observe and reflect until finished, out of iterations, or aborted. */
    method ExecuteGoal(w: World) returns (events: seq<Event>, history: seq<Trace>, ending: Ending)
      requires w.before == successful
      modifies this
      ensures (history, ending) == Run(w, [])
      ensures Plausible(w, history)
      ensures events == Events(history, ending)
      ensures Remembers(w, history, Some(ending))
    {
      hide Plausible, Transcript, Check, Offends, World.Seen, Closing, Decide, Read, Call;
      events, history := [Initialization], [];
      NothingYet(w);
      while |history| < MAX_ITERATIONS
        invariant Plausible(w, history) && |history| <= MAX_ITERATIONS && events == Transcript(history) && !Blocked(history)
        invariant Run(w, []) == Run(w, history) && (w.Checks(history) && Idled(history) ==> Check(history) == Lacking)
        invariant Remembers(w, history, None)
      {
        var updates, more, ended := Iterate(w, history);
        assert Transcript(history) + updates == events + updates;
        events := events + updates;
        history := more;
        if ended.Some? {
          ending := ended.value;
          return;
        }
        PlausibleIsShort(w, history);
      }
      var verdict := Lacking;
      if successful != {} {
        verdict := EvidenceIsSufficient(history);
      }
      ClosingIs(history);
      ending := match verdict case Enough => Completed case Lacking => Failed case TypeError => Aborted(None);
      events := events + match verdict case Enough => [Completion(history)] case Lacking => [Failure(history)] case TypeError => [];
    }
  }
}
