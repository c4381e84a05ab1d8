/** What the agent loop's calls reported, and when it accepts that as evidence. The arguments of a call come from the
    model and are any JSON values, so the check of the evidence can meet one it cannot handle.
 */
module AgentEvidence {
  import opened Search

  datatype Value =
    | Null
    | Boolean(truth: bool)
    | Number(numeral: string)
    | Text(text: string)
    | List(items: seq<Value>)
    | Object(members: map<string, Value>)

  datatype Action = Action(tool: string, arguments: map<string, Value>)

  /** What a tool result says of a file it was read from. */
  datatype Flags = Flags(hasMore: bool, truncated: bool)

  /** A tool result: whether it reports a failure, which the loop never looks at, and its data if that is a dictionary. One
      too long to be kept whole is cut off, and then cannot be read back. */
  datatype Report = CutOff | Told(failed: bool, data: Option<Flags>)

  datatype Observation = NotYet | DuplicateBlocked | NoActionSelected | Raised | Reported(report: Report)

  datatype Trace = Trace(step: nat, action: Option<Action>, observation: Observation, isError: bool)

  predicate OnWorkspace(t: Trace) { t.action.Some? && t.action.value.tool == "workspace_reader" }

  /** The workspace reader's own `action` argument; a missing one is None, as an explicit null is. */
  function WorkspaceAction(a: Action): Value { if "action" in a.arguments then a.arguments["action"] else Null }

  predicate Hashable(v: Value) { !v.List? && !v.Object? }

  predicate CarriesData(o: Observation) { o.Reported? && o.report.Told? && o.report.data.Some? }

  /** Whether a report is that of an incomplete read. None when asking raises: a value that cannot be hashed was looked up
      in a set. */
  function ObservationIncomplete(o: Observation, a: Action): Option<bool> {
    if !CarriesData(o) then Some(false)
    else if WorkspaceAction(a) == Text("read_file") then Some(o.report.data.value.hasMore || o.report.data.value.truncated)
    else if !Hashable(WorkspaceAction(a)) then None
    else Some(false)
  }

  predicate IncompleteRead(t: Trace) {
    && OnWorkspace(t) && WorkspaceAction(t.action.value) == Text("read_file")
    && CarriesData(t.observation) && (t.observation.report.data.value.hasMore || t.observation.report.data.value.truncated)
  }

  predicate Unhashable(t: Trace) { OnWorkspace(t) && !Hashable(WorkspaceAction(t.action.value)) }

  /** A workspace report that carries data, made by an action that cannot be hashed. */
  predicate Offends(t: Trace) { Unhashable(t) && CarriesData(t.observation) }

  predicate Targeted(a: Action) { WorkspaceAction(a) in {Text("find_text"), Text("search_codebase")} }

  /** A read or a targeted search of the workspace. */
  predicate Inspects(t: Trace) {
    OnWorkspace(t) && (WorkspaceAction(t.action.value) == Text("read_file") || Targeted(t.action.value))
  }

  // ---- the verdict -----------------------------------------------------------------------------------------

  datatype Verdict = Enough | Lacking | TypeError

  /** The last inspection of the workspace, if any, was not an incomplete read. */
  predicate LastInspectionFine(history: seq<Trace>) {
    if history == [] then true
    else
      var last := history[|history| - 1];
      if Inspects(last) then !IncompleteRead(last) else LastInspectionFine(history[..|history| - 1])
  }

  ghost predicate LastIncomplete(history: seq<Trace>, l: int) {
    && 0 <= l < |history| && IncompleteRead(history[l])
    && forall j | l < j < |history| :: !IncompleteRead(history[j])
  }

  ghost predicate NoneInspects(history: seq<Trace>, from: int, to: int) {
    forall j | 0 <= from <= j < to <= |history| :: !Inspects(history[j])
  }

  /** An action that cannot be hashed comes after the last incomplete read and before anything that makes up for it. */
  ghost predicate Trips(history: seq<Trace>) {
    exists l, k | 0 <= l < k < |history| :: LastIncomplete(history, l) && Unhashable(history[k]) && NoneInspects(history, l + 1, k)
  }

  ghost predicate CheckRaises(history: seq<Trace>) {
    (exists i | 0 <= i < |history| :: Offends(history[i])) || Trips(history)
  }

  ghost function Check(history: seq<Trace>): Verdict {
    if CheckRaises(history) then TypeError else if history != [] && LastInspectionFine(history) then Enough else Lacking
  }

  lemma {:induction false} FineAfter(history: seq<Trace>, n: nat)
    requires n <= |history| && NoneInspects(history, n, |history|)
    ensures LastInspectionFine(history) == LastInspectionFine(history[..n])
  {
    if n < |history| {
      assert history[..|history| - 1][..n] == history[..n];
      FineAfter(history[..|history| - 1], n);
    } else {
      assert history[..n] == history;
    }
  }

  /** Evidence that can be checked suffices exactly when there is some and its last inspection, if any, is not an
      incomplete read. */
  lemma SufficientExactly(history: seq<Trace>)
    requires !CheckRaises(history)
    ensures Check(history) == Enough <==>
            history != [] &&
            forall i | 0 <= i < |history| && Inspects(history[i]) && NoneInspects(history, i + 1, |history|) ::
              !IncompleteRead(history[i])
  {
    if history != [] {
      var n := LastInspection(history);
      FineAfter(history, n);
      if n > 0 {
        assert history[..n][n - 1] == history[n - 1];
      }
    }
  }

  /** One past the last inspection, or 0. */
  lemma {:induction false} LastInspection(history: seq<Trace>) returns (n: nat)
    ensures n <= |history| && (n > 0 ==> Inspects(history[n - 1])) && NoneInspects(history, n, |history|)
  {
    if history == [] || Inspects(history[|history| - 1]) {
      n := |history|;
    } else {
      n := LastInspection(history[..|history| - 1]);
    }
  }

  lemma {:induction false} NothingIncomplete(history: seq<Trace>)
    requires forall i | 0 <= i < |history| :: !IncompleteRead(history[i])
    ensures LastInspectionFine(history)
  {
    if history != [] {
      NothingIncomplete(history[..|history| - 1]);
    }
  }

  lemma {:induction false} MadeUpFor(history: seq<Trace>, i: nat)
    requires i < |history| && Inspects(history[i]) && forall j | i <= j < |history| :: !IncompleteRead(history[j])
    ensures LastInspectionFine(history)
  {
    if i < |history| - 1 {
      MadeUpFor(history[..|history| - 1], i);
    }
  }

  /** The check in two passes: find the last incomplete read, then look for something after it that makes up for it.
      Either pass raises when it looks up an action that cannot be hashed. */
  method EvidenceIsSufficient(history: seq<Trace>) returns (verdict: Verdict)
    ensures verdict == Check(history)
  {
    if history == [] {
      return Lacking;
    }
    var lastIncomplete: Option<nat> := None;
    for index := 0 to |history|
      invariant lastIncomplete.Some? ==> lastIncomplete.value < index && IncompleteRead(history[lastIncomplete.value])
      invariant forall i | (if lastIncomplete.Some? then lastIncomplete.value + 1 else 0) <= i < index :: !IncompleteRead(history[i])
      invariant forall i | 0 <= i < index :: !Offends(history[i])
    {
      var trace := history[index];
      if OnWorkspace(trace) {
        match ObservationIncomplete(trace.observation, trace.action.value)
        case None =>
          return TypeError;
        case Some(incomplete) =>
          if incomplete {
            lastIncomplete := Some(index);
          }
      }
    }
    if lastIncomplete.None? {
      NothingIncomplete(history);
      return Enough;
    }
    assert LastIncomplete(history, lastIncomplete.value);
    var from := lastIncomplete.value + 1;
    for i := from to |history|
      invariant NoneInspects(history, from, i)
      invariant forall j | from <= j < i :: !Unhashable(history[j])
    {
      var trace := history[i];
      if OnWorkspace(trace) {
        if !Hashable(WorkspaceAction(trace.action.value)) {
          return TypeError;
        }
        if Targeted(trace.action.value) {
          MadeUpFor(history, i);
          return Enough;
        }
        if WorkspaceAction(trace.action.value) == Text("read_file")
           && ObservationIncomplete(trace.observation, trace.action.value) == Some(false) {
          MadeUpFor(history, i);
          return Enough;
        }
      }
    }
    FineAfter(history, from);
    assert history[..from][from - 1] == history[from - 1];
    verdict := Lacking;
  }

  // ---- what the check takes for granted --------------------------------------------------------------------

  /** A file read that brought no data, because its report was cut off or told of a failure or because it raised, makes up
      for every incomplete read before it. */
  lemma DatalessReadSuffices(history: seq<Trace>, t: Trace)
    requires OnWorkspace(t) && WorkspaceAction(t.action.value) == Text("read_file") && !CarriesData(t.observation)
    requires !CheckRaises(history + [t])
    ensures Check(history + [t]) == Enough
  {
    assert (history + [t])[|history|] == t;
  }

  /** Nothing raises as long as every workspace action can be hashed. */
  lemma HashableNeverRaises(history: seq<Trace>)
    requires forall i | 0 <= i < |history| :: !Unhashable(history[i])
    ensures !CheckRaises(history)
  {}
}
