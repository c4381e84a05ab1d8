/** Company objectives: their invariants, the versioned update, and what each named operation asks of it. */
module ObjectiveModel {
  import opened PythonText
  import opened Search

  datatype Status =
    | Draft | Active | Paused | WaitingApproval | WaitingDirector | Blocked
    | Completed | Failed | Cancelled | Escalated | Exhausted

  predicate Terminal(s: Status) { s.Completed? || s.Failed? || s.Cancelled? || s.Escalated? || s.Exhausted? }

  datatype Objective = Objective(
    version: int, status: Status, terminalReason: Option<string>, required: int, verified: int, links: seq<string>,
    credited: seq<string>, evaluated: seq<string>, maxMissions: int, maxStrategyChanges: int, maxZeroProgress: int,
    strategyChanges: int, zeroProgress: int, strategyVersion: int)

  predicate Distinct<T(==)>(s: seq<T>) { forall i, j | 0 <= i < j < |s| :: s[i] != s[j] }

  /** The validator of the schema. */
  predicate Valid(o: Objective) {
    && o.version >= 1 && o.required >= 1 && o.verified >= 0 && o.strategyVersion >= 1
    && o.maxMissions >= 1 && o.maxStrategyChanges >= 0 && o.maxZeroProgress >= 0
    && Distinct(o.links) && Distinct(o.credited) && Distinct(o.evaluated)
    && |o.links| <= o.maxMissions
    && 0 <= o.strategyChanges <= o.maxStrategyChanges && 0 <= o.zeroProgress <= o.maxZeroProgress
    && (o.status.Completed? ==> o.verified >= o.required)
  }

  datatype Error =
    | AlreadyExists | BadInitialVersion | NotFound | VersionConflict | Invalid | TerminalRejected | TerminalStatusRequired
    | ReasonRequired | DuplicateLink | MaxMissions | MaxStrategyChanges | MaxZeroProgress | NegativeCount
    | ImmutableFields

  // ---- the versioned update ------------------------------------------------------------------------------

  /** The fields an update replaces, and whether it names one of those that nobody may: the id, the time of creation, the
      version. */
  datatype Changes = Changes(
    immutable: bool, status: Option<Status>, terminalReason: Option<Option<string>>, required: Option<int>, verified: Option<int>,
    links: Option<seq<string>>, credited: Option<seq<string>>, evaluated: Option<seq<string>>, maxMissions: Option<int>,
    maxStrategyChanges: Option<int>, maxZeroProgress: Option<int>, strategyChanges: Option<int>, zeroProgress: Option<int>,
    strategyVersion: Option<int>)

  const NOTHING := Changes(false, None, None, None, None, None, None, None, None, None, None, None, None, None)

  function Or<T>(change: Option<T>, old_: T): T { if change.Some? then change.value else old_ }

  function Changed(o: Objective, c: Changes): Objective {
    Objective(
      o.version + 1, Or(c.status, o.status), Or(c.terminalReason, o.terminalReason), Or(c.required, o.required),
      Or(c.verified, o.verified), Or(c.links, o.links), Or(c.credited, o.credited), Or(c.evaluated, o.evaluated),
      Or(c.maxMissions, o.maxMissions), Or(c.maxStrategyChanges, o.maxStrategyChanges), Or(c.maxZeroProgress, o.maxZeroProgress),
      Or(c.strategyChanges, o.strategyChanges), Or(c.zeroProgress, o.zeroProgress), Or(c.strategyVersion, o.strategyVersion))
  }

  datatype Result = Ok(objective: Objective) | Err(error: Error)

  function Update(current: Option<Objective>, c: Changes, expected: Option<int>): Result {
    if c.immutable then Err(ImmutableFields)
    else if current.None? then Err(NotFound)
    else if expected.Some? && current.value.version != expected.value then Err(VersionConflict)
    else if !Valid(Changed(current.value, c)) then Err(Invalid)
    else Ok(Changed(current.value, c))
  }

  // ---- the named operations --------------------------------------------------------------------------------

  datatype Op =
    | SetVerified(count: int) | StrategyChange | ZeroProgress
    | SetStatus(target: Status, why: Option<string>) | Terminate(end: Status, reason: string)

  /** What an operation decides after reading the objective: an error, nothing to do, or changes to the version it read. */
  datatype Plan = Refuse(error: Error) | Keep | Propose(changes: Changes)

  function PlanStatus(o: Objective, target: Status, why: Option<string>): Plan {
    if Terminal(o.status) && o.status != target then Refuse(TerminalRejected)
    else if o.status == target && o.terminalReason == why then Keep
    else Propose(NOTHING.(status := Some(target), terminalReason := if why.Some? then Some(why) else None))
  }

  /** Checks made before the objective is read. */
  function Precheck(op: Op): Option<Error> {
    match op
    case SetVerified(n) => if n < 0 then Some(NegativeCount) else None
    case Terminate(target, reason) =>
      if !Terminal(target) then Some(TerminalStatusRequired)
      else if Strip(reason) == "" then Some(ReasonRequired)
      else None
    case _ => None
  }

  function Prepare(current: Option<Objective>, op: Op): Plan {
    if Precheck(op).Some? then Refuse(Precheck(op).value)
    else if current.None? then Refuse(NotFound)
    else
      var o := current.value;
      match op
      case SetVerified(n) => Propose(NOTHING.(verified := Some(n)))
      case StrategyChange =>
        if Terminal(o.status) then Refuse(TerminalRejected)
        else if o.strategyChanges >= o.maxStrategyChanges then Refuse(MaxStrategyChanges)
        else Propose(NOTHING.(strategyChanges := Some(o.strategyChanges + 1), strategyVersion := Some(o.strategyVersion + 1)))
      case ZeroProgress =>
        if Terminal(o.status) then Refuse(TerminalRejected)
        else if o.zeroProgress >= o.maxZeroProgress then Refuse(MaxZeroProgress)
        else Propose(NOTHING.(zeroProgress := Some(o.zeroProgress + 1)))
      case SetStatus(target, why) => PlanStatus(o, target, why)
      case Terminate(target, reason) => PlanStatus(o, target, Some(Strip(reason)))
  }

  function Link(current: Option<Objective>, mission: string): Result {
    if current.None? then Err(NotFound)
    else
      var o := current.value;
      if Terminal(o.status) then Err(TerminalRejected)
      else if mission in o.links then Err(DuplicateLink)
      else if |o.links| >= o.maxMissions then Err(MaxMissions)
      else Update(current, NOTHING.(links := Some(o.links + [mission])), Some(o.version))
  }

  /** A named operation with nobody in between. */
  function Named(current: Option<Objective>, op: Op): Result {
    match Prepare(current, op)
    case Refuse(error) => Err(error)
    case Keep => if current.Some? then Ok(current.value) else Err(NotFound)
    case Propose(changes) => if current.Some? then Update(current, changes, Some(current.value.version)) else Err(NotFound)
  }
}
