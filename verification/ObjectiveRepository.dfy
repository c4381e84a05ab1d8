/** The objective repository: each update replaces one entry under the lock, or is refused and replaces none. */
module ObjectiveRepository {
  import opened PythonText
  import opened Search
  import opened ObjectiveModel

  class ObjectiveRepository {
    var objectives: map<string, Objective>

    predicate AllValid()
      reads this
    {
      forall id | id in objectives :: Valid(objectives[id])
    }

    constructor ()
      ensures objectives == map[] && AllValid()
    {
      objectives := map[];
    }

    function Get(id: string): Option<Objective>
      reads this
    {
      if id in objectives then Some(objectives[id]) else None
    }

    method Create(id: string, objective: Objective) returns (r: Result)
      requires AllValid() && Valid(objective)
      modifies this
      ensures AllValid()
      ensures r == if id in old(objectives) then Err(AlreadyExists)
                   else if objective.version != 1 then Err(BadInitialVersion) else Ok(objective)
      ensures objectives == if r.Ok? then old(objectives)[id := objective] else old(objectives)
    {
      if id in objectives {
        return Err(AlreadyExists);
      }
      if objective.version != 1 {
        return Err(BadInitialVersion);
      }
      objectives := objectives[id := objective];
      r := Ok(objective);
    }

    method Update(id: string, changes: Changes, expected: Option<int>) returns (r: Result)
      requires AllValid()
      modifies this
      ensures AllValid()
      ensures r == ObjectiveModel.Update(old(Get(id)), changes, expected)
      ensures objectives == if r.Ok? then old(objectives)[id := r.objective] else old(objectives)
    {
      hide Valid;
      if changes.immutable {
        return Err(ImmutableFields);
      }
      if id !in objectives {
        return Err(NotFound);
      }
      var current := objectives[id];
      if expected.Some? && current.version != expected.value {
        return Err(VersionConflict);
      }
      var candidate := Changed(current, changes);
      if !Valid(candidate) {
        return Err(Invalid);
      }
      objectives := objectives[id := candidate];
      r := Ok(candidate);
    }

    method LinkMission(id: string, mission: string) returns (r: Result)
      requires AllValid()
      modifies this
      ensures AllValid()
      ensures r == Link(old(Get(id)), mission)
      ensures objectives == if r.Ok? then old(objectives)[id := r.objective] else old(objectives)
    {
      hide Valid;
      if id !in objectives {
        return Err(NotFound);
      }
      var current := objectives[id];
      if Terminal(current.status) {
        return Err(TerminalRejected);
      }
      if mission in current.links {
        return Err(DuplicateLink);
      }
      if |current.links| >= current.maxMissions {
        return Err(MaxMissions);
      }
      var links := current.links + [mission];
      r := Update(id, NOTHING.(links := Some(links)), Some(current.version));
    }

    method UpdateStatus(id: string, target: Status, reason: Option<string>) returns (r: Result)
      requires AllValid()
      modifies this
      ensures AllValid()
      ensures r == Named(old(Get(id)), SetStatus(target, reason))
      ensures objectives == if r.Ok? then old(objectives)[id := r.objective] else old(objectives)
    {
      hide Valid;
      if id !in objectives {
        return Err(NotFound);
      }
      var current := objectives[id];
      if Terminal(current.status) && current.status != target {
        return Err(TerminalRejected);
      }
      if current.status == target && current.terminalReason == reason {
        return Ok(current);
      }
      var changes := NOTHING.(status := Some(target));
      if reason.Some? {
        changes := changes.(terminalReason := Some(reason));
      }
      r := Update(id, changes, Some(current.version));
    }

    method TerminalTransition(id: string, target: Status, reason: string) returns (r: Result)
      requires AllValid()
      modifies this
      ensures AllValid()
      ensures r == Named(old(Get(id)), Terminate(target, reason))
      ensures objectives == if r.Ok? then old(objectives)[id := r.objective] else old(objectives)
    {
      hide Valid;
      if !Terminal(target) {
        return Err(TerminalStatusRequired);
      }
      if Strip(reason) == "" {
        return Err(ReasonRequired);
      }
      r := UpdateStatus(id, target, Some(Strip(reason)));
    }

    method SetVerifiedSuccessCount(id: string, count: int) returns (r: Result)
      requires AllValid()
      modifies this
      ensures AllValid()
      ensures r == Named(old(Get(id)), SetVerified(count))
      ensures objectives == if r.Ok? then old(objectives)[id := r.objective] else old(objectives)
    {
      hide Valid;
      if count < 0 {
        return Err(NegativeCount);
      }
      if id !in objectives {
        return Err(NotFound);
      }
      var current := objectives[id];
      r := Update(id, NOTHING.(verified := Some(count)), Some(current.version));
    }

    method RecordStrategyChange(id: string) returns (r: Result)
      requires AllValid()
      modifies this
      ensures AllValid()
      ensures r == Named(old(Get(id)), StrategyChange)
      ensures objectives == if r.Ok? then old(objectives)[id := r.objective] else old(objectives)
    {
      hide Valid;
      if id !in objectives {
        return Err(NotFound);
      }
      var current := objectives[id];
      if Terminal(current.status) {
        return Err(TerminalRejected);
      }
      if current.strategyChanges >= current.maxStrategyChanges {
        return Err(MaxStrategyChanges);
      }
      r := Update(id, NOTHING.(strategyChanges := Some(current.strategyChanges + 1),
                               strategyVersion := Some(current.strategyVersion + 1)), Some(current.version));
    }

    method RecordZeroProgressCycle(id: string) returns (r: Result)
      requires AllValid()
      modifies this
      ensures AllValid()
      ensures r == Named(old(Get(id)), ZeroProgress)
      ensures objectives == if r.Ok? then old(objectives)[id := r.objective] else old(objectives)
    {
      hide Valid;
      if id !in objectives {
        return Err(NotFound);
      }
      var current := objectives[id];
      if Terminal(current.status) {
        return Err(TerminalRejected);
      }
      if current.zeroProgress >= current.maxZeroProgress {
        return Err(MaxZeroProgress);
      }
      r := Update(id, NOTHING.(zeroProgress := Some(current.zeroProgress + 1)), Some(current.version));
    }
  }
}
